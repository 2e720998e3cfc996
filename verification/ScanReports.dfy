/** What a scan reports, stated on the contents of the files before and after: the kind, the sizes and the
    identifier of every finding, and every metadata row. */
module ScanReports {
  import opened Prelude
  import opened SignedMessage
  import opened Snapshot
  import opened IntegrityScan
  import opened ScanTheorems

  /** The path lies in one of the two log directories and has the extension, in any mixture of cases. */
  lemma LogsExactly(home: Home, p: string)
    ensures p in Discover(home) <==>
      && p in home && ("sessions/" <= p || "archived_sessions/" <= p) && |p| >= 6
      && var x := p[|p| - 6..];
      && x[0] == '.' && x[1] in {'j', 'J'} && x[2] in {'s', 'S'} && x[3] in {'o', 'O'} && x[4] in {'n', 'N'}
      && x[5] in {'l', 'L'}
  {
    if |p| >= 6 {
      var x := p[|p| - 6..];
      var low := LowerCase(x);
      assert low == ".jsonl" <==> low[0] == '.' && low[1] == 'j' && low[2] == 's' && low[3] == 'o' && low[4] == 'n'
                                  && low[5] == 'l';
    }
  }

  // ------------------------------------------------------------ findings

  ghost function IdText(id: string): Option<string> { if id == "" then None else Some(id) }

  /** The finding about a checkpoint that held `past` and whose path now holds `new`. */
  ghost function About(kind: string, id: string, past: string, now: string): Finding {
    Finding(kind, "CRITICAL", IdText(id), Some(|past|), Some(|now|))
  }

  /** The three ways in which a file that is still there can break its promise. */
  predicate Rewritten(path: string, past: string, now: string) { "archived_sessions/" <= path && now != past }

  predicate Truncated(path: string, past: string, now: string) {
    !("archived_sessions/" <= path) && |now| < |past|
  }

  predicate Edited(path: string, past: string, now: string) {
    !("archived_sessions/" <= path) && |now| >= |past| && now[..|past|] != past
  }

  lemma InspectKinds(sha: string -> string, id: string, p: string, was: File, f: File)
    requires CollisionFree(sha)
    ensures Inspect(sha, CheckpointOf(sha, id, p, was), f)
      == if Rewritten(p, was.content, f.content) then Some(About("ARCHIVED_LOG_MODIFIED", id, was.content, f.content))
         else if Truncated(p, was.content, f.content) then Some(About("LOG_TRUNCATED", id, was.content, f.content))
         else if Edited(p, was.content, f.content) then Some(About("LOG_PREFIX_MODIFIED", id, was.content, f.content))
         else None
  {
    var past, now := was.content, f.content;
    assert SameDigest(sha, now, past) <==> now == past;
    if |past| <= |now| {
      assert SameDigest(sha, now[..|past|], past) <==> now[..|past|] == past;
    }
  }

  /** Only the verdict on `p` is about its identifier. */
  lemma OnlyVerdict(findings: seq<Finding>, sha: string -> string, files: Checkpoints, logs: Home, claims: Claims,
                    p: string)
    requires ReportsFlagged(findings, sha, files, logs, claims) && DistinctIds(files) && p in files
    ensures forall f :: f in findings && f.opaqueId == IdText(files[p].opaqueId) <==>
      Verdict(sha, files, logs, claims, p) == Some(f)
  {
    FindingsExact(findings, sha, files, logs, claims);
    forall f ensures f in findings && f.opaqueId == IdText(files[p].opaqueId) <==>
      Verdict(sha, files, logs, claims, p) == Some(f)
    {
      if f in findings && f.opaqueId == IdText(files[p].opaqueId) {
        var q :| q in files && Verdict(sha, files, logs, claims, q) == Some(f);
        VerdictNames(sha, files, logs, claims, q);
        assert q == p;
      }
      if Verdict(sha, files, logs, claims, p) == Some(f) { VerdictNames(sha, files, logs, claims, p); }
    }
  }

  /** For a checkpoint whose path is still there the report holds at most one finding, whose kind and sizes tell
      what happened to the contents. */
  lemma KindsExactly(sha: string -> string, draw: string -> string, before: ScanState, was: Home, home: Home,
                     claims: Claims, after: ScanState, r: Report, p: string)
    requires CollisionFree(sha) && Scanned(sha, draw, before, home, claims, after, r)
    requires Reflects(sha, before.files, was) && DistinctIds(before.files)
    requires p in before.files && p in Discover(home)
    ensures var id, past, now := before.files[p].opaqueId, was[p].content, Discover(home)[p].content;
      && (About("ARCHIVED_LOG_MODIFIED", id, past, now) in r.findings <==> Rewritten(p, past, now))
      && (About("LOG_TRUNCATED", id, past, now) in r.findings <==> Truncated(p, past, now))
      && (About("LOG_PREFIX_MODIFIED", id, past, now) in r.findings <==> Edited(p, past, now))
      && forall f :: f in r.findings && f.opaqueId == IdText(id) ==>
           f in {About("ARCHIVED_LOG_MODIFIED", id, past, now), About("LOG_TRUNCATED", id, past, now),
                 About("LOG_PREFIX_MODIFIED", id, past, now)}
  {
    var logs, id := Discover(home), before.files[p].opaqueId;
    var past, now := was[p].content, logs[p].content;
    InspectKinds(sha, id, p, was[p], logs[p]);
    OnlyVerdict(r.findings, sha, before.files, logs, claims, p);
    DifferentKinds(id, past, now);
  }

  lemma DifferentKinds(id: string, past: string, now: string)
    ensures About("ARCHIVED_LOG_MODIFIED", id, past, now) != About("LOG_TRUNCATED", id, past, now)
    ensures About("ARCHIVED_LOG_MODIFIED", id, past, now) != About("LOG_PREFIX_MODIFIED", id, past, now)
    ensures About("LOG_TRUNCATED", id, past, now) != About("LOG_PREFIX_MODIFIED", id, past, now)
  {
    assert "LOG_TRUNCATED"[4] == 'T' && "LOG_PREFIX_MODIFIED"[4] == 'P' && "ARCHIVED_LOG_MODIFIED"[0] == 'A';
  }

  /** For a checkpoint whose path is gone the report holds a deletion with the old size, or nothing when an
      archive file took the checkpoint over. */
  lemma GoneExactly(sha: string -> string, draw: string -> string, before: ScanState, was: Home, home: Home,
                    claims: Claims, after: ScanState, r: Report, p: string)
    requires Scanned(sha, draw, before, home, claims, after, r)
    requires Reflects(sha, before.files, was) && DistinctIds(before.files)
    requires p in before.files && p !in Discover(home)
    ensures forall f :: f in r.findings && f.opaqueId == IdText(before.files[p].opaqueId) <==>
      p !in claims.Values
      && f == Finding("LOG_DELETED", "CRITICAL", IdText(before.files[p].opaqueId), Some(|was[p].content|), None)
  {
    OnlyVerdict(r.findings, sha, before.files, Discover(home), claims, p);
  }

  /** Every finding is about some checkpoint. */
  lemma EveryFinding(sha: string -> string, draw: string -> string, before: ScanState, home: Home,
                     claims: Claims, after: ScanState, r: Report)
    requires Scanned(sha, draw, before, home, claims, after, r)
    ensures forall f :: f in r.findings ==>
      exists p :: p in before.files && f.opaqueId == IdText(before.files[p].opaqueId)
  {
    FindingsExact(r.findings, sha, before.files, Discover(home), claims);
    forall f | f in r.findings
      ensures exists p :: p in before.files && f.opaqueId == IdText(before.files[p].opaqueId)
    {
      var p :| p in before.files && Verdict(sha, before.files, Discover(home), claims, p) == Some(f);
      VerdictNames(sha, before.files, Discover(home), claims, p);
    }
  }

  // ------------------------------------------------------------ metadata

  /** The row about a file under its identifier. */
  ghost function RowAbout(sha: string -> string, id: string, p: string, f: File): FileMetadata {
    var digest := sha(f.content);
    FileMetadata(id, |f.content|, |f.content|, digest, if "archived_sessions/" <= p then Some(digest) else None,
                 "archived_sessions/" <= p, f.mtime)
  }

  ghost predicate IsRow(sha: string -> string, files: Checkpoints, logs: Home, p: string, row: FileMetadata) {
    p in logs && p in files && row == RowAbout(sha, files[p].opaqueId, p, logs[p])
  }

  lemma RowIs(sha: string -> string, files: Checkpoints, logs: Home, p: string)
    requires HexOutput(sha) && Reflects(sha, files, logs) && p in files
    ensures IsRow(sha, files, logs, p, Metadata(files[p]))
  {
    assert IsHex(sha(logs[p].content));
  }

  lemma RowsListed(sha: string -> string, files: Checkpoints, logs: Home, rows: seq<FileMetadata>, order: seq<string>)
    requires HexOutput(sha) && Reflects(sha, files, logs)
    requires Enumerates(order, files.Keys) && ListsMetadata(rows, files, order)
    ensures |rows| == |logs|
    ensures forall row :: row in rows <==> exists p :: IsRow(sha, files, logs, p, row)
  {
    EnumerationSize(order, files.Keys);
    assert |logs.Keys| == |logs|;
    forall row ensures row in rows <==> exists p :: IsRow(sha, files, logs, p, row) {
      if row in rows {
        var i :| 0 <= i < |order| && rows[i] == row;
        RowIs(sha, files, logs, order[i]);
      }
      if p :| IsRow(sha, files, logs, p, row) {
        RowIs(sha, files, logs, p);
        assert p in order;
        var i :| 0 <= i < |order| && order[i] == p;
        assert rows[i] == row;
      }
    }
  }

  /** The metadata lists each discovered file with its size, digest, kind and time, and nothing else. */
  lemma MetadataExactly(sha: string -> string, draw: string -> string, before: ScanState, home: Home,
                        claims: Claims, after: ScanState, r: Report)
    requires HexOutput(sha) && Scanned(sha, draw, before, home, claims, after, r)
    ensures |r.metadata| == |Discover(home)| == r.filesChecked
    ensures forall row :: row in r.metadata <==> exists p :: IsRow(sha, after.files, Discover(home), p, row)
  {
    RebasedExactly(sha, draw, before.files, Discover(home), claims);
    var order :| Enumerates(order, after.files.Keys) && ListsMetadata(r.metadata, after.files, order);
    RowsListed(sha, after.files, Discover(home), r.metadata, order);
  }

  /** The first scan of an agent finds nothing, whatever is there, and starts the chain. */
  lemma FirstScan(sha: string -> string, draw: string -> string, drawn: string, home: Home, claims: Claims,
                  after: ScanState, r: Report)
    requires Scanned(sha, draw, Load(None, drawn), home, claims, after, r)
    ensures r.findings == [] && r.status == "OK" && r.stateId == drawn && r.scanSequence == 1 && r.previousHash == ""
    ensures forall p :: p in after.files ==> after.files[p].opaqueId == draw(p)
  {
    QuietExact(r.findings, sha, map[], Discover(home), claims);
    NothingToClaim(sha, map[], Discover(home), claims);
  }

  lemma NothingToClaim(sha: string -> string, files: Checkpoints, logs: Home, claims: Claims)
    requires Possible(sha, files, logs, claims) && files == map[]
    ensures claims == map[]
  {
    assert forall a :: a in claims ==> claims[a] in files;
  }
}
