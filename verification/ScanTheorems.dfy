/** What the scanner guarantees: exact classification, settling, no false alarm under
    every iteration order, and append-only lineage over whole runs. */
module ScanTheorems {
  import opened Prelude
  import opened SignedMessage
  import opened Snapshot
  import opened IntegrityScan

  // ------------------------------------------------------------ single checkpoints

  /** The checkpoints describe exactly these files. */
  ghost predicate Reflects(sha: string -> string, files: Checkpoints, logs: Home) {
    && files.Keys == logs.Keys
    && forall p :: p in files ==> files[p] == CheckpointOf(sha, files[p].opaqueId, p, logs[p])
  }

  ghost predicate DistinctIds(files: Checkpoints) {
    forall p, q :: p in files && q in files && p != q ==> files[p].opaqueId != files[q].opaqueId
  }

  /** What a file may do between two scans without being flagged. */
  predicate Continues(path: string, before: File, after: File) {
    if IsArchived(path) then after.content == before.content else IsPrefix(before.content, after.content)
  }

  lemma InspectExact(sha: string -> string, id: string, path: string, before: File, after: File)
    requires CollisionFree(sha)
    ensures Inspect(sha, CheckpointOf(sha, id, path, before), after).None? <==> Continues(path, before, after)
    ensures Matches(sha, CheckpointOf(sha, id, path, before), after)
      <==> !IsArchived(path) && IsPrefix(before.content, after.content)
  {
    if |before.content| <= |after.content| {
      var prefix := after.content[..|before.content|];
      assert SameDigest(sha, prefix, before.content) <==> prefix == before.content;
      if |after.content| == |before.content| {
        assert after.content[..|before.content|] == after.content;
      }
    }
  }

  lemma ArchivesFirst(a: string, o: string)
    requires IsArchived(a) && IsLog(o) && !IsArchived(o)
    ensures LexLess(a, o) && !LexLess(o, a)
  {
    assert a[0] == "archived_sessions/"[0] == 'a';
    assert o[0] == "sessions/"[0] == 's';
  }

  // ------------------------------------------------------------ classification

  /** Findings and flagged checkpoints correspond one to one. */
  lemma FindingsExact(findings: seq<Finding>, sha: string -> string, files: Checkpoints, logs: Home, claims: Claims)
    requires ReportsFlagged(findings, sha, files, logs, claims)
    ensures |findings| == |Flagged(sha, files, logs, claims)| <= |files|
    ensures forall f :: f in findings <==> exists p :: p in files && Verdict(sha, files, logs, claims, p) == Some(f)
  {
    var flagged := Flagged(sha, files, logs, claims);
    var subjects :| Enumerates(subjects, flagged) && ListsFindings(findings, sha, files, logs, claims, subjects);
    EnumerationSize(subjects, flagged);
    Smaller(flagged, files.Keys);
    forall f ensures f in findings <==> exists p :: p in files && Verdict(sha, files, logs, claims, p) == Some(f) {
      if f in findings {
        var i :| 0 <= i < |findings| && findings[i] == f;
        assert Verdict(sha, files, logs, claims, subjects[i]) == Some(f);
      }
      if p :| p in files && Verdict(sha, files, logs, claims, p) == Some(f) {
        assert p in flagged;
        var i :| 0 <= i < |subjects| && subjects[i] == p;
        assert findings[i] == f;
      }
    }
  }

  lemma QuietExact(findings: seq<Finding>, sha: string -> string, files: Checkpoints, logs: Home, claims: Claims)
    requires ReportsFlagged(findings, sha, files, logs, claims)
    ensures findings == [] <==> forall p :: p in files ==> Verdict(sha, files, logs, claims, p).None?
  {
    FindingsExact(findings, sha, files, logs, claims);
    var flagged := Flagged(sha, files, logs, claims);
    if findings == [] {
      forall p | p in files ensures Verdict(sha, files, logs, claims, p).None? {
        assert p !in flagged;
      }
    } else {
      assert findings[0] in findings;
    }
  }

  lemma RebasedExactly(sha: string -> string, draw: string -> string, files: Checkpoints, logs: Home, claims: Claims)
    ensures Reflects(sha, NextFiles(sha, draw, files, logs, claims), logs)
  {
  }

  /** A scan raises one finding per flagged checkpoint, reports "OK" exactly when none is flagged,
      and re-bases its state on exactly the discovered files. */
  lemma Classification(sha: string -> string, draw: string -> string, before: ScanState, home: Home,
                       claims: Claims, after: ScanState, r: Report)
    requires Scanned(sha, draw, before, home, claims, after, r)
    ensures |r.findings| == |Flagged(sha, before.files, Discover(home), claims)| <= |before.files|
    ensures r.status == "OK"
      <==> forall p :: p in before.files ==> Verdict(sha, before.files, Discover(home), claims, p).None?
    ensures Reflects(sha, after.files, Discover(home))
  {
    FindingsExact(r.findings, sha, before.files, Discover(home), claims);
    QuietExact(r.findings, sha, before.files, Discover(home), claims);
    RebasedExactly(sha, draw, before.files, Discover(home), claims);
  }

  lemma {:induction false} EnumerationSize<T(!new)>(xs: seq<T>, s: set<T>)
    requires Enumerates(xs, s)
    ensures |xs| == |s|
  {
    if xs == [] {
      assert s == {};
    } else {
      var x := xs[|xs| - 1];
      assert xs == xs[..|xs| - 1] + [x];
      assert x !in xs[..|xs| - 1];
      EnumerationSize(xs[..|xs| - 1], s - {x});
    }
  }

  lemma {:induction false} Smaller<T>(a: set<T>, b: set<T>)
    requires a <= b
    ensures |a| <= |b|
  {
    if a != {} {
      var x :| x in a;
      Smaller(a - {x}, b - {x});
    }
  }

  lemma VerdictNames(sha: string -> string, files: Checkpoints, logs: Home, claims: Claims, p: string)
    requires p in files && Verdict(sha, files, logs, claims, p).Some?
    ensures var f := Verdict(sha, files, logs, claims, p).value;
      && f.opaqueId == OmitEmpty(files[p].opaqueId)
      && (f.eventType == "LOG_DELETED" <==> p !in logs && p !in claims.Values)
  {
    assert "LOG_DELETED"[4] == 'D' && "LOG_TRUNCATED"[4] == 'T' && "LOG_PREFIX_MODIFIED"[4] == 'P';
    assert "ARCHIVED_LOG_MODIFIED"[0] == 'A';
  }

  /** With distinct identifiers no checkpoint is reported twice, and `LOG_DELETED` is raised for exactly
      the checkpoints whose path is gone and that no archive file claimed. */
  lemma DeletedExactly(sha: string -> string, draw: string -> string, before: ScanState, home: Home,
                       claims: Claims, after: ScanState, r: Report)
    requires Scanned(sha, draw, before, home, claims, after, r) && DistinctIds(before.files)
    ensures forall i, j :: 0 <= i < j < |r.findings| ==> r.findings[i].opaqueId != r.findings[j].opaqueId
    ensures forall p :: p in before.files ==>
      ((exists f ::
          f in r.findings && f.eventType == "LOG_DELETED" && f.opaqueId == OmitEmpty(before.files[p].opaqueId))
        <==> p !in Discover(home) && p !in claims.Values)
  {
    var logs, files := Discover(home), before.files;
    DistinctSubjects(r.findings, sha, files, logs, claims);
    forall p | p in files
      ensures (exists f ::
          f in r.findings && f.eventType == "LOG_DELETED" && f.opaqueId == OmitEmpty(files[p].opaqueId))
        <==> p !in logs && p !in claims.Values
    {
      DeletionReported(r.findings, sha, files, logs, claims, p);
    }
  }

  lemma DeletionReported(findings: seq<Finding>, sha: string -> string, files: Checkpoints, logs: Home,
                         claims: Claims, p: string)
    requires ReportsFlagged(findings, sha, files, logs, claims) && DistinctIds(files) && p in files
    ensures (exists f :: f in findings && f.eventType == "LOG_DELETED" && f.opaqueId == OmitEmpty(files[p].opaqueId))
      <==> p !in logs && p !in claims.Values
  {
    FindingsExact(findings, sha, files, logs, claims);
    if f :| f in findings && f.eventType == "LOG_DELETED" && f.opaqueId == OmitEmpty(files[p].opaqueId) {
      var q :| q in files && Verdict(sha, files, logs, claims, q) == Some(f);
      VerdictNames(sha, files, logs, claims, q);
      assert q == p;
    }
    if p !in logs && p !in claims.Values {
      assert Verdict(sha, files, logs, claims, p) == Some(Deleted(files[p]));
      assert Deleted(files[p]) in findings;
    }
  }

  lemma DistinctSubjects(findings: seq<Finding>, sha: string -> string, files: Checkpoints, logs: Home, claims: Claims)
    requires ReportsFlagged(findings, sha, files, logs, claims) && DistinctIds(files)
    ensures forall i, j :: 0 <= i < j < |findings| ==> findings[i].opaqueId != findings[j].opaqueId
  {
    var subjects :| Enumerates(subjects, Flagged(sha, files, logs, claims))
      && ListsFindings(findings, sha, files, logs, claims, subjects);
    forall i | 0 <= i < |subjects| ensures findings[i].opaqueId == OmitEmpty(files[subjects[i]].opaqueId) {
      VerdictNames(sha, files, logs, claims, subjects[i]);
    }
  }

  // ------------------------------------------------------------ settling

  ghost function Bag(files: Checkpoints, order: seq<string>): multiset<FileMetadata>
    requires forall x :: x in order ==> x in files
  {
    if order == [] then multiset{} else multiset{Metadata(files[order[0]])} + Bag(files, order[1..])
  }

  lemma {:induction false} BagInsert(files: Checkpoints, a: seq<string>, x: string, b: seq<string>)
    requires forall y :: y in a + [x] + b ==> y in files
    requires forall y :: y in a + b ==> y in files
    requires x in files
    ensures Bag(files, a + [x] + b) == Bag(files, a + b) + multiset{Metadata(files[x])}
  {
    if a == [] {
      assert a + [x] + b == [x] + b && a + b == b && ([x] + b)[1..] == b;
    } else {
      assert (a + [x] + b)[1..] == a[1..] + [x] + b && (a + b)[1..] == a[1..] + b;
      BagInsert(files, a[1..], x, b);
    }
  }

  lemma {:induction false} BagOf(metadata: seq<FileMetadata>, files: Checkpoints, order: seq<string>)
    requires ListsMetadata(metadata, files, order)
    requires forall x :: x in order ==> x in files
    ensures multiset(metadata) == Bag(files, order)
  {
    if order != [] {
      BagOf(metadata[1..], files, order[1..]);
      assert metadata == [metadata[0]] + metadata[1..];
    }
  }

  /** Two enumerations of the same checkpoints list the same rows. */
  lemma {:induction false} SameBag(files: Checkpoints, xs: seq<string>, ys: seq<string>, s: set<string>)
    requires Enumerates(xs, s) && Enumerates(ys, s) && s <= files.Keys
    ensures Bag(files, xs) == Bag(files, ys)
  {
    if xs == [] {
      EnumerationSize(xs, s);
      EnumerationSize(ys, s);
    } else {
      var x := xs[0];
      assert x in xs;
      var j :| 0 <= j < |ys| && ys[j] == x;
      Remaining(xs, 0, s);
      Remaining(ys, j, s);
      assert xs[..0] + xs[1..] == xs[1..];
      SameBag(files, xs[1..], ys[..j] + ys[j + 1..], s - {x});
      BagAt(files, ys, j, s);
    }
  }

  lemma BagAt(files: Checkpoints, ys: seq<string>, j: nat, s: set<string>)
    requires Enumerates(ys, s) && s <= files.Keys && j < |ys|
    ensures forall y :: y in ys[..j] + ys[j + 1..] ==> y in files
    ensures Bag(files, ys) == Bag(files, ys[..j] + ys[j + 1..]) + multiset{Metadata(files[ys[j]])}
  {
    assert ys == ys[..j] + [ys[j]] + ys[j + 1..];
    BagInsert(files, ys[..j], ys[j], ys[j + 1..]);
  }

  lemma Remaining(ys: seq<string>, j: nat, s: set<string>)
    requires Enumerates(ys, s) && j < |ys|
    ensures Enumerates(ys[..j] + ys[j + 1..], s - {ys[j]})
  {
    var rest := ys[..j] + ys[j + 1..];
    assert ys == ys[..j] + [ys[j]] + ys[j + 1..];
    forall y ensures y in rest <==> y in s - {ys[j]} {
      assert y in rest <==> y in ys[..j] || y in ys[j + 1..];
      assert y in ys <==> y in rest || y == ys[j];
    }
  }

  lemma SameMetadata(a: seq<FileMetadata>, b: seq<FileMetadata>, files: Checkpoints)
    requires ReportsFiles(a, files) && ReportsFiles(b, files)
    ensures multiset(a) == multiset(b)
  {
    var xs :| Enumerates(xs, files.Keys) && ListsMetadata(a, files, xs);
    var ys :| Enumerates(ys, files.Keys) && ListsMetadata(b, files, ys);
    SameBag(files, xs, ys, files.Keys);
    BagOf(a, files, xs);
    BagOf(b, files, ys);
  }

  lemma InspectSame(sha: string -> string, id: string, p: string, f: File)
    ensures Inspect(sha, CheckpointOf(sha, id, p, f), f).None?
  {
    assert f.content[..|f.content|] == f.content;
  }

  lemma RescanClean(sha: string -> string, draw: string -> string, files: Checkpoints, logs: Home, claims: Claims)
    requires Reflects(sha, files, logs)
    ensures forall p :: p in files ==> Verdict(sha, files, logs, claims, p).None?
    ensures NextFiles(sha, draw, files, logs, claims) == files
  {
    forall p | p in files ensures Verdict(sha, files, logs, claims, p).None? {
      InspectSame(sha, files[p].opaqueId, p, logs[p]);
    }
  }

  /** Scanning the same files again, from whatever state the first scan saved, finds nothing
      and reports the same metadata. */
  lemma Settles(sha: string -> string, home: Home,
                draw: string -> string, before: ScanState, claims: Claims, after: ScanState, r: Report,
                draw': string -> string, claims': Claims, after': ScanState, r': Report)
    requires Scanned(sha, draw, before, home, claims, after, r)
    requires Scanned(sha, draw', after, home, claims', after', r')
    ensures r'.findings == [] && r'.status == "OK"
    ensures after'.files == after.files
    ensures multiset(r'.metadata) == multiset(r.metadata)
  {
    RebasedExactly(sha, draw, before.files, Discover(home), claims);
    RescanClean(sha, draw', after.files, Discover(home), claims');
    QuietExact(r'.findings, sha, after.files, Discover(home), claims');
    SameMetadata(r'.metadata, r.metadata, after.files);
  }

  // ------------------------------------------------------------ lineage

  datatype ScanStep = ScanStep(home: Home, draw: string -> string, claims: Claims, after: ScanState, report: Report)

  function StateBefore(start: ScanState, steps: seq<ScanStep>, i: nat): ScanState
    requires i <= |steps|
  {
    if i == 0 then start else steps[i - 1].after
  }

  /** Consecutive scans, each starting from the state the previous one saved. */
  ghost predicate ScanRun(sha: string -> string, start: ScanState, steps: seq<ScanStep>) {
    forall i :: 0 <= i < |steps| ==> ScannedAt(sha, start, steps, i)
  }

  ghost predicate ScannedAt(sha: string -> string, start: ScanState, steps: seq<ScanStep>, i: nat)
    requires i < |steps|
  {
    var s := steps[i];
    Scanned(sha, s.draw, StateBefore(start, steps, i), s.home, s.claims, s.after, s.report)
  }

  ghost predicate Quiet(steps: seq<ScanStep>) {
    forall i :: 0 <= i < |steps| ==> steps[i].report.findings == []
  }

  /** Where a tracked file is found by the next scan: at its own path or at the archive path that claimed it. */
  ghost function Successor(step: ScanStep, p: string): string {
    if p in Discover(step.home) then p
    else if p in step.claims.Values then (var a :| a in step.claims && step.claims[a] == p; a)
    else p
  }

  /** The facts that lineage needs about one quiet scan of `now`, after one that saw `logs`. */
  ghost predicate QuietStep(sha: string -> string, draw: string -> string, files: Checkpoints, logs: Home,
                            claims: Claims, now: Home, next: Checkpoints)
  {
    && Reflects(sha, files, logs)
    && Possible(sha, files, now, claims)
    && (forall p :: p in files ==> Verdict(sha, files, now, claims, p).None?)
    && next == NextFiles(sha, draw, files, now, claims)
  }

  lemma QuietScan(sha: string -> string, before: ScanState, logs: Home, step: ScanStep)
    requires Reflects(sha, before.files, logs)
    requires Scanned(sha, step.draw, before, step.home, step.claims, step.after, step.report)
    requires step.report.findings == []
    ensures QuietStep(sha, step.draw, before.files, logs, step.claims, Discover(step.home), step.after.files)
  {
    QuietExact(step.report.findings, sha, before.files, Discover(step.home), step.claims);
  }

  lemma StepLineage(sha: string -> string, files: Checkpoints, logs: Home, step: ScanStep, p: string)
    requires CollisionFree(sha) && p in logs
    requires QuietStep(sha, step.draw, files, logs, step.claims, Discover(step.home), step.after.files)
    ensures var q, now := Successor(step, p), Discover(step.home);
      && q in now && IsPrefix(logs[p].content, now[q].content)
      && (q != p ==> !IsArchived(p) && IsArchived(q) && q !in logs)
      && (IsArchived(p) ==> q == p && now[q].content == logs[p].content)
      && q in step.after.files && step.after.files[q].opaqueId == files[p].opaqueId
  {
    var now := Discover(step.home);
    assert Verdict(sha, files, now, step.claims, p).None?;
    if p in now {
      InspectExact(sha, files[p].opaqueId, p, logs[p], now[p]);
    } else {
      var q := Successor(step, p);
      assert GoodClaim(sha, files, now, step.claims, q);
      InspectExact(sha, files[p].opaqueId, p, logs[p], now[q]);
    }
  }

  lemma StepInjective(sha: string -> string, files: Checkpoints, logs: Home, step: ScanStep, p: string, q: string)
    requires CollisionFree(sha) && p in logs && q in logs && p != q
    requires QuietStep(sha, step.draw, files, logs, step.claims, Discover(step.home), step.after.files)
    ensures Successor(step, p) != Successor(step, q)
  {
    StepLineage(sha, files, logs, step, p);
    StepLineage(sha, files, logs, step, q);
    var now := Discover(step.home);
    assert Verdict(sha, files, now, step.claims, p).None? && Verdict(sha, files, now, step.claims, q).None?;
  }

  /** The file that continues `p` from scan `i` to scan `j`. */
  ghost function Trace(steps: seq<ScanStep>, i: nat, j: nat, p: string): string
    requires i <= j < |steps|
    decreases j - i
  {
    if i == j then p else Trace(steps, i + 1, j, Successor(steps[i + 1], p))
  }

  lemma ScanReflects(sha: string -> string, start: ScanState, steps: seq<ScanStep>, i: nat)
    requires ScanRun(sha, start, steps) && i < |steps|
    ensures Reflects(sha, steps[i].after.files, Discover(steps[i].home))
  {
    var s := steps[i];
    assert ScannedAt(sha, start, steps, i);
    RebasedExactly(sha, s.draw, StateBefore(start, steps, i).files, Discover(s.home), s.claims);
  }

  lemma QuietRunStep(sha: string -> string, start: ScanState, steps: seq<ScanStep>, i: nat)
    requires ScanRun(sha, start, steps) && Quiet(steps) && i + 1 < |steps|
    ensures QuietStep(sha, steps[i + 1].draw, steps[i].after.files, Discover(steps[i].home), steps[i + 1].claims,
                      Discover(steps[i + 1].home), steps[i + 1].after.files)
  {
    ScanReflects(sha, start, steps, i);
    assert StateBefore(start, steps, i + 1) == steps[i].after;
    assert ScannedAt(sha, start, steps, i + 1);
    QuietScan(sha, steps[i].after, Discover(steps[i].home), steps[i + 1]);
  }

  /** `q` in scan `j` continues `p` of scan `i`: same identifier, grown content, frozen once archived. */
  ghost predicate Continued(first: Home, known: Checkpoints, p: string, last: Home, now: Checkpoints, q: string)
    requires p in first
  {
    && q in last && IsPrefix(first[p].content, last[q].content)
    && (q == p || (IsArchived(q) && !IsArchived(p)))
    && (IsArchived(p) ==> last[q].content == first[p].content)
    && p in known && q in now && now[q].opaqueId == known[p].opaqueId
  }

  lemma ContinuedTransitive(h0: Home, c0: Checkpoints, p: string, h1: Home, c1: Checkpoints, q: string,
                            h2: Home, c2: Checkpoints, r: string)
    requires p in h0 && Continued(h0, c0, p, h1, c1, q) && Continued(h1, c1, q, h2, c2, r)
    ensures Continued(h0, c0, p, h2, c2, r)
  {
    var a, b, c := h0[p].content, h1[q].content, h2[r].content;
    assert c[..|b|][..|a|] == c[..|a|];
  }

  lemma LineageStart(sha: string -> string, start: ScanState, steps: seq<ScanStep>, i: nat, p: string)
    requires ScanRun(sha, start, steps) && i < |steps| && p in Discover(steps[i].home)
    ensures Continued(Discover(steps[i].home), steps[i].after.files, p, Discover(steps[i].home),
                      steps[i].after.files, p)
  {
    ScanReflects(sha, start, steps, i);
    var content := Discover(steps[i].home)[p].content;
    assert content[..|content|] == content;
  }

  lemma LineageStep(sha: string -> string, start: ScanState, steps: seq<ScanStep>, i: nat, p: string)
    requires CollisionFree(sha) && ScanRun(sha, start, steps) && Quiet(steps) && i + 1 < |steps|
    requires p in Discover(steps[i].home)
    ensures Continued(Discover(steps[i].home), steps[i].after.files, p,
                      Discover(steps[i + 1].home), steps[i + 1].after.files, Successor(steps[i + 1], p))
  {
    QuietRunStep(sha, start, steps, i);
    StepLineage(sha, steps[i].after.files, Discover(steps[i].home), steps[i + 1], p);
  }

  /** Over a run without findings every tracked file lives on: its content only grows, stops changing
      once it is archived, and keeps its identifier. */
  lemma {:induction false} Lineage(sha: string -> string, start: ScanState, steps: seq<ScanStep>, i: nat, j: nat,
                                   p: string)
    requires CollisionFree(sha) && ScanRun(sha, start, steps) && Quiet(steps) && i <= j < |steps|
    requires p in Discover(steps[i].home)
    ensures Continued(Discover(steps[i].home), steps[i].after.files, p,
                      Discover(steps[j].home), steps[j].after.files, Trace(steps, i, j, p))
    decreases j - i
  {
    if i == j {
      LineageStart(sha, start, steps, i, p);
    } else {
      var q := Successor(steps[i + 1], p);
      LineageStep(sha, start, steps, i, p);
      Lineage(sha, start, steps, i + 1, j, q);
      ContinuedTransitive(Discover(steps[i].home), steps[i].after.files, p,
                          Discover(steps[i + 1].home), steps[i + 1].after.files, q,
                          Discover(steps[j].home), steps[j].after.files, Trace(steps, i + 1, j, q));
    }
  }

  lemma MergeStep(sha: string -> string, start: ScanState, steps: seq<ScanStep>, i: nat, p: string, q: string)
    requires CollisionFree(sha) && ScanRun(sha, start, steps) && Quiet(steps) && i + 1 < |steps|
    requires p in Discover(steps[i].home) && q in Discover(steps[i].home) && p != q
    ensures var p', q', now := Successor(steps[i + 1], p), Successor(steps[i + 1], q), Discover(steps[i + 1].home);
      p' in now && q' in now && p' != q'
  {
    QuietRunStep(sha, start, steps, i);
    StepInjective(sha, steps[i].after.files, Discover(steps[i].home), steps[i + 1], p, q);
    StepLineage(sha, steps[i].after.files, Discover(steps[i].home), steps[i + 1], p);
    StepLineage(sha, steps[i].after.files, Discover(steps[i].home), steps[i + 1], q);
  }

  /** Different files never merge into one. */
  lemma {:induction false} LineagesNeverMerge(sha: string -> string, start: ScanState, steps: seq<ScanStep>,
                                              i: nat, j: nat, p: string, q: string)
    requires CollisionFree(sha) && ScanRun(sha, start, steps) && Quiet(steps) && i <= j < |steps|
    requires p in Discover(steps[i].home) && q in Discover(steps[i].home) && p != q
    ensures Trace(steps, i, j, p) != Trace(steps, i, j, q)
    decreases j - i
  {
    if i < j {
      MergeStep(sha, start, steps, i, p, q);
      LineagesNeverMerge(sha, start, steps, i + 1, j, Successor(steps[i + 1], p), Successor(steps[i + 1], q));
    }
  }
}
