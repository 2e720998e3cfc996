/** `ScanIntegrity`: reconciles the saved checkpoints with the log files on disk
    and extends the snapshot chain. */
module IntegrityScan {
  import opened Prelude
  import opened CanonicalJson
  import opened Snapshot

  // ------------------------------------------------------------ files

  datatype File = File(content: string, mtime: int)

  /** Files below the Codex home, by relative path. */
  type Home = map<string, File>

  predicate IsArchived(path: string) { "archived_sessions/" <= path }

  predicate IsActive(path: string) { "sessions/" <= path }

  function Lower(c: char): char {
    if 'A' <= c <= 'Z' then (c as int + 32) as char else c
  }

  function LowerCase(s: string): string {
    seq(|s|, i requires 0 <= i < |s| => Lower(s[i]))
  }

  predicate IsLog(path: string) {
    (IsActive(path) || IsArchived(path)) && |path| >= 6 && LowerCase(path[|path| - 6..]) == ".jsonl"
  }

  /** `discoverLogs`. */
  function Discover(home: Home): Home {
    map p | p in home && IsLog(p) :: home[p]
  }

  // ------------------------------------------------------------ state

  datatype Checkpoint = Checkpoint(opaqueId: string, path: string, size: nat, prefixHash: string,
                                   fullHash: string, archived: bool, mtime: int)

  type Checkpoints = map<string, Checkpoint>

  datatype ScanState = ScanState(stateId: string, scanSequence: nat, lastHash: string, files: Checkpoints)

  datatype Report = Report(filesChecked: nat, status: string, findings: seq<Finding>, metadata: seq<FileMetadata>,
                           stateId: string, scanSequence: nat, previousHash: string, snapshotHash: string)

  const UINT64 := 0x1_0000_0000_0000_0000

  function Next(sequence: nat): nat { (sequence + 1) % UINT64 }

  // ------------------------------------------------------------ one file

  function CheckpointOf(sha: string -> string, id: string, path: string, f: File): Checkpoint {
    var full := sha(f.content);
    Checkpoint(id, path, |f.content|, full, if IsArchived(path) then full else "", IsArchived(path), f.mtime)
  }

  function Flag(kind: string, was: Checkpoint, f: File): Finding {
    Finding(kind, "CRITICAL", OmitEmpty(was.opaqueId), Some(was.size), Some(|f.content|))
  }

  /** The verdict on a checkpoint whose path is still there. */
  function Inspect(sha: string -> string, was: Checkpoint, f: File): Option<Finding> {
    if was.archived then
      if |f.content| != was.size || sha(f.content) != was.fullHash then Some(Flag("ARCHIVED_LOG_MODIFIED", was, f))
      else None
    else if |f.content| < was.size then Some(Flag("LOG_TRUNCATED", was, f))
    else if sha(f.content[..was.size]) != was.prefixHash then Some(Flag("LOG_PREFIX_MODIFIED", was, f))
    else None
  }

  /** A newly seen archive file may be the moved form of an active checkpoint. */
  predicate Matches(sha: string -> string, was: Checkpoint, f: File) {
    !was.archived && |f.content| >= was.size && sha(f.content[..was.size]) == was.prefixHash
  }

  function Deleted(was: Checkpoint): Finding {
    Finding("LOG_DELETED", "CRITICAL", OmitEmpty(was.opaqueId), Some(was.size), None)
  }

  // ------------------------------------------------------------ move matching

  /** Which new archive file was taken for which old path. */
  type Claims = map<string, string>

  predicate Newcomer(files: Checkpoints, logs: Home, a: string) {
    a in logs && a !in files && IsArchived(a)
  }

  /** When archive path `a` is examined, old path `o` is already accounted for. */
  ghost predicate Taken(files: Checkpoints, logs: Home, claims: Claims, a: string, o: string) {
    || (o in files && o in logs && LexLess(o, a))
    || (exists b :: b in claims && LexLess(b, a) && claims[b] == o)
  }

  ghost predicate GoodClaim(sha: string -> string, files: Checkpoints, logs: Home, claims: Claims, a: string)
    requires a in claims
  {
    var o := claims[a];
    Newcomer(files, logs, a) && o in files && Matches(sha, files[o], logs[a]) && !Taken(files, logs, claims, a, o)
  }

  /** Nothing that `a` matches was still free when `a` was examined. */
  ghost predicate Unmatched(sha: string -> string, files: Checkpoints, logs: Home, claims: Claims, a: string)
    requires a in logs
  {
    forall o :: o in files && Matches(sha, files[o], logs[a]) ==> Taken(files, logs, claims, a, o)
  }

  /** The outcomes that the move search can have for the archive paths in `seen`, over every
      iteration order of the checkpoint map: each newcomer, in path order, takes some free match
      and goes without one only if no match is free. */
  ghost predicate PossibleUpTo(sha: string -> string, files: Checkpoints, logs: Home, claims: Claims,
                               seen: set<string>) {
    && (forall a :: a in claims ==> a in seen && GoodClaim(sha, files, logs, claims, a))
    && (forall a :: a in seen && Newcomer(files, logs, a) && a !in claims ==> Unmatched(sha, files, logs, claims, a))
  }

  ghost predicate Possible(sha: string -> string, files: Checkpoints, logs: Home, claims: Claims) {
    PossibleUpTo(sha, files, logs, claims, logs.Keys)
  }

  // ------------------------------------------------------------ the result of a scan

  /** Each checkpoint gets at most one finding. */
  ghost function Verdict(sha: string -> string, files: Checkpoints, logs: Home, claims: Claims,
                         p: string): Option<Finding>
    requires p in files
  {
    if p in logs then Inspect(sha, files[p], logs[p])
    else if p in claims.Values then None
    else Some(Deleted(files[p]))
  }

  ghost function Flagged(sha: string -> string, files: Checkpoints, logs: Home, claims: Claims): set<string> {
    set p | p in files && Verdict(sha, files, logs, claims, p).Some?
  }

  /** The identifier a path keeps, inherits or, as a new file, draws at random. */
  function IdOf(files: Checkpoints, claims: Claims, draw: string -> string, p: string): string {
    if p in files then files[p].opaqueId
    else if p in claims && claims[p] in files then files[claims[p]].opaqueId
    else draw(p)
  }

  function NextFiles(sha: string -> string, draw: string -> string, files: Checkpoints, logs: Home,
                     claims: Claims): Checkpoints {
    map p | p in logs :: CheckpointOf(sha, IdOf(files, claims, draw, p), p, logs[p])
  }

  function Metadata(c: Checkpoint): FileMetadata {
    FileMetadata(c.opaqueId, c.size, c.size, c.prefixHash, OmitEmpty(c.fullHash), c.archived, c.mtime)
  }

  ghost predicate ListsFindings(findings: seq<Finding>, sha: string -> string, files: Checkpoints, logs: Home,
                                claims: Claims, subjects: seq<string>)
  {
    && |findings| == |subjects|
    && forall i :: 0 <= i < |subjects| ==>
         subjects[i] in files && Verdict(sha, files, logs, claims, subjects[i]) == Some(findings[i])
  }

  ghost predicate ListsMetadata(metadata: seq<FileMetadata>, files: Checkpoints, order: seq<string>) {
    && |metadata| == |order|
    && forall i :: 0 <= i < |order| ==> order[i] in files && metadata[i] == Metadata(files[order[i]])
  }

  ghost predicate SortedById(metadata: seq<FileMetadata>) {
    forall i, j :: 0 <= i < j < |metadata| ==> LexLeq(metadata[i].opaqueId, metadata[j].opaqueId)
  }

  /** One finding for each flagged checkpoint, in some order. */
  ghost predicate ReportsFlagged(findings: seq<Finding>, sha: string -> string, files: Checkpoints, logs: Home,
                                 claims: Claims) {
    exists subjects ::
      Enumerates(subjects, Flagged(sha, files, logs, claims))
        && ListsFindings(findings, sha, files, logs, claims, subjects)
  }

  /** One row for each checkpoint, in some order. */
  ghost predicate ReportsFiles(metadata: seq<FileMetadata>, files: Checkpoints) {
    exists order :: Enumerates(order, files.Keys) && ListsMetadata(metadata, files, order)
  }

  function Fresh(stateId: string): ScanState { ScanState(stateId, 0, "", map[]) }

  /** `loadIntegrityState`: a missing file or a missing identifier draws a new one. */
  function Load(saved: Option<ScanState>, drawn: string): ScanState {
    match saved
    case None => Fresh(drawn)
    case Some(s) => if s.stateId == "" then s.(stateId := drawn) else s
  }

  function LinkOf(r: Report): Link {
    Link(r.stateId, r.scanSequence, r.previousHash, r.metadata, r.findings)
  }

  /** `before` and `home` lead to `after` and report `r` when the moves are `claims`. */
  ghost predicate Scanned(sha: string -> string, draw: string -> string, before: ScanState, home: Home,
                          claims: Claims, after: ScanState, r: Report)
  {
    var logs := Discover(home);
    && Possible(sha, before.files, logs, claims)
    && after == ScanState(before.stateId, Next(before.scanSequence), r.snapshotHash,
                          NextFiles(sha, draw, before.files, logs, claims))
    && ReportsFlagged(r.findings, sha, before.files, logs, claims)
    && ReportsFiles(r.metadata, after.files)
    && SortedById(r.metadata)
    && r.filesChecked == |logs|
    && r.status == (if r.findings == [] then "OK" else "TAMPER")
    && r.stateId == before.stateId && r.scanSequence == Next(before.scanSequence) && r.previousHash == before.lastHash
    && r.snapshotHash == LinkHash(sha, Go, LinkOf(r))
  }

  // ------------------------------------------------------------ the scanner

  /** The inner loop over the old checkpoints: the first free match in iteration order. */
  method FindMove(sha: string -> string, files: Checkpoints, used: set<string>, f: File) returns (found: Option<string>)
    ensures found.Some? ==> found.value in files && found.value !in used && Matches(sha, files[found.value], f)
    ensures found.None? ==> forall o :: o in files && Matches(sha, files[o], f) ==> o in used
  {
    var order := Shuffle(files);
    for i := 0 to |order|
      invariant forall k :: 0 <= k < i && Matches(sha, files[order[k]], f) ==> order[k] in used
    {
      var was := files[order[i]];
      if order[i] in used || was.archived || |f.content| < was.size { continue; }
      if sha(f.content[..was.size]) == was.prefixHash { return Some(order[i]); }
    }
    forall o | o in files && Matches(sha, files[o], f) ensures o in used {
      assert o in order;
    }
    return None;
  }

  lemma TakenIsUsed(files: Checkpoints, logs: Home, claims: Claims, keys: seq<string>, i: nat, o: string)
    requires Ascending(keys) && (forall k :: k in keys <==> k in logs) && i < |keys|
    requires forall a :: a in claims ==> a in keys[..i]
    ensures Taken(files, logs, claims, keys[i], o)
      <==> (o in files && o in keys[..i]) || o in claims.Values
  {
    Earlier(keys, i);
    if o in claims.Values {
      var b :| b in claims && claims[b] == o;
      assert LexLess(b, keys[i]);
    }
  }

  /** In an ascending enumeration, the keys before position `i` are the smaller ones. */
  lemma Earlier(keys: seq<string>, i: nat)
    requires Ascending(keys) && i < |keys|
    ensures forall k :: k in keys ==> (k in keys[..i] <==> LexLess(k, keys[i]))
  {
    forall k | k in keys ensures k in keys[..i] <==> LexLess(k, keys[i]) {
      var j :| 0 <= j < |keys| && keys[j] == k;
      if j < i {
        assert keys[..i][j] == k;
      } else {
        assert forall h :: 0 <= h < i ==> keys[..i][h] != k;
        if j > i && LexLess(k, keys[i]) { LexAntisymmetric(k, keys[i]); }
      }
    }
  }

  function SeenKeys(keys: seq<string>): set<string> { set k | k in keys }

  lemma SeenNext(keys: seq<string>, i: nat)
    requires Ascending(keys) && i < |keys|
    ensures SeenKeys(keys[..i + 1]) == SeenKeys(keys[..i]) + {keys[i]}
    ensures keys[i] !in SeenKeys(keys[..i])
  {
    assert keys[..i + 1] == keys[..i] + [keys[i]];
  }

  /** Extending the move search by one path that claims nothing. */
  lemma StayPossible(sha: string -> string, files: Checkpoints, logs: Home, claims: Claims, keys: seq<string>, i: nat)
    requires Ascending(keys) && (forall k :: k in keys <==> k in logs) && i < |keys|
    requires PossibleUpTo(sha, files, logs, claims, SeenKeys(keys[..i]))
    requires Newcomer(files, logs, keys[i]) ==> Unmatched(sha, files, logs, claims, keys[i])
    ensures PossibleUpTo(sha, files, logs, claims, SeenKeys(keys[..i + 1]))
  {
    SeenNext(keys, i);
  }

  /** Extending the move search by one path that takes a free match. */
  lemma ClaimPossible(sha: string -> string, files: Checkpoints, logs: Home, claims: Claims, keys: seq<string>,
                      i: nat, o: string)
    requires Ascending(keys) && (forall k :: k in keys <==> k in logs) && i < |keys|
    requires PossibleUpTo(sha, files, logs, claims, SeenKeys(keys[..i]))
    requires Newcomer(files, logs, keys[i]) && o in files && Matches(sha, files[o], logs[keys[i]])
    requires !Taken(files, logs, claims, keys[i], o)
    ensures PossibleUpTo(sha, files, logs, claims[keys[i] := o], SeenKeys(keys[..i + 1]))
  {
    SeenNext(keys, i);
    Earlier(keys, i);
    var a, wider := keys[i], claims[keys[i] := o];
    assert a !in claims;
    forall b, q | b in keys && !LexLess(a, b)
      ensures Taken(files, logs, wider, b, q) <==> Taken(files, logs, claims, b, q)
    {
    }
    forall b | b in claims ensures GoodClaim(sha, files, logs, wider, b) {
      assert GoodClaim(sha, files, logs, claims, b);
      assert LexLess(b, a);
      if LexLess(a, b) { LexAntisymmetric(a, b); }
    }
    assert GoodClaim(sha, files, logs, wider, a);
    forall b | b in SeenKeys(keys[..i]) && Newcomer(files, logs, b) && b !in wider
      ensures Unmatched(sha, files, logs, wider, b)
    {
      assert LexLess(b, a);
      if LexLess(a, b) { LexAntisymmetric(a, b); }
      assert Unmatched(sha, files, logs, claims, b);
    }
  }

  /** Checkpoints that are flagged at their own path. */
  ghost function Direct(sha: string -> string, files: Checkpoints, logs: Home): set<string> {
    set p | p in files && p in logs && Inspect(sha, files[p], logs[p]).Some?
  }

  /** `findings` lists what was flagged among the paths in `done`, one finding per subject. */
  ghost predicate FoundUpTo(findings: seq<Finding>, subjects: seq<string>,
                            sha: string -> string, files: Checkpoints, logs: Home, done: set<string>)
  {
    && Enumerates(subjects, Direct(sha, files, logs) * done)
    && |findings| == |subjects|
    && forall k :: 0 <= k < |subjects| ==>
         subjects[k] in files && subjects[k] in logs
           && Inspect(sha, files[subjects[k]], logs[subjects[k]]) == Some(findings[k])
  }

  lemma FoundNext(findings: seq<Finding>, subjects: seq<string>, sha: string -> string, files: Checkpoints, logs: Home,
                  done: set<string>, p: string, after: set<string>)
    requires FoundUpTo(findings, subjects, sha, files, logs, done) && p !in done && p in logs && after == done + {p}
    ensures p in Direct(sha, files, logs) ==>
      FoundUpTo(findings + [Inspect(sha, files[p], logs[p]).value], subjects + [p], sha, files, logs, after)
    ensures p !in Direct(sha, files, logs) ==> FoundUpTo(findings, subjects, sha, files, logs, after)
  {
    assert p !in subjects;
  }

  /** `next` holds the new checkpoint of every path in `done`. */
  ghost predicate RebasedUpTo(next: Checkpoints, sha: string -> string, draw: string -> string, files: Checkpoints,
                              logs: Home, claims: Claims, done: set<string>)
  {
    && next.Keys == done
    && forall p :: p in done && p in logs ==> next[p] == CheckpointOf(sha, IdOf(files, claims, draw, p), p, logs[p])
  }

  lemma RebasedNext(next: Checkpoints, sha: string -> string, draw: string -> string, files: Checkpoints,
                    logs: Home, claims: Claims, found: Option<string>, done: set<string>, p: string, id: string,
                    after: set<string>)
    requires RebasedUpTo(next, sha, draw, files, logs, claims, done) && p !in done && p in logs && after == done + {p}
    requires id == IdOf(files, Claiming(claims, p, found), draw, p)
    ensures RebasedUpTo(next[p := CheckpointOf(sha, id, p, logs[p])],
                        sha, draw, files, logs, Claiming(claims, p, found), after)
  {
    var wider := Claiming(claims, p, found);
    forall q | q in done ensures IdOf(files, wider, draw, q) == IdOf(files, claims, draw, q) {
    }
  }

  lemma ValuesOfUpdate(claims: Claims, p: string, o: string)
    requires p !in claims
    ensures claims[p := o].Values == claims.Values + {o}
  {
    var wider := claims[p := o];
    forall x | x in claims.Values + {o} ensures x in wider.Values {
      if x == o {
        assert wider[p] == o;
      } else {
        var q :| q in claims && claims[q] == x;
        assert wider[q] == x;
      }
    }
  }

  function Claiming(claims: Claims, p: string, found: Option<string>): Claims {
    if found.Some? then claims[p := found.value] else claims
  }

  /** A path that already has a checkpoint. */
  method InspectPath(sha: string -> string, files: Checkpoints, logs: Home, ghost done: set<string>,
                     ghost after: set<string>, p: string, found: seq<Finding>, ghost about: seq<string>)
      returns (findings: seq<Finding>, ghost subjects: seq<string>)
    requires FoundUpTo(found, about, sha, files, logs, done) && p !in done && p in logs && p in files
    requires after == done + {p}
    ensures FoundUpTo(findings, subjects, sha, files, logs, after)
  {
    FoundNext(found, about, sha, files, logs, done, p, after);
    findings, subjects := found, about;
    var verdict := Inspect(sha, files[p], logs[p]);
    if verdict.Some? {
      findings, subjects := findings + [verdict.value], subjects + [p];
    }
  }

  /** The move search for one path: an existing checkpoint needs none. */
  method SearchMove(sha: string -> string, files: Checkpoints, logs: Home, used: set<string>,
                    ghost claims: Claims, ghost keys: seq<string>, ghost i: nat, p: string)
      returns (found: Option<string>)
    requires Ascending(keys) && (forall k :: k in keys <==> k in logs) && i < |keys| && p == keys[i] && p !in files
    requires PossibleUpTo(sha, files, logs, claims, SeenKeys(keys[..i]))
    requires used == files.Keys * SeenKeys(keys[..i]) + claims.Values
    ensures p !in claims && (found.Some? ==> found.value in files)
    ensures PossibleUpTo(sha, files, logs, Claiming(claims, p, found), SeenKeys(keys[..i + 1]))
    ensures Claiming(claims, p, found).Values == claims.Values + (if found.Some? then {found.value} else {})
  {
    assert p !in claims by { Earlier(keys, i); }

    forall o ensures Taken(files, logs, claims, p, o) <==> o in used {
      TakenIsUsed(files, logs, claims, keys, i, o);
    }
    found := None;
    if IsArchived(p) { found := FindMove(sha, files, used, logs[p]); }
    if found.Some? {
      ClaimPossible(sha, files, logs, claims, keys, i, found.value);
      ValuesOfUpdate(claims, p, found.value);
    } else {
      StayPossible(sha, files, logs, claims, keys, i);
    }
  }

  lemma IdFound(files: Checkpoints, claims: Claims, draw: string -> string, p: string, found: Option<string>)
    requires p !in files && p !in claims && (found.Some? ==> found.value in files)
    ensures IdOf(files, Claiming(claims, p, found), draw, p)
      == if found.Some? then files[found.value].opaqueId else draw(p)
  {
  }

  /** The mutable variables of the first pass. */
  datatype Pass = Pass(findings: seq<Finding>, next: Checkpoints, used: set<string>)

  ghost predicate PassUpTo(pass: Pass, sha: string -> string, draw: string -> string, files: Checkpoints, logs: Home,
                           claims: Claims, subjects: seq<string>, done: set<string>)
  {
    && PossibleUpTo(sha, files, logs, claims, done)
    && RebasedUpTo(pass.next, sha, draw, files, logs, claims, done)
    && pass.used == files.Keys * done + claims.Values
    && FoundUpTo(pass.findings, subjects, sha, files, logs, done)
  }

  method PassExisting(sha: string -> string, draw: string -> string, files: Checkpoints, logs: Home, pass: Pass,
                      ghost claims: Claims, ghost about: seq<string>, ghost keys: seq<string>, ghost i: nat, p: string)
      returns (after: Pass, ghost subjects: seq<string>)
    requires Ascending(keys) && (forall k :: k in keys <==> k in logs) && i < |keys| && p == keys[i] && p in files
    requires PassUpTo(pass, sha, draw, files, logs, claims, about, SeenKeys(keys[..i]))
    ensures PassUpTo(after, sha, draw, files, logs, claims, subjects, SeenKeys(keys[..i + 1]))
  {
    ghost var done := SeenKeys(keys[..i]);
    SeenNext(keys, i);
    var findings;
    findings, subjects := InspectPath(sha, files, logs, done, SeenKeys(keys[..i + 1]), p, pass.findings, about);
    StayPossible(sha, files, logs, claims, keys, i);
    RebasedNext(pass.next, sha, draw, files, logs, claims, None, done, p, files[p].opaqueId, SeenKeys(keys[..i + 1]));
    after := Pass(findings, pass.next[p := CheckpointOf(sha, files[p].opaqueId, p, logs[p])], pass.used + {p});
  }

  lemma UsedNext(files: Checkpoints, done: set<string>, p: string, after: set<string>,
                 used: set<string>, values: set<string>, more: set<string>)
    requires used == files.Keys * done + values && after == done + {p} && p !in files
    ensures used + more == files.Keys * after + (values + more)
  {
  }

  method PassNew(sha: string -> string, draw: string -> string, files: Checkpoints, logs: Home, pass: Pass,
                 ghost before: Claims, ghost about: seq<string>, ghost keys: seq<string>, ghost i: nat, p: string)
      returns (after: Pass, ghost claims: Claims)
    requires Ascending(keys) && (forall k :: k in keys <==> k in logs) && i < |keys| && p == keys[i] && p !in files
    requires PassUpTo(pass, sha, draw, files, logs, before, about, SeenKeys(keys[..i]))
    ensures PassUpTo(after, sha, draw, files, logs, claims, about, SeenKeys(keys[..i + 1]))
  {
    ghost var done, seen := SeenKeys(keys[..i]), SeenKeys(keys[..i + 1]);
    SeenNext(keys, i);
    FoundNext(pass.findings, about, sha, files, logs, done, p, seen);
    var found := SearchMove(sha, files, logs, pass.used, before, keys, i, p);
    claims := Claiming(before, p, found);
    var id, used := draw(p), pass.used;
    if found.Some? {
      used := used + {found.value};
      id := files[found.value].opaqueId;
    }
    IdFound(files, before, draw, p, found);
    RebasedNext(pass.next, sha, draw, files, logs, before, found, done, p, id, seen);
    UsedNext(files, done, p, seen, pass.used, before.Values, if found.Some? then {found.value} else {});
    after := Pass(pass.findings, pass.next[p := CheckpointOf(sha, id, p, logs[p])], used);
  }

  /** The loop over the discovered paths in ascending order. */
  method Reconcile(sha: string -> string, draw: string -> string, files: Checkpoints, logs: Home)
      returns (pass: Pass, ghost claims: Claims, ghost subjects: seq<string>)
    ensures PassUpTo(pass, sha, draw, files, logs, claims, subjects, logs.Keys)
  {
    var keys := Shuffle(logs);
    keys := SortStrings(keys);
    pass, claims, subjects := Pass([], map[], {}), map[], [];
    for i := 0 to |keys|
      invariant PassUpTo(pass, sha, draw, files, logs, claims, subjects, SeenKeys(keys[..i]))
    {
      if keys[i] in files {
        pass, subjects := PassExisting(sha, draw, files, logs, pass, claims, subjects, keys, i, keys[i]);
      } else {
        pass, claims := PassNew(sha, draw, files, logs, pass, claims, subjects, keys, i, keys[i]);
      }
    }
    assert keys[..|keys|] == keys && SeenKeys(keys) == logs.Keys;
  }

  // ------------------------------------------------------------ the second pass and the report

  /** Checkpoints whose file vanished without a matching archive file. */
  ghost function Gone(files: Checkpoints, logs: Home, claims: Claims): set<string> {
    set p | p in files && p !in logs && p !in claims.Values
  }

  method ListDeleted(files: Checkpoints, logs: Home, used: set<string>, ghost claims: Claims)
      returns (findings: seq<Finding>, ghost subjects: seq<string>)
    requires used == files.Keys * logs.Keys + claims.Values
    ensures Enumerates(subjects, Gone(files, logs, claims))
    ensures |findings| == |subjects|
    ensures forall i :: 0 <= i < |subjects| ==> subjects[i] in files && findings[i] == Deleted(files[subjects[i]])
  {
    var order := Shuffle(files);
    findings, subjects := [], [];
    for i := 0 to |order|
      invariant Enumerates(subjects, Gone(files, logs, claims) * SeenKeys(order[..i]))
      invariant |findings| == |subjects|
      invariant forall k :: 0 <= k < |subjects| ==> subjects[k] in files && findings[k] == Deleted(files[subjects[k]])
    {
      var p := order[i];
      assert order[..i + 1] == order[..i] + [p];
      assert p !in order[..i];
      assert p !in subjects;
      if p in used { continue; }
      if p in logs { continue; }
      findings, subjects := findings + [Deleted(files[p])], subjects + [p];
    }
    assert order[..|order|] == order && SeenKeys(order) == files.Keys;
    assert Gone(files, logs, claims) * files.Keys == Gone(files, logs, claims);
  }

  /** The direct findings and the deletions together cover the flagged checkpoints. */
  lemma JoinFindings(sha: string -> string, files: Checkpoints, logs: Home, claims: Claims,
                     direct: seq<Finding>, seen: seq<string>, deleted: seq<Finding>, gone: seq<string>)
    requires FoundUpTo(direct, seen, sha, files, logs, logs.Keys)
    requires Enumerates(gone, Gone(files, logs, claims)) && |deleted| == |gone|
    requires forall i :: 0 <= i < |gone| ==> gone[i] in files && deleted[i] == Deleted(files[gone[i]])
    ensures Enumerates(seen + gone, Flagged(sha, files, logs, claims))
    ensures ListsFindings(direct + deleted, sha, files, logs, claims, seen + gone)
  {
    var all := seen + gone;
    forall p ensures p in all <==> p in Flagged(sha, files, logs, claims) {
      assert p in all <==> p in seen || p in gone;
    }
    forall i | 0 <= i < |gone| ensures gone[i] in Gone(files, logs, claims) {
      assert gone[i] in gone;
    }
    forall i | 0 <= i < |seen| ensures seen[i] in logs {
      assert seen[i] in seen;
    }
  }

  method ListMetadata(next: Checkpoints) returns (metadata: seq<FileMetadata>, ghost order: seq<string>)
    ensures Enumerates(order, next.Keys)
    ensures ListsMetadata(metadata, next, order)
    ensures SortedById(metadata)
  {
    var keys := Shuffle(next);
    metadata, order := [], [];
    for i := 0 to |keys|
      invariant Enumerates(order, SeenKeys(keys[..i]))
      invariant ListsMetadata(metadata, next, order)
      invariant SortedById(metadata)
    {
      var m := Metadata(next[keys[i]]);
      assert keys[..i + 1] == keys[..i] + [keys[i]];
      assert keys[i] !in keys[..i];
      var at := InsertionPoint(metadata, m.opaqueId);
      InsertSorted(metadata, at, m);
      InsertListed(metadata, order, next, at, keys[i]);
      InsertDistinct(order, at, keys[i], order[..at] + [keys[i]] + order[at..]);
      metadata, order := metadata[..at] + [m] + metadata[at..], order[..at] + [keys[i]] + order[at..];
    }
    assert keys[..|keys|] == keys && SeenKeys(keys) == next.Keys;
  }

  method InsertionPoint(metadata: seq<FileMetadata>, id: string) returns (at: nat)
    requires SortedById(metadata)
    ensures at <= |metadata|
    ensures forall k :: 0 <= k < at ==> LexLeq(metadata[k].opaqueId, id)
    ensures forall k :: at <= k < |metadata| ==> LexLeq(id, metadata[k].opaqueId)
  {
    at := 0;
    while at < |metadata| && LexLeq(metadata[at].opaqueId, id)
      invariant 0 <= at <= |metadata|
      invariant forall k :: 0 <= k < at ==> LexLeq(metadata[k].opaqueId, id)
    {
      at := at + 1;
    }
    forall k | at <= k < |metadata| ensures LexLeq(id, metadata[k].opaqueId) {
      LexTotal(id, metadata[at].opaqueId);
      if k > at { LexTransitive(id, metadata[at].opaqueId, metadata[k].opaqueId); }
    }
  }

  lemma InsertDistinct(order: seq<string>, at: nat, p: string, o: seq<string>)
    requires at <= |order| && o == order[..at] + [p] + order[at..] && p !in order
    requires forall i, j :: 0 <= i < j < |order| ==> order[i] != order[j]
    ensures forall i, j :: 0 <= i < j < |o| ==> o[i] != o[j]
    ensures forall x :: x in o <==> x in order || x == p
  {
    forall x ensures x in o <==> x in order || x == p {
      assert order == order[..at] + order[at..];
      assert x in o <==> x in order[..at] || x == p || x in order[at..];
    }
    forall i, j | 0 <= i < j < |o| ensures o[i] != o[j] {
      var before, after := if i < at then i else i - 1, if j < at then j else j - 1;
      assert (i == at || o[i] == order[before]) && (j == at || o[j] == order[after]);
    }
  }

  lemma InsertSorted(metadata: seq<FileMetadata>, at: nat, m: FileMetadata)
    requires SortedById(metadata) && at <= |metadata|
    requires forall k :: 0 <= k < at ==> LexLeq(metadata[k].opaqueId, m.opaqueId)
    requires forall k :: at <= k < |metadata| ==> LexLeq(m.opaqueId, metadata[k].opaqueId)
    ensures SortedById(metadata[..at] + [m] + metadata[at..])
  {
  }

  lemma InsertListed(metadata: seq<FileMetadata>, order: seq<string>, next: Checkpoints, at: nat, p: string)
    requires ListsMetadata(metadata, next, order) && at <= |metadata| && p in next
    ensures ListsMetadata(metadata[..at] + [Metadata(next[p])] + metadata[at..], next,
                          order[..at] + [p] + order[at..])
  {
  }

  method HashLink(sha: string -> string, k: Link) returns (hash: string)
    ensures hash == LinkHash(sha, Go, k)
  {
    var out := new Buffer(Go);
    WriteCanonical(out, LinkJson(k));
    assert out.data == Encode(Go, LinkJson(k));
    hash := sha(out.data);
  }

  /** Both passes over the checkpoints. */
  method Compare(sha: string -> string, draw: string -> string, files: Checkpoints, logs: Home)
      returns (findings: seq<Finding>, next: Checkpoints, ghost claims: Claims, ghost subjects: seq<string>)
    ensures Possible(sha, files, logs, claims)
    ensures next == NextFiles(sha, draw, files, logs, claims)
    ensures Enumerates(subjects, Flagged(sha, files, logs, claims))
    ensures ListsFindings(findings, sha, files, logs, claims, subjects)
  {
    var pass; ghost var seen;
    pass, claims, seen := Reconcile(sha, draw, files, logs);
    ghost var gone;
    var deleted;
    deleted, gone := ListDeleted(files, logs, pass.used, claims);
    JoinFindings(sha, files, logs, claims, pass.findings, seen, deleted, gone);
    findings, next, subjects := pass.findings + deleted, pass.next, seen + gone;
  }

  /** The state file of one agent. */
  class IntegrityStore {
    const sha: string -> string
    var saved: Option<ScanState>

    constructor (sha: string -> string)
      ensures this.sha == sha && saved == None
    {
      this.sha := sha;
      saved := None;
    }

    /** `drawn` and `draw` are the identifiers that `opaqueID` returns for the state and for each path. */
    method Scan(home: Home, drawn: string, draw: string -> string) returns (r: Report, ghost claims: Claims)
      modifies this
      ensures saved.Some? && Scanned(sha, draw, Load(old(saved), drawn), home, claims, saved.value, r)
    {
      var state := Load(saved, drawn);
      var findings, next; ghost var subjects;
      findings, next, claims, subjects := Compare(sha, draw, state.files, Discover(home));
      var metadata; ghost var order;
      metadata, order := ListMetadata(next);
      var status := if |findings| > 0 then "TAMPER" else "OK";
      var link := Link(state.stateId, Next(state.scanSequence), state.lastHash, metadata, findings);
      var hash := HashLink(sha, link);
      saved := Some(ScanState(state.stateId, link.sequence, hash, next));
      assert next.Keys == Discover(home).Keys;
      r := Report(|next|, status, findings, metadata, state.stateId, link.sequence, state.lastHash, hash);
      assert LinkOf(r) == link;
    }
  }
}
