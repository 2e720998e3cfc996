/** An honest agent never disturbs the audit: whatever its scans find, the reports of an unbroken run
    pass the schema and link up in the server's own digest. */
module HonestChain {
  import opened Prelude
  import opened CanonicalJson
  import opened CanonicalTheorems
  import opened SignedMessage
  import opened Snapshot
  import opened IntegrityScan
  import opened ScanTheorems
  import opened Server
  import opened ServerSafety
  import opened SnapshotChain

  /** The integrity payload as the server decodes it. */
  function ReportBody(r: Report): IntegrityBody {
    IntegrityBody(r.filesChecked, r.status, r.findings, r.metadata,
                  Some(r.stateId), Some(r.scanSequence), OmitEmpty(r.previousHash), Some(r.snapshotHash))
  }

  predicate HexOrEmpty(s: string) { s == "" || IsHex(s) }

  predicate HexCheckpoint(c: Checkpoint) {
    IsStateId(c.opaqueId) && IsHex(c.prefixHash) && HexOrEmpty(c.fullHash) && ExactNumber(c.size)
      && ExactNumber(c.mtime)
  }

  ghost predicate HexFiles(files: Checkpoints) {
    forall p :: p in files ==> HexCheckpoint(files[p])
  }

  /** What `opaqueID` and the digest leave in the state file. */
  ghost predicate HexState(s: ScanState) {
    IsStateId(s.stateId) && HexOrEmpty(s.lastHash) && HexFiles(s.files)
  }

  predicate ExactFile(f: File) { ExactNumber(|f.content|) && ExactNumber(f.mtime) }

  /** Sizes and times below 2^53 and identifiers drawn by `opaqueID`. */
  ghost predicate Ordinary(draw: string -> string, home: Home) {
    && (forall p :: p in home ==> ExactFile(home[p]))
    && (forall p {:trigger IsStateId(draw(p))} :: IsStateId(draw(p)))
  }

  lemma HexPlain(s: string)
    requires HexOrEmpty(s)
    ensures PlainText(s)
  {
  }

  lemma RebasedHex(sha: string -> string, draw: string -> string, files: Checkpoints, home: Home, claims: Claims)
    requires HexOutput(sha) && HexFiles(files) && Ordinary(draw, home)
    ensures HexFiles(NextFiles(sha, draw, files, Discover(home), claims))
  {
    var logs := Discover(home);
    var next := NextFiles(sha, draw, files, logs, claims);
    forall p | p in next ensures HexCheckpoint(next[p]) {
      assert ExactFile(home[p]) && IsHex(sha(home[p].content));
      var id := IdOf(files, claims, draw, p);
      assert IsStateId(id) by {
        if p in files {
          assert HexCheckpoint(files[p]);
        } else if p in claims && claims[p] in files {
          assert HexCheckpoint(files[claims[p]]);
        } else {
          assert IsStateId(draw(p));
        }
      }
    }
  }

  lemma RowPlain(c: Checkpoint)
    requires HexCheckpoint(c)
    ensures PlainFile(Metadata(c)) && FileSchema(Metadata(c))
  {
    HexPlain(c.opaqueId);
    HexPlain(c.prefixHash);
    HexPlain(c.fullHash);
  }

  ghost predicate PlainRows(metadata: seq<FileMetadata>) {
    forall m :: m in metadata ==> PlainFile(m)
  }

  ghost predicate ValidRows(metadata: seq<FileMetadata>) {
    forall i :: 0 <= i < |metadata| ==> FileSchema(metadata[i])
  }

  ghost predicate PlainFindings(findings: seq<Finding>) {
    forall f :: f in findings ==> PlainFinding(f)
  }

  ghost predicate ValidFindings(findings: seq<Finding>) {
    forall i :: 0 <= i < |findings| ==> FindingSchema(findings[i])
  }

  lemma RowsPlain(metadata: seq<FileMetadata>, files: Checkpoints, order: seq<string>)
    requires ListsMetadata(metadata, files, order) && HexFiles(files)
    ensures forall i :: 0 <= i < |metadata| ==> PlainFile(metadata[i]) && FileSchema(metadata[i])
  {
    forall i | 0 <= i < |metadata| ensures PlainFile(metadata[i]) && FileSchema(metadata[i]) {
      assert metadata[i] == Metadata(files[order[i]]) && HexCheckpoint(files[order[i]]);
      RowPlain(files[order[i]]);
    }
  }

  lemma MetadataPlain(metadata: seq<FileMetadata>, files: Checkpoints)
    requires ReportsFiles(metadata, files) && HexFiles(files)
    ensures |metadata| == |files| && PlainRows(metadata) && ValidRows(metadata)
  {
    var order :| Enumerates(order, files.Keys) && ListsMetadata(metadata, files, order);
    EnumerationSize(order, files.Keys);
    RowsPlain(metadata, files, order);
  }

  predicate ScanKind(kind: string) {
    kind == "ARCHIVED_LOG_MODIFIED" || kind == "LOG_TRUNCATED" || kind == "LOG_PREFIX_MODIFIED" || kind == "LOG_DELETED"
  }

  lemma KindPlain(kind: string)
    requires ScanKind(kind)
    ensures PlainText(kind) && PlainText("CRITICAL")
  {
  }

  lemma FindingPlain(f: Finding)
    requires ScanKind(f.eventType) && f.severity == "CRITICAL" && (f.opaqueId.Some? ==> IsStateId(f.opaqueId.value))
    requires (f.oldSize.Some? ==> ExactNumber(f.oldSize.value)) && (f.newSize.Some? ==> ExactNumber(f.newSize.value))
    ensures PlainFinding(f) && FindingSchema(f)
  {
    KindPlain(f.eventType);
    if f.opaqueId.Some? { HexPlain(f.opaqueId.value); }
  }

  lemma VerdictPlain(sha: string -> string, files: Checkpoints, home: Home, claims: Claims, p: string)
    requires HexFiles(files) && (forall q :: q in home ==> ExactFile(home[q]))
    requires p in files && Verdict(sha, files, Discover(home), claims, p).Some?
    ensures var f := Verdict(sha, files, Discover(home), claims, p).value; PlainFinding(f) && FindingSchema(f)
  {
    var f := Verdict(sha, files, Discover(home), claims, p).value;
    assert HexCheckpoint(files[p]);
    if p in Discover(home) {
      assert ExactFile(home[p]);
    }
    FindingPlain(f);
  }

  lemma FindingsPlain(findings: seq<Finding>, sha: string -> string, files: Checkpoints, home: Home, claims: Claims)
    requires HexFiles(files) && (forall q :: q in home ==> ExactFile(home[q]))
    requires ReportsFlagged(findings, sha, files, Discover(home), claims)
    ensures PlainFindings(findings) && ValidFindings(findings)
  {
    FindingsExact(findings, sha, files, Discover(home), claims);
    forall f | f in findings ensures PlainFinding(f) && FindingSchema(f) {
      var p :| p in files && Verdict(sha, files, Discover(home), claims, p) == Some(f);
      VerdictPlain(sha, files, home, claims, p);
    }
  }

  /** The server recomputes the digest that the agent reported. */
  lemma HonestHash(cfg: Settings, r: Report)
    requires PlainLink(LinkOf(r)) && r.snapshotHash == LinkHash(cfg.sha, Go, LinkOf(r))
    ensures BodyLink(ReportBody(r)) == LinkOf(r)
    ensures Some(BodyHash(cfg, ReportBody(r))) == ReportBody(r).snapshotHash
  {
    LinkHashAgrees(cfg.sha, LinkOf(r));
  }

  /** The rows of a report are plain and valid. */
  lemma ScanRows(sha: string -> string, draw: string -> string, before: ScanState, home: Home,
                 claims: Claims, after: ScanState, r: Report)
    requires Scanned(sha, draw, before, home, claims, after, r)
    requires HexOutput(sha) && HexFiles(before.files) && Ordinary(draw, home)
    ensures HexFiles(after.files) && |r.metadata| == r.filesChecked
    ensures PlainRows(r.metadata) && ValidRows(r.metadata)
    ensures PlainFindings(r.findings) && ValidFindings(r.findings)
  {
    RebasedHex(sha, draw, before.files, home, claims);
    MetadataPlain(r.metadata, after.files);
    FindingsPlain(r.findings, sha, before.files, home, claims);
    assert after.files.Keys == Discover(home).Keys;
  }

  /** One scan keeps the state well formed and yields a plain report. */
  lemma ScanPlain(sha: string -> string, draw: string -> string, before: ScanState, home: Home,
                  claims: Claims, after: ScanState, r: Report)
    requires Scanned(sha, draw, before, home, claims, after, r)
    requires HexOutput(sha) && HexState(before) && Ordinary(draw, home) && Next(before.scanSequence) <= MAX_EXACT
    ensures HexState(after) && IsHex(after.lastHash) && PlainLink(LinkOf(r))
  {
    ScanRows(sha, draw, before, home, claims, after, r);
    HexPlain(before.stateId);
    HexPlain(before.lastHash);
    assert IsHex(sha(Encode(Go, LinkJson(LinkOf(r)))));
  }

  /** How a report continues the chain of the state it was made from. */
  ghost predicate Chained(sha: string -> string, before: ScanState, after: ScanState, r: Report) {
    && r.stateId == before.stateId && r.scanSequence == Next(before.scanSequence) && r.previousHash == before.lastHash
    && after.stateId == r.stateId && after.scanSequence == r.scanSequence && after.lastHash == r.snapshotHash
    && r.snapshotHash == LinkHash(sha, Go, LinkOf(r)) && r.status in {"OK", "TAMPER"}
  }

  lemma ScanChains(sha: string -> string, draw: string -> string, before: ScanState, home: Home,
                   claims: Claims, after: ScanState, r: Report)
    requires Scanned(sha, draw, before, home, claims, after, r)
    ensures Chained(sha, before, after, r)
  {
  }

  /** The parts of a report that the schema checks, without the list limits. */
  ghost predicate WellFormed(r: Report) {
    |r.metadata| == r.filesChecked && ValidRows(r.metadata) && ValidFindings(r.findings) && ValidChain(r)
  }

  predicate ValidChain(r: Report) {
    && r.status in {"OK", "TAMPER"}
    && IsStateId(r.stateId) && IsHex(r.snapshotHash) && HexOrEmpty(r.previousHash) && r.scanSequence >= 1
  }

  lemma ChainedValid(sha: string -> string, before: ScanState, after: ScanState, r: Report)
    requires Chained(sha, before, after, r) && HexState(before) && HexOutput(sha) && before.scanSequence < MAX_EXACT
    requires |r.metadata| == r.filesChecked && ValidRows(r.metadata) && ValidFindings(r.findings)
    ensures WellFormed(r)
  {
    assert IsHex(sha(Encode(Go, LinkJson(LinkOf(r)))));
  }

  lemma SchemaHolds(r: Report)
    requires WellFormed(r)
    ensures IntegritySchema(ReportBody(r)) <==> |r.findings| <= 1000 && r.filesChecked <= 10000
  {
  }

  lemma ScanWellFormed(sha: string -> string, draw: string -> string, before: ScanState, home: Home,
                       claims: Claims, after: ScanState, r: Report)
    requires Scanned(sha, draw, before, home, claims, after, r)
    requires HexOutput(sha) && HexState(before) && Ordinary(draw, home) && before.scanSequence < MAX_EXACT
    ensures WellFormed(r)
  {
    ScanRows(sha, draw, before, home, claims, after, r);
    ScanChains(sha, draw, before, home, claims, after, r);
    ChainedValid(sha, before, after, r);
  }

  /** The server rejects an honest report exactly when it exceeds a list limit. */
  lemma HonestAccepted(sha: string -> string, draw: string -> string, before: ScanState, home: Home,
                       claims: Claims, after: ScanState, r: Report)
    requires Scanned(sha, draw, before, home, claims, after, r)
    requires HexOutput(sha) && HexState(before) && Ordinary(draw, home) && before.scanSequence < MAX_EXACT
    ensures IntegritySchema(ReportBody(r)) <==> |r.findings| <= 1000 && r.filesChecked <= 10000
  {
    ScanWellFormed(sha, draw, before, home, claims, after, r);
    SchemaHolds(r);
  }

  // ------------------------------------------------------------ runs

  ghost predicate OrdinaryRun(steps: seq<ScanStep>) {
    forall i :: 0 <= i < |steps| ==> OrdinaryAt(steps, i)
  }

  ghost predicate OrdinaryAt(steps: seq<ScanStep>, i: nat)
    requires i < |steps|
  {
    Ordinary(steps[i].draw, steps[i].home)
  }

  ghost predicate HonestStep(sha: string -> string, before: ScanState, after: ScanState, r: Report) {
    Chained(sha, before, after, r) && IsHex(after.lastHash) && PlainLink(LinkOf(r))
  }

  lemma ScanHex(sha: string -> string, start: ScanState, steps: seq<ScanStep>, i: nat)
    requires i < |steps| && ScanRun(sha, start, steps) && OrdinaryRun(steps)
    requires HexOutput(sha) && HexState(StateBefore(start, steps, i))
    requires Next(StateBefore(start, steps, i).scanSequence) <= MAX_EXACT
    ensures HexState(steps[i].after) && steps[i].after.scanSequence == Next(StateBefore(start, steps, i).scanSequence)
  {
    ScanHonest(sha, start, steps, i);
  }

  lemma ScanHonest(sha: string -> string, start: ScanState, steps: seq<ScanStep>, i: nat)
    requires i < |steps| && ScanRun(sha, start, steps) && OrdinaryRun(steps)
    requires HexOutput(sha) && HexState(StateBefore(start, steps, i))
    requires Next(StateBefore(start, steps, i).scanSequence) <= MAX_EXACT
    ensures HexState(steps[i].after)
    ensures HonestStep(sha, StateBefore(start, steps, i), steps[i].after, steps[i].report)
  {
    var s := steps[i];
    assert ScannedAt(sha, start, steps, i) && OrdinaryAt(steps, i);
    ScanPlain(sha, s.draw, StateBefore(start, steps, i), s.home, s.claims, s.after, s.report);
    ScanChains(sha, s.draw, StateBefore(start, steps, i), s.home, s.claims, s.after, s.report);
  }

  /** The state stays well formed over a run, and the scan counter counts. */
  lemma {:induction false} RunHex(sha: string -> string, start: ScanState, steps: seq<ScanStep>, i: nat)
    requires HexOutput(sha) && ScanRun(sha, start, steps) && HexState(start) && OrdinaryRun(steps)
    requires i <= |steps| && start.scanSequence + |steps| <= MAX_EXACT
    ensures HexState(StateBefore(start, steps, i))
    ensures StateBefore(start, steps, i).scanSequence == start.scanSequence + i
  {
    if i > 0 {
      RunHex(sha, start, steps, i - 1);
      ScanHex(sha, start, steps, i - 1);
    }
  }

  /** The reports from scan `k` on. */
  function Bodies(steps: seq<ScanStep>, k: nat): seq<IntegrityBody>
    requires k <= |steps|
    decreases |steps| - k
  {
    if k == |steps| then [] else [ReportBody(steps[k].report)] + Bodies(steps, k + 1)
  }

  lemma FirstFollows(cfg: Settings, before: ScanState, after: ScanState, r: Report)
    requires HonestStep(cfg.sha, before, after, r)
    ensures Follows(cfg, None, ReportBody(r))
  {
    HonestHash(cfg, r);
  }

  lemma NextFollows(cfg: Settings, first: ScanState, before: ScanState, q: Report, after: ScanState, r: Report)
    requires HonestStep(cfg.sha, first, before, q) && HonestStep(cfg.sha, before, after, r)
    requires before.scanSequence < MAX_EXACT
    ensures Follows(cfg, Some(ReportBody(q)), ReportBody(r))
  {
    HonestHash(cfg, q);
    HonestHash(cfg, r);
  }

  lemma HonestFollows(cfg: Settings, start: ScanState, steps: seq<ScanStep>, k: nat)
    requires HexOutput(cfg.sha) && ScanRun(cfg.sha, start, steps) && HexState(start) && OrdinaryRun(steps)
    requires k < |steps| && start.scanSequence + |steps| <= MAX_EXACT
    ensures Follows(cfg, None, ReportBody(steps[k].report))
    ensures k > 0 ==> Follows(cfg, Some(ReportBody(steps[k - 1].report)), ReportBody(steps[k].report))
  {
    RunHex(cfg.sha, start, steps, k);
    ScanHonest(cfg.sha, start, steps, k);
    FirstFollows(cfg, StateBefore(start, steps, k), steps[k].after, steps[k].report);
    if k > 0 {
      RunHex(cfg.sha, start, steps, k - 1);
      ScanHonest(cfg.sha, start, steps, k - 1);
      NextFollows(cfg, StateBefore(start, steps, k - 1), steps[k - 1].after, steps[k - 1].report, steps[k].after,
                  steps[k].report);
    }
  }

  /** `b` may come after `previous` and after nothing. */
  ghost predicate LinkedEitherWay(cfg: Settings, previous: Option<IntegrityBody>, history: seq<IntegrityBody>) {
    LinkedFrom(cfg, None, history) && LinkedFrom(cfg, previous, history)
  }

  lemma LinkedCons(cfg: Settings, previous: Option<IntegrityBody>, b: IntegrityBody, rest: seq<IntegrityBody>)
    requires Follows(cfg, None, b) && Follows(cfg, previous, b) && LinkedFrom(cfg, Some(b), rest)
    ensures LinkedEitherWay(cfg, previous, [b] + rest)
  {
    assert ([b] + rest)[0] == b && ([b] + rest)[1..] == rest;
  }

  function ReportBefore(steps: seq<ScanStep>, k: nat): Option<IntegrityBody>
    requires k <= |steps|
  {
    if k == 0 then None else Some(ReportBody(steps[k - 1].report))
  }

  /** The reports of consecutive scans link up, for a server that knows the previous report
      and for one that sees the device for the first time. */
  lemma {:induction false} HonestLinked(cfg: Settings, start: ScanState, steps: seq<ScanStep>, k: nat)
    requires HexOutput(cfg.sha) && ScanRun(cfg.sha, start, steps) && HexState(start) && OrdinaryRun(steps)
    requires k <= |steps| && start.scanSequence + |steps| <= MAX_EXACT
    ensures LinkedEitherWay(cfg, ReportBefore(steps, k), Bodies(steps, k))
    decreases |steps| - k
  {
    if k < |steps| {
      HonestFollows(cfg, start, steps, k);
      HonestLinked(cfg, start, steps, k + 1);
      LinkedCons(cfg, ReportBefore(steps, k), ReportBody(steps[k].report), Bodies(steps, k + 1));
    }
  }

  /** If the server records, in order, the reports that an agent made from scan `k` on, and before them
      at most the report of scan `k - 1`, then no hash, reset, rollback or broken-chain event is raised
      for the device, whatever other traffic and purges happen meanwhile. */
  lemma HonestNeverAlarmed(cfg: Settings, db: Db, actions: seq<Action>, d: DeviceId, t: Time,
                           start: ScanState, steps: seq<ScanStep>, k: nat)
    requires HexOutput(cfg.sha) && ScanRun(cfg.sha, start, steps) && HexState(start) && OrdinaryRun(steps)
    requires k <= |steps| && start.scanSequence + |steps| <= MAX_EXACT
    requires ClockFrom(actions, t) && StoredBefore(db.snapshots, d, t) && NoChainEvents(db.events, d)
    requires Latest(db.snapshots, d).Some? ==> LatestIs(cfg, db, d, ReportBefore(steps, k))
    requires History(cfg, db, actions, d) == Bodies(steps, k)
    ensures NoChainEvents(RunDb(cfg, db, actions).events, d)
  {
    HonestLinked(cfg, start, steps, k);
    LinkedStaysQuiet(cfg, db, actions, d, ReportBefore(steps, k), t);
  }

  // ------------------------------------------------------------ missing scans

  /** Positions of scans in the order they were made. */
  ghost predicate InOrder(at: seq<nat>, bound: nat) {
    && (forall i :: 0 <= i < |at| ==> at[i] < bound)
    && (forall i, j :: 0 <= i < j < |at| ==> at[i] < at[j])
  }

  ghost predicate Consecutive(at: seq<nat>)
    decreases |at|
  {
    |at| < 2 || (at[1] == at[0] + 1 && Consecutive(at[1..]))
  }

  /** The reports of the scans at the given positions. */
  ghost function Delivered(steps: seq<ScanStep>, at: seq<nat>): (h: seq<IntegrityBody>)
    requires InOrder(at, |steps|)
    ensures Complete(h)
    decreases |at|
  {
    if at == [] then [] else [ReportBody(steps[at[0]].report)] + Delivered(steps, at[1..])
  }

  lemma HonestNumbers(sha: string -> string, start: ScanState, steps: seq<ScanStep>, i: nat)
    requires HexOutput(sha) && ScanRun(sha, start, steps) && HexState(start) && OrdinaryRun(steps)
    requires i < |steps| && start.scanSequence + |steps| <= MAX_EXACT
    ensures steps[i].report.scanSequence == start.scanSequence + i + 1
    ensures HonestStep(sha, StateBefore(start, steps, i), steps[i].after, steps[i].report)
  {
    RunHex(sha, start, steps, i);
    ScanHonest(sha, start, steps, i);
  }

  lemma HashFixesNumber(cfg: Settings, q: Report, r: Report)
    requires CollisionFree(cfg.sha) && BodyHash(cfg, ReportBody(q)) == BodyHash(cfg, ReportBody(r))
    ensures q.scanSequence == r.scanSequence
  {
    LinkHashInjective(cfg.sha, Python, BodyLink(ReportBody(q)), Python, BodyLink(ReportBody(r)));
  }

  /** What a report links back to is the report of the scan before it. */
  lemma BackLink(cfg: Settings, before: ScanState, q: Report, first: ScanState, after: ScanState, r: Report)
    requires HonestStep(cfg.sha, first, before, q) && HonestStep(cfg.sha, before, after, r)
    ensures ReportBody(r).previousHash == Some(BodyHash(cfg, ReportBody(q)))
  {
    HonestHash(cfg, q);
  }

  /** A later report follows an earlier one exactly if no scan lies between them. */
  lemma FollowsOnlyNext(cfg: Settings, start: ScanState, steps: seq<ScanStep>, a: nat, b: nat)
    requires Digest(cfg.sha) && ScanRun(cfg.sha, start, steps) && HexState(start) && OrdinaryRun(steps)
    requires a < b < |steps| && start.scanSequence + |steps| <= MAX_EXACT
    ensures Follows(cfg, Some(ReportBody(steps[a].report)), ReportBody(steps[b].report)) <==> b == a + 1
  {
    if b == a + 1 {
      HonestFollows(cfg, start, steps, b);
    } else if Follows(cfg, Some(ReportBody(steps[a].report)), ReportBody(steps[b].report)) {
      HonestNumbers(cfg.sha, start, steps, a);
      HonestNumbers(cfg.sha, start, steps, b - 1);
      HonestNumbers(cfg.sha, start, steps, b);
      BackLink(cfg, steps[b - 1].after, steps[b - 1].report, StateBefore(start, steps, b - 1), steps[b].after,
               steps[b].report);
      HashFixesNumber(cfg, steps[a].report, steps[b - 1].report);
    }
  }

  lemma {:induction false} DeliveredLinked(cfg: Settings, start: ScanState, steps: seq<ScanStep>, at: seq<nat>)
    requires Digest(cfg.sha) && ScanRun(cfg.sha, start, steps) && HexState(start) && OrdinaryRun(steps)
    requires at != [] && InOrder(at, |steps|) && start.scanSequence + |steps| <= MAX_EXACT
    ensures LinkedFrom(cfg, Some(ReportBody(steps[at[0]].report)), Delivered(steps, at[1..])) <==> Consecutive(at)
    decreases |at|
  {
    if |at| > 1 {
      FollowsOnlyNext(cfg, start, steps, at[0], at[1]);
      DeliveredLinked(cfg, start, steps, at[1..]);
      LinkedFirst(cfg, Some(ReportBody(steps[at[0]].report)), ReportBody(steps[at[1]].report),
                  Delivered(steps, at[1..][1..]));
    }
  }

  lemma DeliveredFirst(steps: seq<ScanStep>, at: seq<nat>)
    requires at != [] && InOrder(at, |steps|)
    ensures InOrder(at[1..], |steps|)
    ensures Delivered(steps, at) == [ReportBody(steps[at[0]].report)] + Delivered(steps, at[1..])
  {
  }

  lemma LinkedAlone(cfg: Settings, b: IntegrityBody, rest: seq<IntegrityBody>)
    requires Follows(cfg, None, b)
    ensures LinkedFrom(cfg, None, [b] + rest) <==> LinkedFrom(cfg, Some(b), rest)
  {
    LinkedFirst(cfg, None, b, rest);
  }

  lemma DeliveredStart(cfg: Settings, start: ScanState, steps: seq<ScanStep>, at: seq<nat>, rest: seq<IntegrityBody>)
    requires Digest(cfg.sha) && ScanRun(cfg.sha, start, steps) && HexState(start) && OrdinaryRun(steps)
    requires at != [] && InOrder(at, |steps|) && start.scanSequence + |steps| <= MAX_EXACT
    requires Delivered(steps, at) == [ReportBody(steps[at[0]].report)] + rest
    ensures LinkedFrom(cfg, None, Delivered(steps, at))
      <==> LinkedFrom(cfg, Some(ReportBody(steps[at[0]].report)), rest)
  {
    HonestFollows(cfg, start, steps, at[0]);
    LinkedAlone(cfg, ReportBody(steps[at[0]].report), rest);
  }

  lemma DeliveredExactly(cfg: Settings, start: ScanState, steps: seq<ScanStep>, at: seq<nat>)
    requires Digest(cfg.sha) && ScanRun(cfg.sha, start, steps) && HexState(start) && OrdinaryRun(steps)
    requires InOrder(at, |steps|) && start.scanSequence + |steps| <= MAX_EXACT
    ensures LinkedFrom(cfg, None, Delivered(steps, at)) <==> Consecutive(at)
  {
    if at != [] {
      DeliveredFirst(steps, at);
      DeliveredStart(cfg, start, steps, at, Delivered(steps, at[1..]));
      DeliveredLinked(cfg, start, steps, at);
    }
  }

  lemma NothingBefore(cfg: Settings, db: Db, d: DeviceId)
    requires Latest(db.snapshots, d).None?
    ensures LatestIs(cfg, db, d, None)
  {
  }

  /** If the server records, in order, any of an agent's reports and keeps its latest snapshot of the device, then
      the audit is silent if and only if the recorded scans are consecutive.  So a report that was never queued
      or expired in the queue shows, once a later one arrives. */
  lemma HonestQuietExactly(cfg: Settings, db: Db, actions: seq<Action>, d: DeviceId, t: Time,
                           start: ScanState, steps: seq<ScanStep>, at: seq<nat>, h: seq<IntegrityBody>)
    requires Digest(cfg.sha) && ScanRun(cfg.sha, start, steps) && HexState(start) && OrdinaryRun(steps)
    requires InOrder(at, |steps|) && start.scanSequence + |steps| <= MAX_EXACT
    requires ClockFrom(actions, t) && StoredBefore(db.snapshots, d, t) && KeepsLatest(cfg, db, actions, d)
    requires Latest(db.snapshots, d).None?
    requires h == History(cfg, db, actions, d) && h == Delivered(steps, at)
    ensures NoChainEvents(RunDb(cfg, db, actions).events, d) <==> NoChainEvents(db.events, d) && Consecutive(at)
  {
    NothingBefore(cfg, db, d);
    QuietExactlyLinked(cfg, db, actions, d, None, t, h);
    DeliveredExactly(cfg, start, steps, at);
  }
}
