/** The agent's usage counters reach the server exactly: snapshots are absolute, applied in order and never
    twice, so whatever was lost, repeated or expired before does not matter. */
module UsageDelivery {
  import opened Prelude
  import opened SignedMessage
  import opened Server
  import opened ServerSafety
  import opened Queue
  import opened Protocol
  import opened ProtocolSafety

  // ------------------------------------------------------------ rows and stores

  predicate OtelRow(row: UsageRow, d: DeviceId) { row.device == d && row.source.Otel? }

  ghost predicate HasRow(rows: seq<UsageRow>, d: DeviceId, day: UsageDay) {
    exists r :: r in rows && OtelRow(r, d) && r.day == day
  }

  /** The otel rows of `d` are exactly the days of `m`. */
  ghost predicate Holds(rows: seq<UsageRow>, d: DeviceId, m: Days) {
    && (forall r :: r in rows && OtelRow(r, d) ==> r.day.date in m && m[r.day.date] == r.day)
    && (forall date :: date in m ==> m[date].date == date && HasRow(rows, d, m[date]))
  }

  lemma UpsertMembers(rows: seq<UsageRow>, row: UsageRow)
    requires UniqueCells(rows)
    ensures row in Upsert(rows, row)
    ensures forall r :: r in Upsert(rows, row) ==> r == row || r in rows
    ensures forall r :: r in rows && !SameCell(r, row.device, row.source, row.day.date) ==> r in Upsert(rows, row)
    ensures forall r :: r in Upsert(rows, row) && SameCell(r, row.device, row.source, row.day.date) ==> r == row
  {
    var i, after := FindCell(rows, row.device, row.source, row.day.date), Upsert(rows, row);
    if i < |rows| {
      assert after[i] == row;
      forall r | r in rows && !SameCell(r, row.device, row.source, row.day.date) ensures r in after {
        var k :| 0 <= k < |rows| && rows[k] == r;
        assert after[k] == r;
      }
    } else {
      assert after[|rows|] == row;
    }
  }

  lemma UpsertHolds(rows: seq<UsageRow>, d: DeviceId, m: Days, row: UsageRow)
    requires UniqueCells(rows) && Holds(rows, d, m) && OtelRow(row, d)
    ensures Holds(Upsert(rows, row), d, m[row.day.date := row.day])
  {
    var after, m' := Upsert(rows, row), m[row.day.date := row.day];
    UpsertMembers(rows, row);
    forall date | date in m' ensures HasRow(after, d, m'[date]) {
      if date != row.day.date {
        var r :| r in rows && OtelRow(r, d) && r.day == m[date];
        assert r in after;
      }
    }
  }

  /** Rows of other devices and sources do not matter. */
  lemma UpsertElsewhere(rows: seq<UsageRow>, d: DeviceId, m: Days, row: UsageRow)
    requires UniqueCells(rows) && Holds(rows, d, m) && !OtelRow(row, d)
    ensures Holds(Upsert(rows, row), d, m)
  {
    UpsertMembers(rows, row);
    forall date | date in m ensures HasRow(Upsert(rows, row), d, m[date]) {
      var r :| r in rows && OtelRow(r, d) && r.day == m[date];
      assert r in Upsert(rows, row);
    }
  }

  lemma NextDay(m: Days, days: seq<UsageDay>, i: nat)
    requires i < |days|
    ensures (m + DaysOf(days[..i]))[days[i].date := days[i]] == m + DaysOf(days[..i + 1])
  {
    assert days[..i + 1][..i] == days[..i];
  }

  lemma {:induction false} DaysHold(rows: seq<UsageRow>, d: DeviceId, m: Days, env: Envelope,
                                    days: seq<UsageDay>, i: nat)
    requires i <= |days| && UniqueCells(rows) && Holds(rows, d, m + DaysOf(days[..i])) && env.deviceId == d
    ensures Holds(UpsertDays(rows, env, Otel, days, i), d, m + DaysOf(days))
    decreases |days| - i
  {
    if i == |days| {
      assert days[..i] == days;
    } else {
      var row := UsageRowOf(env, Otel, days[i], i);
      NextDay(m, days, i);
      UpsertHolds(rows, d, m + DaysOf(days[..i]), row);
      UpsertUnique(rows, row);
      DaysHold(Upsert(rows, row), d, m, env, days, i + 1);
    }
  }

  lemma {:induction false} DaysElsewhere(rows: seq<UsageRow>, d: DeviceId, m: Days, env: Envelope, source: Source,
                                         days: seq<UsageDay>, i: nat)
    requires i <= |days| && UniqueCells(rows) && Holds(rows, d, m) && (env.deviceId != d || source.Local?)
    ensures Holds(UpsertDays(rows, env, source, days, i), d, m)
    decreases |days| - i
  {
    if i < |days| {
      var row := UsageRowOf(env, source, days[i], i);
      UpsertElsewhere(rows, d, m, row);
      UpsertUnique(rows, row);
      DaysElsewhere(Upsert(rows, row), d, m, env, source, days, i + 1);
    }
  }

  lemma {:induction false} DaysDevices(rows: seq<UsageRow>, env: Envelope, source: Source, days: seq<UsageDay>, i: nat)
    requires i <= |days|
    ensures forall r :: r in UpsertDays(rows, env, source, days, i) ==> r in rows || r.device == env.deviceId
    decreases |days| - i
  {
    if i < |days| {
      DaysDevices(Upsert(rows, UsageRowOf(env, source, days[i], i)), env, source, days, i + 1);
    }
  }

  // ------------------------------------------------------------ one transaction

  /** A transaction's effect on the usage table. */
  lemma StepUsage(cfg: Settings, db: Db, a: Action)
    ensures Step(cfg, db, a).usage
      == if Applies(cfg, db, a) && a.route.UsageRoute?
         then UpsertDays(db.usage, a.env, a.env.body.source, a.env.body.days, 0)
         else db.usage
    ensures Applies(cfg, db, a) && a.env.body.UsageBody? ==> a.route.UsageRoute?
    ensures Applies(cfg, db, a) && a.route.UsageRoute? ==> a.env.body.UsageBody?
  {
    match a
    case Post(route, env, now) =>
      HandleFrame(cfg, db, route, env, now);
      VerifiedFrame(cfg, db, env, now);
    case ReconcileAt(order, now) => ReconcileFrame(db, order, now);
    case _ =>
  }

  /** The usage table stays consistent under any transaction, and the otel rows of `d` change only
      when a snapshot of `d` takes effect. */
  lemma StepHolds(cfg: Settings, db: Db, a: Action, d: DeviceId, m: Days)
    requires UniqueCells(db.usage) && Holds(db.usage, d, m)
    ensures UniqueCells(Step(cfg, db, a).usage)
    ensures Holds(Step(cfg, db, a).usage, d,
                  if Applies(cfg, db, a) && a.env.deviceId == d && IsOtel(a.env.body)
                  then m + DaysOf(a.env.body.days) else m)
  {
    StepUsage(cfg, db, a);
    if Applies(cfg, db, a) && a.route.UsageRoute? {
      var env := a.env;
      UpsertDaysUnique(db.usage, env, env.body.source, env.body.days, 0);
      if env.deviceId == d && IsOtel(env.body) {
        assert env.body.days[..0] == [] && m + DaysOf([]) == m;
        DaysHold(db.usage, d, m, env, env.body.days, 0);
      } else {
        DaysElsewhere(db.usage, d, m, env, env.body.source, env.body.days, 0);
      }
    }
  }

  lemma StepDevices(cfg: Settings, db: Db, a: Action)
    ensures forall r :: r in Step(cfg, db, a).usage ==>
      r in db.usage || (a.Post? && r.device == a.env.deviceId && r.device in db.devices)
  {
    StepUsage(cfg, db, a);
    if Applies(cfg, db, a) && a.route.UsageRoute? {
      HandleFrame(cfg, db, a.route, a.env, a.now);
      DaysDevices(db.usage, a.env, a.env.body.source, a.env.body.days, 0);
    }
  }

  // ------------------------------------------------------------ snapshots on their way

  ghost function Snapshot(env: Envelope): Days
    requires IsOtel(env.body)
  {
    DaysOf(env.body.days)
  }

  /** `env`, if it is a snapshot, covers the days of `m`. */
  ghost predicate Covers(env: Envelope, m: Days) {
    IsOtel(env.body) ==> m.Keys <= Snapshot(env).Keys
  }

  ghost predicate Within(env: Envelope, m: Days) {
    IsOtel(env.body) ==> Snapshot(env).Keys <= m.Keys
  }

  /** Snapshots in transit cover what the server has, never shrink, and stay within the store. */
  ghost predicate Growing(items: seq<Item>, low: Days, high: Days) {
    && (forall x :: x in items ==> Covers(x.envelope, low) && Within(x.envelope, high))
    && (forall i, j :: 0 <= i < j < |items| && IsOtel(items[i].envelope.body) ==>
          Covers(items[j].envelope, Snapshot(items[i].envelope)))
  }

  ghost predicate GrowingTo(items: seq<Item>, env: Envelope) {
    forall x :: x in items && IsOtel(x.envelope.body) ==> Covers(env, Snapshot(x.envelope))
  }

  ghost predicate TransitOk(w: World) {
    && w.reported.Keys <= w.days.Keys && Growing(w.queue, w.reported, w.days)
    && (w.phase.Signed? || w.phase.Saved? ==>
          Covers(w.phase.envelope, w.reported) && Within(w.phase.envelope, w.days)
            && GrowingTo(w.queue, w.phase.envelope))
  }

  lemma {:induction false} RetainedGrowing(items: seq<Item>, cutoff: Time, low: Days, high: Days)
    requires Growing(items, low, high)
    ensures Growing(Retained(items, cutoff), low, high)
  {
    if items != [] {
      assert Growing(items[1..], low, high) by {
        forall i, j | 0 <= i < j < |items[1..]| && IsOtel(items[1..][i].envelope.body)
          ensures Covers(items[1..][j].envelope, Snapshot(items[1..][i].envelope))
        {
          assert items[1..][i] == items[i + 1] && items[1..][j] == items[j + 1];
        }
      }
      RetainedGrowing(items[1..], cutoff, low, high);
      RetainedExactly(items[1..], cutoff);
      var kept := Retained(items[1..], cutoff);
      if IsOtel(items[0].envelope.body) {
        forall j | 0 <= j < |kept| ensures Covers(kept[j].envelope, Snapshot(items[0].envelope)) {
          assert kept[j] in items[1..];
          var k :| 0 <= k < |items[1..]| && items[1..][k] == kept[j];
          assert items[k + 1] == kept[j];
        }
      }
    }
  }

  lemma PushKeepsTransit(s: Setup, w: World)
    requires TransitOk(w) && w.phase.Saved?
    ensures TransitOk(Internal(s, w, PushItem))
  {
    RetainedGrowing(w.queue, w.now - s.retention, w.reported, w.days);
    RetainedExactly(w.queue, w.now - s.retention);
    var kept := Retained(w.queue, w.now - s.retention);
    forall i | 0 <= i < |kept| && IsOtel(kept[i].envelope.body)
      ensures Covers(w.phase.envelope, Snapshot(kept[i].envelope))
    {
      assert kept[i] in w.queue;
    }
  }

  lemma InternalKeepsTransit(s: Setup, w: World, m: Move)
    requires AgentOk(s, w) && TransitOk(w) && Enabled(s, w, m) && !m.SendHead? && !m.Elsewhere?
    ensures TransitOk(Internal(s, w, m))
  {
    if m.PushItem? { PushKeepsTransit(s, w); }
  }

  lemma AnsweredKeepsTransit(s: Setup, w: World, db: Db, r: Response, heard: bool)
    requires AgentOk(s, w) && TransitOk(w) && w.phase.Idle? && w.queue != []
    ensures TransitOk(Answered(w, w.queue[0], db, r, heard))
  {
    var head, w' := w.queue[0], Answered(w, w.queue[0], db, r, heard);
    if r == Accepted(false) && IsOtel(head.envelope.body) {
      forall x | x in w.queue ensures Covers(x.envelope, Snapshot(head.envelope)) {
        var i :| 0 <= i < |w.queue| && w.queue[i] == x;
      }
    }
  }

  // ------------------------------------------------------------ the table

  ghost predicate TableOk(w: World) {
    && UniqueCells(w.db.usage) && (forall r :: r in w.db.usage ==> r.device in w.ids)
    && (w.disk.deviceId in w.db.devices ==> Holds(w.db.usage, w.disk.deviceId, w.reported))
    && (w.phase.Registered? || w.phase.Cleared? ==> forall r :: r in w.db.usage ==> r.device != w.phase.device)
  }

  lemma ForeignNeverApplies(s: Setup, w: World, a: Action)
    requires Digest(s.cfg.sha) && Registry(s, w) && Foreign(s, w, a) && Applies(s.cfg, w.db, a)
    ensures a.env.deviceId !in w.ours
  {
    HandleFrame(s.cfg, w.db, a.route, a.env, a.now);
    ForeignRefused(s, w, a);
  }

  lemma ElsewhereKeepsTable(s: Setup, w: World, a: Action)
    requires Digest(s.cfg.sha) && AgentOk(s, w) && Registry(s, w) && TableOk(w) && Enabled(s, w, Elsewhere(a))
    ensures TableOk(Do(s, w, Elsewhere(a)))
  {
    var d, db := w.disk.deviceId, Step(s.cfg, w.db, a);
    ForeignSpares(s, w, a);
    StepDevices(s.cfg, w.db, a);
    StepUsage(s.cfg, w.db, a);
    if Applies(s.cfg, w.db, a) { ForeignNeverApplies(s, w, a); }
    if d in w.db.devices {
      StepHolds(s.cfg, w.db, a, d, w.reported);
    } else if Applies(s.cfg, w.db, a) && a.route.UsageRoute? {
      UpsertDaysUnique(w.db.usage, a.env, a.env.body.source, a.env.body.days, 0);
    }
    if w.phase.Registered? || w.phase.Cleared? {
      ForeignRows(s, w, a);
    }
  }

  lemma ForeignRows(s: Setup, w: World, a: Action)
    requires Digest(s.cfg.sha) && Registry(s, w) && Foreign(s, w, a)
    ensures forall r :: r in Step(s.cfg, w.db, a).usage ==> r in w.db.usage || r.device !in w.ours
  {
    StepUsage(s.cfg, w.db, a);
    if Applies(s.cfg, w.db, a) && a.route.UsageRoute? {
      ForeignNeverApplies(s, w, a);
      DaysDevices(w.db.usage, a.env, a.env.body.source, a.env.body.days, 0);
    }
  }

  /** The agent's own report as a transaction. */
  function HeadAction(w: World): Action
    requires w.queue != []
  {
    Post(w.queue[0].route, w.queue[0].envelope, w.now)
  }

  lemma Replaces(m: Days, n: Days)
    requires m.Keys <= n.Keys
    ensures m + n == n
  {
  }

  lemma AnsweredKeepsTable(w: World, db: Db, r: Response, heard: bool)
    requires TableOk(w) && w.phase.Idle? && w.queue != [] && w.disk.deviceId in w.db.devices
    requires UniqueCells(db.usage) && forall x :: x in db.usage ==> x.device in w.ids
    requires var env := w.queue[0].envelope; Holds(db.usage, w.disk.deviceId,
      if r == Accepted(false) && IsOtel(env.body) then DaysOf(env.body.days) else w.reported)
    requires db.devices.Keys == w.db.devices.Keys && (heard ==> r != UnknownDevice)
    ensures TableOk(Answered(w, w.queue[0], db, r, heard))
  {
  }

  lemma SendKeepsTable(s: Setup, w: World, arrives: bool, heard: bool)
    requires Sound(s) && AgentOk(s, w) && ServerOk(s, w) && TableOk(w) && TransitOk(w)
    requires Enabled(s, w, SendHead(arrives, heard))
    ensures TableOk(Do(s, w, SendHead(arrives, heard)))
  {
    if arrives {
      var a, env := HeadAction(w), w.queue[0].envelope;
      var (db, r) := Handle(s.cfg, w.db, w.queue[0].route, env, w.now);
      HeadAnswer(s, w);
      if w.disk.deviceId in w.db.devices {
        StepHolds(s.cfg, w.db, a, w.disk.deviceId, w.reported);
        StepDevices(s.cfg, w.db, a);
        if IsOtel(env.body) {
          assert w.queue[0] in w.queue;
          Replaces(w.reported, Snapshot(env));
        }
        AnsweredKeepsTable(w, db, r, heard);
      }
    }
  }

  lemma InternalKeepsTable(s: Setup, w: World, m: Move)
    requires AgentOk(s, w) && ServerOk(s, w) && TableOk(w) && Enabled(s, w, m) && !m.SendHead? && !m.Elsewhere?
    ensures TableOk(Internal(s, w, m))
  {
  }

  // ------------------------------------------------------------ the latest snapshot

  /** How the last queued snapshot relates to the queue and the server. */
  ghost predicate LatestOk(w: World) {
    match w.latest
    case None => forall x :: x in w.queue ==> !IsOtel(x.envelope.body)
    case Some(l) =>
      && IsOtel(l.body) && l.deviceId in w.ours && (l.deviceId == w.disk.deviceId || l.deviceId !in w.db.devices)
      && (w.phase.Registered? || w.phase.Cleared? ==> l.deviceId != w.phase.device)
      && (l.deviceId == w.disk.deviceId ==> l.sequence < w.disk.nextSequence)
      && (l.deviceId == w.disk.deviceId && w.phase.Saved? ==> l.sequence < w.phase.envelope.sequence)
      && (forall x :: x in w.queue && IsOtel(x.envelope.body) ==>
            l.deviceId == w.disk.deviceId && (x.envelope == l || x.envelope.sequence < l.sequence))
      && (l.deviceId in w.db.devices && TookEffect(w.log, l) ==> w.reported == Snapshot(l))
  }

  lemma NotYet(w: World, env: Envelope)
    requires AppliedPassed(w.log, w.db) && env.deviceId in w.db.devices
    requires w.db.devices[env.deviceId].lastSequence < env.sequence
    ensures !TookEffect(w.log, env)
  {
  }

  lemma SnapshotPushed(s: Setup, w: World, env: Envelope, kept: seq<Item>, w': World)
    requires w.phase.Saved? && w' == Internal(s, w, PushItem) && env == w.phase.envelope && IsOtel(env.body)
    requires w'.queue == kept + [Item(w.phase.route, w.now, env)] && Newest(kept, env.sequence)
    requires env.deviceId == w.disk.deviceId && env.deviceId in w.ours && env.sequence < w.disk.nextSequence
    requires env.deviceId in w.db.devices ==> !TookEffect(w.log, env)
    ensures LatestOk(w')
  {
    forall x | x in kept ensures x.envelope.sequence < env.sequence {
      var i :| 0 <= i < |kept| && kept[i] == x;
    }
  }

  lemma OtherPushed(s: Setup, w: World, w': World)
    requires LatestOk(w) && w.phase.Saved? && !IsOtel(w.phase.envelope.body) && w' == Internal(s, w, PushItem)
    ensures LatestOk(w')
  {
    RetainedExactly(w.queue, w.now - s.retention);
  }

  lemma PushKeepsLatest(s: Setup, w: World)
    requires Sound(s) && AgentOk(s, w) && ServerOk(s, w) && LogOk(w) && LatestOk(w) && w.phase.Saved?
    ensures LatestOk(Internal(s, w, PushItem))
  {
    var env, cutoff := w.phase.envelope, w.now - s.retention;
    if IsOtel(env.body) {
      KeptBelow(w.queue, cutoff, env.sequence);
      if env.deviceId in w.db.devices { NotYet(w, env); }
      SnapshotPushed(s, w, env, Retained(w.queue, cutoff), Internal(s, w, PushItem));
    } else {
      OtherPushed(s, w, Internal(s, w, PushItem));
    }
  }

  /** The moves by which the agent enrolls again or pops the head. */
  predicate Retires(m: Move) {
    m.Reenroll? || m.ClearQueue? || m.SaveIdentity? || m.SkipReenroll? || m.PopHead?
  }

  lemma RetiringKeepsLatest(s: Setup, w: World, m: Move)
    requires AgentOk(s, w) && ServerOk(s, w) && LatestOk(w) && Enabled(s, w, m) && Retires(m)
    ensures LatestOk(Internal(s, w, m))
  {
  }

  lemma StayingKeepsLatest(s: Setup, w: World, m: Move)
    requires AgentOk(s, w) && LatestOk(w) && Enabled(s, w, m)
    requires !m.SendHead? && !m.Elsewhere? && !m.PushItem? && !Retires(m)
    ensures LatestOk(Internal(s, w, m))
  {
  }

  lemma InternalKeepsLatest(s: Setup, w: World, m: Move)
    requires AgentOk(s, w) && ServerOk(s, w) && LatestOk(w) && Enabled(s, w, m)
    requires !m.SendHead? && !m.Elsewhere? && !m.PushItem?
    ensures LatestOk(Internal(s, w, m))
  {
    if Retires(m) { RetiringKeepsLatest(s, w, m); } else { StayingKeepsLatest(s, w, m); }
  }

  /** Among the queued reports only the snapshot that was queued last can make it take effect. */
  lemma EffectOfLatest(s: Setup, w: World, x: Envelope, l: Envelope)
    requires AgentOk(s, w) && LogOk(w) && LatestOk(w) && w.latest == Some(l) && w.queue != [] && w.phase.Idle?
    requires x == w.queue[0].envelope && x.deviceId == w.disk.deviceId && x.deviceId in w.db.devices
    requires w.db.devices[x.deviceId].lastSequence < x.sequence
    requires l.deviceId in w.db.devices && (x == l || TookEffect(w.log, l))
    ensures x == l || (!IsOtel(x.body) && w.reported == Snapshot(l))
  {
    assert w.queue[0] in w.queue;
    if x != l && IsOtel(x.body) { NotYet(w, l); }
  }

  lemma AppliedKeepsLatest(s: Setup, w: World, db: Db, heard: bool)
    requires AgentOk(s, w) && LogOk(w) && LatestOk(w) && w.phase.Idle? && w.queue != []
    requires w.queue[0].envelope.deviceId == w.disk.deviceId && Advanced(s.cfg, w.db, db, w.queue[0].envelope, w.now)
    ensures LatestOk(Answered(w, w.queue[0], db, Accepted(false), heard))
  {
    var x := w.queue[0].envelope;
    assert w.queue[0] in w.queue;
    if w.latest.Some? {
      var l := w.latest.value;
      if l.deviceId in w.db.devices && (x == l || TookEffect(w.log, l)) { EffectOfLatest(s, w, x, l); }
    }
  }

  lemma SendKeepsLatest(s: Setup, w: World, arrives: bool, heard: bool)
    requires Sound(s) && AgentOk(s, w) && ServerOk(s, w) && LogOk(w) && LatestOk(w)
    requires Enabled(s, w, SendHead(arrives, heard))
    ensures LatestOk(Do(s, w, SendHead(arrives, heard)))
  {
    if arrives {
      HeadAnswer(s, w);
      var (db, r) := Handle(s.cfg, w.db, w.queue[0].route, w.queue[0].envelope, w.now);
      if r == Accepted(false) {
        AppliedKeepsLatest(s, w, db, heard);
      } else {
        OtherAnswerKeepsLatest(s, w, db, r, heard);
      }
    }
  }

  lemma OtherAnswerKeepsLatest(s: Setup, w: World, db: Db, r: Response, heard: bool)
    requires LatestOk(w) && w.phase.Idle? && w.queue != [] && r != Accepted(false) && db.devices == w.db.devices
    ensures LatestOk(Answered(w, w.queue[0], db, r, heard))
  {
  }

  /** A snapshot lists the store as it was when the snapshot was signed. */
  ghost predicate StoreOk(w: World) {
    && (w.phase.Signed? || w.phase.Saved? ==> (IsOtel(w.phase.envelope.body) ==> Snapshot(w.phase.envelope) == w.taken))
    && (w.latest.Some? ==> IsOtel(w.latest.value.body) && Snapshot(w.latest.value) == w.latestDays)
  }

  lemma InternalKeepsStore(s: Setup, w: World, m: Move)
    requires StoreOk(w) && Enabled(s, w, m) && !m.SendHead? && !m.Elsewhere?
    ensures StoreOk(Internal(s, w, m))
  {
  }

  // ------------------------------------------------------------ the theorem

  ghost predicate UsageOk(w: World) { TableOk(w) && TransitOk(w) && LatestOk(w) && StoreOk(w) }

  lemma SendKeepsTransit(s: Setup, w: World, arrives: bool, heard: bool)
    requires AgentOk(s, w) && TransitOk(w) && StoreOk(w) && Enabled(s, w, SendHead(arrives, heard))
    ensures TransitOk(Do(s, w, SendHead(arrives, heard))) && StoreOk(Do(s, w, SendHead(arrives, heard)))
  {
    if arrives {
      var (db, r) := Handle(s.cfg, w.db, w.queue[0].route, w.queue[0].envelope, w.now);
      AnsweredKeepsTransit(s, w, db, r, heard);
    }
  }

  lemma SendKeepsUsage(s: Setup, w: World, m: Move)
    requires Sound(s) && WorldOk(s, w) && UsageOk(w) && Enabled(s, w, m) && m.SendHead?
    ensures UsageOk(Do(s, w, m))
  {
    SendKeepsTable(s, w, m.arrives, m.heard);
    SendKeepsLatest(s, w, m.arrives, m.heard);
    SendKeepsTransit(s, w, m.arrives, m.heard);
  }

  lemma ElsewhereKeepsUsage(s: Setup, w: World, m: Move)
    requires Sound(s) && WorldOk(s, w) && UsageOk(w) && Enabled(s, w, m) && m.Elsewhere?
    ensures UsageOk(Do(s, w, m))
  {
    ElsewhereKeepsTable(s, w, m.action);
    ForeignSpares(s, w, m.action);
  }

  lemma InternalKeepsUsage(s: Setup, w: World, m: Move)
    requires Sound(s) && WorldOk(s, w) && UsageOk(w) && Enabled(s, w, m) && !m.SendHead? && !m.Elsewhere?
    ensures UsageOk(Do(s, w, m))
  {
    InternalKeepsTable(s, w, m);
    InternalKeepsTransit(s, w, m);
    InternalKeepsStore(s, w, m);
    if m.PushItem? { PushKeepsLatest(s, w); } else { InternalKeepsLatest(s, w, m); }
  }

  lemma DoKeepsUsage(s: Setup, w: World, m: Move)
    requires Sound(s) && WorldOk(s, w) && UsageOk(w) && Enabled(s, w, m)
    ensures UsageOk(Do(s, w, m))
  {
    if m.SendHead? {
      SendKeepsUsage(s, w, m);
    } else if m.Elsewhere? {
      ElsewhereKeepsUsage(s, w, m);
    } else {
      InternalKeepsUsage(s, w, m);
    }
  }

  lemma {:induction false} RunKeepsUsage(s: Setup, w: World, moves: seq<Move>)
    requires Sound(s) && WorldOk(s, w) && UsageOk(w) && Possible(s, w, moves)
    ensures UsageOk(Run(s, w, moves)) && WorldOk(s, Run(s, w, moves))
    decreases |moves|
  {
    if moves != [] {
      DoKeepsWorld(s, w, moves[0]);
      DoKeepsUsage(s, w, moves[0]);
      RunKeepsUsage(s, Do(s, w, moves[0]), moves[1..]);
    }
  }

  lemma Acknowledged(log: seq<Exchange>, l: Envelope)
    requires DuplicatesTrue(log) && exists x :: x in log && x.envelope == l && x.response.Accepted?
    ensures TookEffect(log, l)
  {
    var x :| x in log && x.envelope == l && x.response.Accepted?;
    var j :| 0 <= j < |log| && log[j] == x;
    if x.response == Accepted(true) { assert TookEffect(log[..j], l); }
  }

  lemma LatestHeld(w: World, l: Envelope)
    requires TableOk(w) && LatestOk(w) && StoreOk(w)
    requires w.latest == Some(l) && TookEffect(w.log, l) && l.deviceId in w.db.devices
    ensures UniqueCells(w.db.usage) && Holds(w.db.usage, l.deviceId, w.latestDays)
  {
  }

  /** Once the snapshot that was queued last is acknowledged, as new or as a duplicate, and unless the server
      lost the device, the device's otel rows are exactly the agent's store as it was when that snapshot was
      signed, one row for each day. */
  lemma UsageArrives(s: Setup, w: World, moves: seq<Move>, end: World, l: Envelope)
    requires Sound(s) && Initial(s, w) && Possible(s, w, moves) && end == Run(s, w, moves)
    requires end.latest == Some(l) && (exists x :: x in end.log && x.envelope == l && x.response.Accepted?)
    requires l.deviceId in end.db.devices
    ensures UniqueCells(end.db.usage) && Holds(end.db.usage, l.deviceId, end.latestDays)
  {
    InitialOk(s, w);
    RunKeepsUsage(s, w, moves);
    Acknowledged(end.log, l);
    LatestHeld(end, l);
  }
}
