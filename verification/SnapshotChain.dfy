/** The server-side audit of the snapshot chain: what a quiet audit proves about the history of a
    device, and why an honest agent never disturbs it. */
module SnapshotChain {
  import opened Prelude
  import opened CanonicalJson
  import opened SignedMessage
  import opened Snapshot
  import opened Server
  import opened ServerSafety

  predicate ChainKey(k: EventKey) {
    k.StateHashKey? || k.StateResetKey? || k.StateRollbackKey? || k.StateChainKey?
  }

  /** No invalid-hash, reset, rollback or broken-chain event is recorded for the device. */
  ghost predicate NoChainEvents(events: seq<SecurityEvent>, d: DeviceId) {
    forall i :: 0 <= i < |events| && events[i].device == d ==> !ChainKey(events[i].key)
  }

  ghost predicate RecordsReport(cfg: Settings, db: Db, a: Action, d: DeviceId) {
    Applies(cfg, db, a) && a.route.IntegrityRoute? && a.env.deviceId == d
  }

  /** The integrity reports of device `d` that took effect, in order. */
  ghost function History(cfg: Settings, db: Db, actions: seq<Action>, d: DeviceId): (h: seq<IntegrityBody>)
    decreases |actions|
  {
    if actions == [] then []
    else
      (if RecordsReport(cfg, db, actions[0], d) then [actions[0].env.body.report] else [])
      + History(cfg, Step(cfg, db, actions[0]), actions[1..], d)
  }

  // ------------------------------------------------------------ the latest snapshot

  /** The times of the transactions never go back, starting from `t`. */
  ghost predicate ClockFrom(actions: seq<Action>, t: Time)
    decreases |actions|
  {
    actions == [] ||
      if actions[0].Register? then ClockFrom(actions[1..], t)
      else t <= actions[0].now && ClockFrom(actions[1..], actions[0].now)
  }

  ghost predicate StoredBefore(rows: seq<SnapshotRow>, d: DeviceId, t: Time) {
    forall i :: 0 <= i < |rows| && rows[i].device == d ==> rows[i].at <= t
  }

  lemma {:induction false} LatestBounded(rows: seq<SnapshotRow>, d: DeviceId, t: Time)
    requires StoredBefore(rows, d, t)
    ensures Latest(rows, d).Some? ==> Latest(rows, d).value.at <= t
  {
    if rows != [] { LatestBounded(rows[..|rows| - 1], d, t); }
  }

  lemma LatestAfterStore(rows: seq<SnapshotRow>, row: SnapshotRow, d: DeviceId)
    requires row.device == d ==> StoredBefore(rows, d, row.at)
    ensures Latest(rows + [row], d) == if row.device == d then Some(row) else Latest(rows, d)
  {
    assert (rows + [row])[..|rows|] == rows;
    if row.device == d { LatestBounded(rows, d, row.at); }
  }

  lemma {:induction false} KeepAppend(rows: seq<SnapshotRow>, row: SnapshotRow, cutoff: Time)
    ensures KeepSnapshots(rows + [row], cutoff) == KeepSnapshots(rows, cutoff) + (if row.at < cutoff then [] else [row])
  {
    if rows == [] {
      assert rows + [row] == [row];
    } else {
      assert (rows + [row])[1..] == rows[1..] + [row];
      KeepAppend(rows[1..], row, cutoff);
    }
  }

  /** A purge forgets the latest snapshot only together with all older ones. */
  lemma {:induction false} LatestAfterPurge(rows: seq<SnapshotRow>, d: DeviceId, cutoff: Time)
    ensures Latest(KeepSnapshots(rows, cutoff), d)
      == if Latest(rows, d).Some? && Latest(rows, d).value.at >= cutoff then Latest(rows, d) else None
  {
    if rows != [] {
      var front, last := rows[..|rows| - 1], rows[|rows| - 1];
      assert rows == front + [last];
      KeepAppend(front, last, cutoff);
      LatestAfterPurge(front, d, cutoff);
      var kept := KeepSnapshots(front, cutoff);
      if last.at >= cutoff {
        assert (kept + [last])[..|kept|] == kept;
      } else {
        assert kept + [] == kept;
      }
    }
  }

  lemma {:induction false} KeepStoredBefore(rows: seq<SnapshotRow>, d: DeviceId, t: Time, cutoff: Time)
    requires StoredBefore(rows, d, t)
    ensures StoredBefore(KeepSnapshots(rows, cutoff), d, t)
  {
    if rows != [] {
      forall i | 0 <= i < |rows| - 1 && rows[1..][i].device == d ensures rows[1..][i].at <= t {
        assert rows[1..][i] == rows[i + 1];
      }
      KeepStoredBefore(rows[1..], d, t, cutoff);
    }
  }

  // ------------------------------------------------------------ which steps raise chain events

  lemma {:induction false} AlarmsRecorded(events: seq<SecurityEvent>, device: DeviceId, alarms: seq<Alarm>, d: DeviceId)
    ensures NoChainEvents(AddAlarms(events, device, alarms), d)
      <==> NoChainEvents(events, d) && (device == d ==> forall i :: 0 <= i < |alarms| ==> !ChainKey(alarms[i].key))
    decreases |alarms|
  {
    if alarms != [] {
      var next := AddEvent(events, device, alarms[0].kind, alarms[0].key);
      EventRecorded(events, device, alarms[0].kind, alarms[0].key, d);
      AlarmsRecorded(next, device, alarms[1..], d);
      assert forall i :: 0 <= i < |alarms| - 1 ==> alarms[1..][i] == alarms[i + 1];
      if forall i :: 0 <= i < |alarms[1..]| ==> !ChainKey(alarms[1..][i].key) {
        forall i | 1 <= i < |alarms| ensures !ChainKey(alarms[i].key) {
          assert alarms[i] == alarms[1..][i - 1];
        }
      }
    }
  }

  lemma EventRecorded(events: seq<SecurityEvent>, device: DeviceId, kind: string, key: EventKey, d: DeviceId)
    ensures NoChainEvents(AddEvent(events, device, kind, key), d)
      <==> NoChainEvents(events, d) && (device == d ==> !ChainKey(key))
  {
    var after := AddEvent(events, device, kind, key);
    if HasEvent(events, device, key) {
      assert after == events;
    } else {
      assert after[|events|] == SecurityEvent(device, kind, key);
      assert forall i :: 0 <= i < |events| ==> after[i] == events[i];
    }
  }

  lemma {:induction false} ReconcileQuiet(db: Db, order: seq<DeviceId>, now: Time, d: DeviceId)
    ensures NoChainEvents(Reconcile(db, order, now).events, d) <==> NoChainEvents(db.events, d)
    decreases |order|
  {
    if order != [] {
      var id := order[0];
      if id in db.devices && Unreachable(db.devices[id], now) {
        var key := UnreachableKey(db.devices[id].lastSeen.value);
        EventRecorded(db.events, id, "AGENT_UNREACHABLE", key, d);
        ReconcileQuiet(db.(events := AddEvent(db.events, id, "AGENT_UNREACHABLE", key)), order[1..], now, d);
      } else {
        ReconcileQuiet(db, order[1..], now, d);
      }
    }
  }

  ghost function AuditOf(cfg: Settings, db: Db, a: Action): seq<Alarm>
    requires a.Post? && a.env.body.IntegrityReport?
  {
    ChainAlarms(cfg, Latest(db.snapshots, a.env.deviceId), a.env.body.report, a.env.eventId)
  }

  lemma AuditIsChain(cfg: Settings, previous: Option<SnapshotRow>, b: IntegrityBody, event: EventId)
    ensures forall i :: 0 <= i < |ChainAlarms(cfg, previous, b, event)| ==>
      ChainKey(ChainAlarms(cfg, previous, b, event)[i].key)
  {
  }

  lemma IntegrityRecorded(cfg: Settings, db: Db, a: Action, d: DeviceId)
    requires Applies(cfg, db, a) && a.route.IntegrityRoute?
    ensures a.env.body.IntegrityReport?
    ensures Step(cfg, db, a).snapshots == db.snapshots + [SnapshotOf(cfg, a.env, a.env.body.report, a.now)]
    ensures NoChainEvents(Step(cfg, db, a).events, d)
      <==> NoChainEvents(db.events, d) && (a.env.deviceId == d ==> AuditOf(cfg, db, a) == [])
  {
    VerifiedFrame(cfg, db, a.env, a.now);
    var b := a.env.body.report;
    var alarms := AuditOf(cfg, db, a);
    AuditIsChain(cfg, Latest(db.snapshots, a.env.deviceId), b, a.env.eventId);
    AlarmsRecorded(db.events, a.env.deviceId, alarms, d);
    AlarmsRecorded(AddAlarms(db.events, a.env.deviceId, alarms), a.env.deviceId,
                   FindingAlarms(b.findings, a.env.eventId), d);
    if alarms != [] { assert ChainKey(alarms[0].key); }
  }

  /** A gate that stops a POST records no chain event. */
  lemma GateRecorded(cfg: Settings, db: Db, env: Envelope, now: Time, d: DeviceId)
    ensures var g := Verified(cfg, db, env, now);
      (NoChainEvents(g.db.events, d) <==> NoChainEvents(db.events, d)) && g.db.snapshots == db.snapshots
  {
    VerifiedFrame(cfg, db, env, now);
    EventRecorded(db.events, env.deviceId, "INVALID_SIGNATURE", BadSignatureKey(env.eventId), d);
    EventRecorded(db.events, env.deviceId, "REPLAY_ATTEMPT", ReplayKey(env.eventId), d);
  }

  /** Neither does a report of another kind. */
  lemma ApplyRecorded(cfg: Settings, db: Db, route: Route, env: Envelope, now: Time, d: DeviceId)
    requires !route.IntegrityRoute? && Apply(cfg, db, route, env, now).Some?
    ensures var after := Apply(cfg, db, route, env, now).value;
      (NoChainEvents(after.events, d) <==> NoChainEvents(db.events, d)) && after.snapshots == db.snapshots
  {
    if route.HeartbeatRoute? {
      AlarmsRecorded(db.events, env.deviceId, HeartbeatAlarms(db.devices[env.deviceId], env, env.body), d);
    } else if route.EventsRoute? {
      EventRecorded(db.events, env.deviceId, env.body.kind, NoticeKey(env.eventId), d);
    }
  }

  lemma OtherRecorded(cfg: Settings, db: Db, a: Action, d: DeviceId)
    requires !(Applies(cfg, db, a) && a.route.IntegrityRoute?)
    ensures NoChainEvents(Step(cfg, db, a).events, d) <==> NoChainEvents(db.events, d)
    ensures !a.PurgeAt? ==> Step(cfg, db, a).snapshots == db.snapshots
  {
    match a
    case Post(route, env, now) =>
      GateRecorded(cfg, db, env, now, d);
      var g := Verified(cfg, db, env, now);
      if g.Pass? && !route.IntegrityRoute? && Apply(cfg, g.db, route, env, now).Some? {
        ApplyRecorded(cfg, g.db, route, env, now, d);
      }
    case ReconcileAt(order, now) =>
      ReconcileQuiet(db, order, now, d);
      ReconcileFrame(db, order, now);
    case _ =>
  }

  // ------------------------------------------------------------ linked histories

  /** `b` is a valid next report after `previous`. */
  ghost predicate Follows(cfg: Settings, previous: Option<IntegrityBody>, b: IntegrityBody) {
    && HasChain(b) && b.snapshotHash == Some(BodyHash(cfg, b))
    && (previous.Some? ==>
          && HasChain(previous.value) && b.stateId == previous.value.stateId
          && b.scanSequence.value > previous.value.scanSequence.value
          && b.previousHash == Some(BodyHash(cfg, previous.value)))
  }

  ghost predicate LinkedFrom(cfg: Settings, previous: Option<IntegrityBody>, history: seq<IntegrityBody>)
    decreases |history|
  {
    history == [] || (Follows(cfg, previous, history[0]) && LinkedFrom(cfg, Some(history[0]), history[1..]))
  }

  /** The stored snapshot of report `b`. */
  ghost predicate Stores(cfg: Settings, row: SnapshotRow, b: IntegrityBody) {
    && HasChain(b) && row.stateId == b.stateId && row.scanSequence == b.scanSequence
    && row.snapshotHash == Some(BodyHash(cfg, b))
  }

  ghost predicate LatestIs(cfg: Settings, db: Db, d: DeviceId, previous: Option<IntegrityBody>) {
    var latest := Latest(db.snapshots, d);
    if previous.None? then latest.None? else latest.Some? && Stores(cfg, latest.value, previous.value)
  }

  lemma AuditExact(cfg: Settings, row: Option<SnapshotRow>, previous: Option<IntegrityBody>, b: IntegrityBody,
                   event: EventId)
    requires HasChain(b)
    requires if previous.None? then row.None? else row.Some? && Stores(cfg, row.value, previous.value)
    ensures ChainAlarms(cfg, row, b, event) == [] <==> Follows(cfg, previous, b)
  {
  }

  ghost predicate Complete(history: seq<IntegrityBody>) {
    forall i :: 0 <= i < |history| ==> HasChain(history[i])
  }

  /** A purge at `now` keeps the latest snapshot of the device, if there is one. */
  ghost predicate SparesLatest(cfg: Settings, db: Db, now: Time, d: DeviceId) {
    Latest(db.snapshots, d).Some? ==> Latest(db.snapshots, d).value.at >= now - AtLeastOne(cfg.integrityDays) * DAY
  }

  /** Purges may remove whatever they like except the device's latest snapshot. */
  ghost predicate KeepsLatest(cfg: Settings, db: Db, actions: seq<Action>, d: DeviceId)
    decreases |actions|
  {
    actions == [] ||
      ((actions[0].PurgeAt? ==> SparesLatest(cfg, db, actions[0].now, d))
       && KeepsLatest(cfg, Step(cfg, db, actions[0]), actions[1..], d))
  }

  lemma KeptStep(cfg: Settings, db: Db, a: Action, d: DeviceId, t: Time)
    requires !RecordsReport(cfg, db, a, d) && StoredBefore(db.snapshots, d, t)
    requires a.PurgeAt? ==> SparesLatest(cfg, db, a.now, d)
    ensures Latest(Step(cfg, db, a).snapshots, d) == Latest(db.snapshots, d)
  {
    OtherStep(cfg, db, a, d, t);
    if a.PurgeAt? { LatestAfterPurge(db.snapshots, d, a.now - AtLeastOne(cfg.integrityDays) * DAY); }
  }

  lemma HistoryStep(cfg: Settings, db: Db, actions: seq<Action>, d: DeviceId)
    requires actions != []
    ensures History(cfg, db, actions, d)
      == (if RecordsReport(cfg, db, actions[0], d) then [actions[0].env.body.report] else [])
         + History(cfg, Step(cfg, db, actions[0]), actions[1..], d)
  {
  }

  /** What the run leaves behind: its audit was silent exactly if `history` is linked, and the last report is
      the latest snapshot. */
  ghost predicate Audited(cfg: Settings, db: Db, end: Db, d: DeviceId, previous: Option<IntegrityBody>,
                          history: seq<IntegrityBody>)
  {
    && (NoChainEvents(end.events, d) <==> NoChainEvents(db.events, d) && LinkedFrom(cfg, previous, history))
    && LatestIs(cfg, end, d, if history == [] then previous else Some(history[|history| - 1]))
  }

  lemma LinkedFirst(cfg: Settings, previous: Option<IntegrityBody>, b: IntegrityBody, tail: seq<IntegrityBody>)
    ensures LinkedFrom(cfg, previous, [b] + tail) <==> Follows(cfg, previous, b) && LinkedFrom(cfg, Some(b), tail)
  {
    assert ([b] + tail)[0] == b && ([b] + tail)[1..] == tail;
  }

  lemma AuditedFirst(cfg: Settings, db: Db, next: Db, end: Db, d: DeviceId, previous: Option<IntegrityBody>,
                     b: IntegrityBody, tail: seq<IntegrityBody>)
    requires NoChainEvents(next.events, d) <==> NoChainEvents(db.events, d) && Follows(cfg, previous, b)
    requires Audited(cfg, next, end, d, Some(b), tail)
    ensures Audited(cfg, db, end, d, previous, [b] + tail)
  {
    LinkedFirst(cfg, previous, b, tail);
  }

  lemma RecordedFirst(cfg: Settings, db: Db, a: Action, d: DeviceId, previous: Option<IntegrityBody>)
    requires RecordsReport(cfg, db, a, d) && LatestIs(cfg, db, d, previous) && HasChain(a.env.body.report)
    ensures NoChainEvents(Step(cfg, db, a).events, d)
      <==> NoChainEvents(db.events, d) && Follows(cfg, previous, a.env.body.report)
  {
    IntegrityRecorded(cfg, db, a, d);
    AuditExact(cfg, Latest(db.snapshots, d), previous, a.env.body.report, a.env.eventId);
  }

  lemma StoredNext(cfg: Settings, db: Db, a: Action, d: DeviceId, t: Time)
    requires RecordsReport(cfg, db, a, d) && StoredBefore(db.snapshots, d, t) && t <= a.now
      && HasChain(a.env.body.report)
    ensures StoredBefore(Step(cfg, db, a).snapshots, d, a.now)
    ensures LatestIs(cfg, Step(cfg, db, a), d, Some(a.env.body.report))
  {
    IntegrityRecorded(cfg, db, a, d);
    LatestAfterStore(db.snapshots, SnapshotOf(cfg, a.env, a.env.body.report, a.now), d);
  }

  lemma CompleteTail(b: IntegrityBody, tail: seq<IntegrityBody>)
    requires Complete([b] + tail)
    ensures HasChain(b) && Complete(tail)
  {
    var all := [b] + tail;
    assert HasChain(all[0]);
    forall i | 0 <= i < |tail| ensures HasChain(tail[i]) {
      assert tail[i] == all[i + 1];
    }
  }

  /** As long as the latest snapshot is kept, the audit stays silent exactly on linked histories. */
  lemma {:induction false} QuietExactlyLinked(cfg: Settings, db: Db, actions: seq<Action>, d: DeviceId,
                                              previous: Option<IntegrityBody>, t: Time, history: seq<IntegrityBody>)
    requires ClockFrom(actions, t) && StoredBefore(db.snapshots, d, t) && KeepsLatest(cfg, db, actions, d)
    requires LatestIs(cfg, db, d, previous) && history == History(cfg, db, actions, d) && Complete(history)
    ensures Audited(cfg, db, RunDb(cfg, db, actions), d, previous, history)
    decreases |actions|
  {
    if actions != [] {
      var a := actions[0];
      var next, tail := Step(cfg, db, a), History(cfg, Step(cfg, db, a), actions[1..], d);
      HistoryStep(cfg, db, actions, d);
      if RecordsReport(cfg, db, a, d) {
        CompleteTail(a.env.body.report, tail);
        StoredNext(cfg, db, a, d, t);
        QuietExactlyLinked(cfg, next, actions[1..], d, Some(a.env.body.report), a.now, tail);
        RecordedFirst(cfg, db, a, d, previous);
        AuditedFirst(cfg, db, next, RunDb(cfg, next, actions[1..]), d, previous, a.env.body.report, tail);
      } else {
        assert history == tail;
        OtherStep(cfg, db, a, d, t);
        KeptStep(cfg, db, a, d, t);
        QuietExactlyLinked(cfg, next, actions[1..], d, previous, if a.Register? then t else a.now, tail);
      }
    }
  }

  /** A step that stores no report of `d` and purges nothing. */
  lemma OtherStep(cfg: Settings, db: Db, a: Action, d: DeviceId, t: Time)
    requires !RecordsReport(cfg, db, a, d) && StoredBefore(db.snapshots, d, t)
    ensures NoChainEvents(Step(cfg, db, a).events, d) <==> NoChainEvents(db.events, d)
    ensures StoredBefore(Step(cfg, db, a).snapshots, d, t)
    ensures !a.PurgeAt? ==> Latest(Step(cfg, db, a).snapshots, d) == Latest(db.snapshots, d)
    ensures Latest(Step(cfg, db, a).snapshots, d) in {Latest(db.snapshots, d), None}
  {
    if Applies(cfg, db, a) && a.route.IntegrityRoute? {
      IntegrityRecorded(cfg, db, a, d);
      LatestAfterStore(db.snapshots, SnapshotOf(cfg, a.env, a.env.body.report, a.now), d);
    } else {
      OtherRecorded(cfg, db, a, d);
      if a.PurgeAt? {
        var cutoff := a.now - AtLeastOne(cfg.integrityDays) * DAY;
        LatestAfterPurge(db.snapshots, d, cutoff);
        KeepStoredBefore(db.snapshots, d, t, cutoff);
      }
    }
  }

  lemma AuditQuiet(cfg: Settings, row: Option<SnapshotRow>, previous: Option<IntegrityBody>, b: IntegrityBody,
                   event: EventId)
    requires Follows(cfg, previous, b)
    requires row.Some? ==> previous.Some? && Stores(cfg, row.value, previous.value)
    ensures ChainAlarms(cfg, row, b, event) == []
  {
  }

  /** A linked history raises no chain event, whatever is purged in between. */
  lemma {:induction false} LinkedStaysQuiet(cfg: Settings, db: Db, actions: seq<Action>, d: DeviceId,
                                            previous: Option<IntegrityBody>, t: Time)
    requires ClockFrom(actions, t) && StoredBefore(db.snapshots, d, t)
    requires Latest(db.snapshots, d).Some? ==> LatestIs(cfg, db, d, previous)
    requires LinkedFrom(cfg, previous, History(cfg, db, actions, d)) && NoChainEvents(db.events, d)
    ensures NoChainEvents(RunDb(cfg, db, actions).events, d)
    decreases |actions|
  {
    if actions != [] {
      var a, rest := actions[0], actions[1..];
      var next, history := Step(cfg, db, a), History(cfg, db, actions, d);
      var tail := History(cfg, next, rest, d);
      if RecordsReport(cfg, db, a, d) {
        IntegrityRecorded(cfg, db, a, d);
        var b := a.env.body.report;
        assert history == [b] + tail && history[1..] == tail;
        LatestAfterStore(db.snapshots, SnapshotOf(cfg, a.env, b, a.now), d);
        AuditQuiet(cfg, Latest(db.snapshots, d), previous, b, a.env.eventId);
        LinkedStaysQuiet(cfg, next, rest, d, Some(b), a.now);
      } else {
        assert history == tail;
        OtherStep(cfg, db, a, d, t);
        LinkedStaysQuiet(cfg, next, rest, d, previous, if a.Register? then t else a.now);
      }
    }
  }

  // ------------------------------------------------------------ commitment

  lemma {:induction false} LinkedAt(cfg: Settings, previous: Option<IntegrityBody>, history: seq<IntegrityBody>, i: nat)
    requires LinkedFrom(cfg, previous, history) && i < |history|
    ensures Follows(cfg, if i == 0 then previous else Some(history[i - 1]), history[i])
    decreases i
  {
    if i > 0 {
      LinkedAt(cfg, Some(history[0]), history[1..], i - 1);
    }
  }

  lemma {:induction false} ScansIncrease(cfg: Settings, previous: Option<IntegrityBody>, history: seq<IntegrityBody>,
                                         i: nat, j: nat)
    requires LinkedFrom(cfg, previous, history) && i < j < |history|
    ensures HasChain(history[i]) && HasChain(history[j])
    ensures history[i].scanSequence.value < history[j].scanSequence.value && history[i].stateId == history[j].stateId
    decreases j
  {
    LinkedAt(cfg, previous, history, i);
    LinkedAt(cfg, previous, history, j);
    if i < j - 1 { ScansIncrease(cfg, previous, history, i, j - 1); }
  }

  /** Reports `h` with the digests `hashes`, each naming its predecessor's digest. */
  ghost predicate BackLinked(h: seq<IntegrityBody>, hashes: seq<string>) {
    && |h| == |hashes| && Complete(h)
    && (forall i :: 0 <= i < |hashes| ==> hashes[i] != "")
    && (forall i :: 0 < i < |h| ==> h[i].previousHash == Some(hashes[i - 1]))
  }

  /** Equal digests in the two lists belong to equal links. */
  ghost predicate Commit(h: seq<IntegrityBody>, hashes: seq<string>, g: seq<IntegrityBody>, others: seq<string>)
    requires Complete(h) && Complete(g) && |hashes| == |h| && |others| == |g|
  {
    forall i, j :: 0 <= i < |h| && 0 <= j < |g| && hashes[i] == others[j] ==> BodyLink(h[i]) == BodyLink(g[j])
  }

  /** Equal digests force equal reports, and the back-links in them equal digests one step earlier. */
  lemma {:induction false} SameTail(h: seq<IntegrityBody>, hashes: seq<string>, g: seq<IntegrityBody>,
                                    others: seq<string>, k: nat)
    requires BackLinked(h, hashes) && BackLinked(g, others) && k < |h| <= |g|
    requires Commit(h, hashes, g, others)
    requires hashes[|h| - 1] == others[|g| - 1]
    ensures hashes[|h| - 1 - k] == others[|g| - 1 - k]
    ensures BodyLink(h[|h| - 1 - k]) == BodyLink(g[|g| - 1 - k])
  {
    if k > 0 {
      SameTail(h, hashes, g, others, k - 1);
      assert h[|h| - k].previousHash == Some(hashes[|h| - 1 - k]);
      assert g[|g| - k].previousHash == Some(others[|g| - 1 - k]);
    }
  }

  ghost function Hashes(cfg: Settings, h: seq<IntegrityBody>): (r: seq<string>)
    requires Complete(h)
    ensures |r| == |h| && forall i :: 0 <= i < |h| ==> r[i] == BodyHash(cfg, h[i])
  {
    seq(|h|, i requires 0 <= i < |h| => BodyHash(cfg, h[i]))
  }

  lemma LinkedBackLinks(cfg: Settings, previous: Option<IntegrityBody>, h: seq<IntegrityBody>)
    requires HexOutput(cfg.sha) && LinkedFrom(cfg, previous, h) && Complete(h)
    ensures BackLinked(h, Hashes(cfg, h))
  {
    forall i | 0 <= i < |h| ensures BodyHash(cfg, h[i]) != "" {
      assert IsHex(BodyHash(cfg, h[i]));
    }
    forall i | 0 < i < |h| ensures h[i].previousHash == Some(BodyHash(cfg, h[i - 1])) {
      LinkedAt(cfg, previous, h, i);
    }
  }

  lemma HashesCommit(cfg: Settings, h: seq<IntegrityBody>, g: seq<IntegrityBody>)
    requires CollisionFree(cfg.sha) && Complete(h) && Complete(g)
    ensures Commit(h, Hashes(cfg, h), g, Hashes(cfg, g))
  {
    forall i, j | 0 <= i < |h| && 0 <= j < |g| && BodyHash(cfg, h[i]) == BodyHash(cfg, g[j])
      ensures BodyLink(h[i]) == BodyLink(g[j])
    {
      LinkHashInjective(cfg.sha, Python, BodyLink(h[i]), Python, BodyLink(g[j]));
    }
  }

  lemma LinkedCommit(cfg: Settings, h: seq<IntegrityBody>, g: seq<IntegrityBody>, k: nat)
    requires Digest(cfg.sha) && LinkedFrom(cfg, None, h) && LinkedFrom(cfg, None, g) && Complete(h) && Complete(g)
    requires k < |h| <= |g| && BodyHash(cfg, h[|h| - 1]) == BodyHash(cfg, g[|g| - 1])
    ensures BodyLink(h[|h| - 1 - k]) == BodyLink(g[|g| - 1 - k])
  {
    LinkedBackLinks(cfg, None, h);
    LinkedBackLinks(cfg, None, g);
    HashesCommit(cfg, h, g);
    SameTail(h, Hashes(cfg, h), g, Hashes(cfg, g), k);
  }

  /** `h` is the complete history of device `d` in a run that keeps its latest snapshot and whose audit recorded
      no chain event. */
  ghost predicate QuietHistory(cfg: Settings, db: Db, actions: seq<Action>, d: DeviceId, t: Time,
                               h: seq<IntegrityBody>) {
    && ClockFrom(actions, t) && KeepsLatest(cfg, db, actions, d)
    && Latest(db.snapshots, d).None? && StoredBefore(db.snapshots, d, t)
    && h == History(cfg, db, actions, d) && Complete(h)
    && NoChainEvents(RunDb(cfg, db, actions).events, d)
  }

  /** `hash` is what the server stores last for device `d`. */
  ghost predicate StoredLast(cfg: Settings, db: Db, actions: seq<Action>, d: DeviceId, hash: Option<string>) {
    var latest := Latest(RunDb(cfg, db, actions).snapshots, d);
    latest.Some? && latest.value.snapshotHash == hash
  }

  lemma QuietHistoryLinked(cfg: Settings, db: Db, actions: seq<Action>, d: DeviceId, t: Time, h: seq<IntegrityBody>,
                           hash: Option<string>)
    requires QuietHistory(cfg, db, actions, d, t, h)
    ensures LinkedFrom(cfg, None, h) && Complete(h)
    ensures h != [] && StoredLast(cfg, db, actions, d, hash) ==> hash == Some(BodyHash(cfg, h[|h| - 1]))
  {
    QuietExactlyLinked(cfg, db, actions, d, None, t, h);
  }

  /** The stored hash of a quietly audited device commits to its whole history: if two devices, perhaps on
      two servers, end with equal stored hashes, the shorter history is a suffix of the longer. */
  lemma Commitment(cfg: Settings, db: Db, actions: seq<Action>, d: DeviceId, t: Time, h: seq<IntegrityBody>,
                   db': Db, actions': seq<Action>, d': DeviceId, t': Time, g: seq<IntegrityBody>,
                   hash: Option<string>, k: nat)
    requires Digest(cfg.sha)
    requires QuietHistory(cfg, db, actions, d, t, h) && StoredLast(cfg, db, actions, d, hash)
    requires QuietHistory(cfg, db', actions', d', t', g) && StoredLast(cfg, db', actions', d', hash)
    requires k < |h| <= |g|
    ensures BodyLink(h[|h| - 1 - k]) == BodyLink(g[|g| - 1 - k])
  {
    QuietHistoryLinked(cfg, db, actions, d, t, h, hash);
    QuietHistoryLinked(cfg, db', actions', d', t', g, hash);
    LinkedCommit(cfg, h, g, k);
  }

  /** Scan numbers of a quietly audited device strictly increase under one state identifier. */
  lemma QuietScansIncrease(cfg: Settings, db: Db, actions: seq<Action>, d: DeviceId, t: Time, h: seq<IntegrityBody>,
                           i: nat, j: nat)
    requires QuietHistory(cfg, db, actions, d, t, h) && i < j < |h|
    ensures h[i].scanSequence.value < h[j].scanSequence.value && h[i].stateId == h[j].stateId
  {
    QuietHistoryLinked(cfg, db, actions, d, t, h, None);
    ScansIncrease(cfg, None, h, i, j);
  }
}
