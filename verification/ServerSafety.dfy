/** Safety of the server for any clients and any interleaving of its transactions. */
module ServerSafety {
  import opened Server

  /** One transaction of the server. */
  datatype Action =
    | Post(route: Route, env: Envelope, now: Time)
    | PurgeAt(now: Time)
    | ReconcileAt(order: seq<DeviceId>, now: Time)
    | Register(id: DeviceId, key: PublicKey)

  ghost function Step(cfg: Settings, db: Db, a: Action): Db {
    match a
    case Post(route, env, now) => Handle(cfg, db, route, env, now).0
    case PurgeAt(now) => Purge(cfg, db, now)
    case ReconcileAt(order, now) => Reconcile(db, order, now)
    case Register(id, key) => if id in db.devices then db else Enroll(db, id, key)
  }

  ghost predicate Applies(cfg: Settings, db: Db, a: Action) {
    a.Post? && Handle(cfg, db, a.route, a.env, a.now).1 == Accepted(false)
  }

  ghost function RunDb(cfg: Settings, db: Db, actions: seq<Action>): Db
    decreases |actions|
  {
    if actions == [] then db else RunDb(cfg, Step(cfg, db, actions[0]), actions[1..])
  }

  /** The envelope that one transaction makes take effect. */
  ghost function Effect(cfg: Settings, db: Db, a: Action): seq<Envelope> {
    if Applies(cfg, db, a) then [a.env] else []
  }

  /** The envelopes that took effect, in order. */
  ghost function Applied(cfg: Settings, db: Db, actions: seq<Action>): seq<Envelope>
    decreases |actions|
  {
    if actions == [] then [] else Effect(cfg, db, actions[0]) + Applied(cfg, Step(cfg, db, actions[0]), actions[1..])
  }

  // ------------------------------------------------------------ what one transaction may change

  lemma VerifiedFrame(cfg: Settings, db: Db, env: Envelope, now: Time)
    ensures var g := Verified(cfg, db, env, now);
      && (g.Pass? ==>
            && env.deviceId in db.devices && env.sequence > db.devices[env.deviceId].lastSequence
            && SignatureOk(cfg.sha, db.devices[env.deviceId].key, env) && (env.deviceId, env.eventId) !in db.receipts
            && g.db.events == db.events && g.db.usage == db.usage
            && g.db.snapshots == db.snapshots && g.db.heartbeats == db.heartbeats)
      && (g.Stop? ==> g.response != Accepted(false) && g.response != Rejected && g.db.(events := db.events) == db)
  {
  }

  /** The devices and receipts after a report took effect. */
  ghost predicate Advanced(cfg: Settings, db: Db, after: Db, env: Envelope, now: Time) {
    && env.deviceId in db.devices && env.deviceId in after.devices
    && (env.deviceId, env.eventId) !in db.receipts
    && SignatureOk(cfg.sha, db.devices[env.deviceId].key, env)
    && db.devices[env.deviceId].lastSequence < env.sequence == after.devices[env.deviceId].lastSequence
    && after.devices.Keys == db.devices.Keys
    && after.devices[env.deviceId].key == db.devices[env.deviceId].key
    && (forall d :: d in db.devices && d != env.deviceId ==> after.devices[d] == db.devices[d])
    && after.receipts == db.receipts[(env.deviceId, env.eventId) := now]
  }

  /** A POST takes effect with a fresh receipt and a larger sequence number, or leaves everything
      but the audit events as it was; a rejection leaves everything. */
  lemma HandleFrame(cfg: Settings, db: Db, route: Route, env: Envelope, now: Time)
    ensures var (after, r) := Handle(cfg, db, route, env, now);
      && (r == Accepted(false) ==> Advanced(cfg, db, after, env, now))
      && (r != Accepted(false) ==> after.(events := db.events) == db)
      && (r in {Rejected, UnknownDevice, Accepted(true)} ==> after == db)
  {
    VerifiedFrame(cfg, db, env, now);
  }

  lemma ReconcileFrame(db: Db, order: seq<DeviceId>, now: Time)
    ensures Reconcile(db, order, now).(events := db.events) == db
    decreases |order|
  {
    if order != [] {
      var id := order[0];
      var next := if id in db.devices && Unreachable(db.devices[id], now)
        then db.(events := AddEvent(db.events, id, "AGENT_UNREACHABLE", UnreachableKey(db.devices[id].lastSeen.value)))
        else db;
      ReconcileFrame(next, order[1..], now);
    }
  }

  /** Devices are never removed, their keys never change and their sequence numbers never go back. */
  ghost predicate Grows(db: Db, after: Db) {
    forall d :: d in db.devices ==>
      d in after.devices && after.devices[d].key == db.devices[d].key
      && db.devices[d].lastSequence <= after.devices[d].lastSequence
  }

  lemma StepGrows(cfg: Settings, db: Db, a: Action)
    ensures Grows(db, Step(cfg, db, a))
  {
    match a
    case Post(route, env, now) => HandleFrame(cfg, db, route, env, now);
    case ReconcileAt(order, now) => ReconcileFrame(db, order, now);
    case _ =>
  }

  // ------------------------------------------------------------ sequence numbers

  /** The envelopes of a run are that of its first transaction, if it had an effect, and those of the others. */
  lemma AppliedAt(cfg: Settings, db: Db, actions: seq<Action>, l: seq<Envelope>, rest: seq<Envelope>, k: nat)
    requires l == Applied(cfg, db, actions) && k < |l| && rest == Applied(cfg, Step(cfg, db, actions[0]), actions[1..])
    ensures Applies(cfg, db, actions[0]) ==>
      |l| == |rest| + 1 && l[k] == if k == 0 then actions[0].env else rest[k - 1]
    ensures !Applies(cfg, db, actions[0]) ==> l == rest
  {
  }

  lemma EffectAdvances(cfg: Settings, db: Db, a: Action)
    requires Applies(cfg, db, a)
    ensures a.env.deviceId in db.devices && a.env.deviceId in Step(cfg, db, a).devices
    ensures db.devices[a.env.deviceId].lastSequence < a.env.sequence
      == Step(cfg, db, a).devices[a.env.deviceId].lastSequence
  {
    HandleFrame(cfg, db, a.route, a.env, a.now);
  }

  lemma {:induction false} AppliedAbove(cfg: Settings, db: Db, actions: seq<Action>, l: seq<Envelope>, k: nat)
    requires l == Applied(cfg, db, actions) && k < |l| && l[k].deviceId in db.devices
    ensures l[k].sequence > db.devices[l[k].deviceId].lastSequence
    decreases |actions|
  {
    var a := actions[0];
    var rest := Applied(cfg, Step(cfg, db, a), actions[1..]);
    AppliedAt(cfg, db, actions, l, rest, k);
    if Applies(cfg, db, a) && k == 0 {
      EffectAdvances(cfg, db, a);
    } else {
      StepGrows(cfg, db, a);
      AppliedAbove(cfg, Step(cfg, db, a), actions[1..], rest, if Applies(cfg, db, a) then k - 1 else k);
    }
  }

  /** After a report took effect, the later ones of its device have larger numbers. */
  lemma AppliedAfter(cfg: Settings, db: Db, actions: seq<Action>, rest: seq<Envelope>, k: nat)
    requires actions != [] && Applies(cfg, db, actions[0])
      && rest == Applied(cfg, Step(cfg, db, actions[0]), actions[1..])
    requires k < |rest| && rest[k].deviceId == actions[0].env.deviceId
    ensures actions[0].env.sequence < rest[k].sequence
  {
    EffectAdvances(cfg, db, actions[0]);
    AppliedAbove(cfg, Step(cfg, db, actions[0]), actions[1..], rest, k);
  }

  /** Whatever the clients send and however the transactions interleave with each other, with purges and with
      registrations, the reports of a device take effect in strictly increasing sequence order. */
  lemma {:induction false} AppliedIncreasing(cfg: Settings, db: Db, actions: seq<Action>, l: seq<Envelope>,
                                             i: nat, j: nat)
    requires l == Applied(cfg, db, actions) && i < j < |l| && l[i].deviceId == l[j].deviceId
    ensures l[i].sequence < l[j].sequence
    decreases |actions|
  {
    var after := Step(cfg, db, actions[0]);
    var rest := Applied(cfg, after, actions[1..]);
    AppliedAt(cfg, db, actions, l, rest, i);
    AppliedAt(cfg, db, actions, l, rest, j);
    if !Applies(cfg, db, actions[0]) {
      AppliedIncreasing(cfg, after, actions[1..], rest, i, j);
    } else if i == 0 {
      AppliedAfter(cfg, db, actions, rest, j - 1);
    } else {
      AppliedIncreasing(cfg, after, actions[1..], rest, i - 1, j - 1);
    }
  }

  /** No report takes effect twice, not even after its receipt was purged. */
  lemma NeverAppliedTwice(cfg: Settings, db: Db, actions: seq<Action>, l: seq<Envelope>, i: nat, j: nat)
    requires l == Applied(cfg, db, actions) && i < j < |l|
    ensures l[i] != l[j]
  {
    if l[i] == l[j] {
      AppliedIncreasing(cfg, db, actions, l, i, j);
    }
  }

  // ------------------------------------------------------------ audit events

  /** At most one row per device and key. */
  ghost predicate UniqueEvents(events: seq<SecurityEvent>) {
    forall i, j :: 0 <= i < j < |events| ==> events[i].device != events[j].device || events[i].key != events[j].key
  }

  /** The audit trail is append-only and stays free of repetitions. */
  ghost predicate Extends(events: seq<SecurityEvent>, after: seq<SecurityEvent>) {
    events <= after && (UniqueEvents(events) ==> UniqueEvents(after))
  }

  lemma AddEventExtends(events: seq<SecurityEvent>, device: DeviceId, kind: string, key: EventKey)
    ensures Extends(events, AddEvent(events, device, kind, key))
    ensures HasEvent(AddEvent(events, device, kind, key), device, key)
  {
    var after := AddEvent(events, device, kind, key);
    if !HasEvent(events, device, key) {
      assert after[|events|].device == device && after[|events|].key == key;
    }
  }

  lemma ExtendsTransitive(a: seq<SecurityEvent>, b: seq<SecurityEvent>, c: seq<SecurityEvent>)
    requires Extends(a, b) && Extends(b, c)
    ensures Extends(a, c)
  {
  }

  lemma {:induction false} AddAlarmsExtends(events: seq<SecurityEvent>, device: DeviceId, alarms: seq<Alarm>)
    ensures Extends(events, AddAlarms(events, device, alarms))
    decreases |alarms|
  {
    if alarms != [] {
      var next := AddEvent(events, device, alarms[0].kind, alarms[0].key);
      AddEventExtends(events, device, alarms[0].kind, alarms[0].key);
      AddAlarmsExtends(next, device, alarms[1..]);
      ExtendsTransitive(events, next, AddAlarms(events, device, alarms));
    }
  }

  lemma ApplyExtends(cfg: Settings, db: Db, route: Route, env: Envelope, now: Time)
    requires Apply(cfg, db, route, env, now).Some?
    ensures Extends(db.events, Apply(cfg, db, route, env, now).value.events)
  {
    match route
    case HeartbeatRoute =>
      AddAlarmsExtends(db.events, env.deviceId, HeartbeatAlarms(db.devices[env.deviceId], env, env.body));
    case UsageRoute =>
    case IntegrityRoute =>
      var b := env.body.report;
      var alarms := ChainAlarms(cfg, Latest(db.snapshots, env.deviceId), b, env.eventId);
      var audited := AddAlarms(db.events, env.deviceId, alarms);
      AddAlarmsExtends(db.events, env.deviceId, alarms);
      AddAlarmsExtends(audited, env.deviceId, FindingAlarms(b.findings, env.eventId));
      ExtendsTransitive(db.events, audited, AddAlarms(audited, env.deviceId, FindingAlarms(b.findings, env.eventId)));
    case EventsRoute =>
      AddEventExtends(db.events, env.deviceId, env.body.kind, NoticeKey(env.eventId));
  }

  lemma HandleExtends(cfg: Settings, db: Db, route: Route, env: Envelope, now: Time)
    ensures Extends(db.events, Handle(cfg, db, route, env, now).0.events)
  {
    VerifiedFrame(cfg, db, env, now);
    AddEventExtends(db.events, env.deviceId, "INVALID_SIGNATURE", BadSignatureKey(env.eventId));
    AddEventExtends(db.events, env.deviceId, "REPLAY_ATTEMPT", ReplayKey(env.eventId));
    var g := Verified(cfg, db, env, now);
    if g.Pass? && Apply(cfg, g.db, route, env, now).Some? {
      ApplyExtends(cfg, g.db, route, env, now);
    }
  }

  lemma {:induction false} ReconcileExtends(db: Db, order: seq<DeviceId>, now: Time)
    ensures Extends(db.events, Reconcile(db, order, now).events)
    decreases |order|
  {
    if order != [] {
      var id := order[0];
      if id in db.devices && Unreachable(db.devices[id], now) {
        var key := UnreachableKey(db.devices[id].lastSeen.value);
        var next := db.(events := AddEvent(db.events, id, "AGENT_UNREACHABLE", key));
        AddEventExtends(db.events, id, "AGENT_UNREACHABLE", key);
        ReconcileExtends(next, order[1..], now);
        ExtendsTransitive(db.events, next.events, Reconcile(next, order[1..], now).events);
      } else {
        ReconcileExtends(db, order[1..], now);
      }
    }
  }

  lemma StepExtends(cfg: Settings, db: Db, a: Action)
    ensures Extends(db.events, Step(cfg, db, a).events)
  {
    match a
    case Post(route, env, now) => HandleExtends(cfg, db, route, env, now);
    case ReconcileAt(order, now) => ReconcileExtends(db, order, now);
    case _ =>
  }

  /** Over every run no audit event is lost, reordered or repeated. */
  lemma {:induction false} AuditTrail(cfg: Settings, db: Db, actions: seq<Action>)
    ensures db.events <= RunDb(cfg, db, actions).events
    ensures UniqueEvents(db.events) ==> UniqueEvents(RunDb(cfg, db, actions).events)
    decreases |actions|
  {
    if actions != [] {
      var next := Step(cfg, db, actions[0]);
      StepExtends(cfg, db, actions[0]);
      AuditTrail(cfg, next, actions[1..]);
      ExtendsTransitive(db.events, next.events, RunDb(cfg, next, actions[1..]).events);
    }
  }

  // ------------------------------------------------------------ usage rows

  /** One row per device, source and day. */
  ghost predicate UniqueCells(rows: seq<UsageRow>) {
    forall i, j :: 0 <= i < j < |rows| ==> !SameCell(rows[j], rows[i].device, rows[i].source, rows[i].day.date)
  }

  lemma UpsertUnique(rows: seq<UsageRow>, row: UsageRow)
    requires UniqueCells(rows)
    ensures UniqueCells(Upsert(rows, row))
  {
    var i := FindCell(rows, row.device, row.source, row.day.date);
  }

  lemma {:induction false} UpsertDaysUnique(rows: seq<UsageRow>, env: Envelope, source: Source,
                                            days: seq<UsageDay>, i: nat)
    requires i <= |days| && UniqueCells(rows)
    ensures UniqueCells(UpsertDays(rows, env, source, days, i))
    decreases |days| - i
  {
    if i < |days| {
      UpsertUnique(rows, UsageRowOf(env, source, days[i], i));
      UpsertDaysUnique(Upsert(rows, UsageRowOf(env, source, days[i], i)), env, source, days, i + 1);
    }
  }

  lemma {:induction false} UsageStaysUnique(cfg: Settings, db: Db, actions: seq<Action>)
    requires UniqueCells(db.usage)
    ensures UniqueCells(RunDb(cfg, db, actions).usage)
    decreases |actions|
  {
    if actions != [] {
      var a := actions[0];
      if a.Post? {
        HandleFrame(cfg, db, a.route, a.env, a.now);
        VerifiedFrame(cfg, db, a.env, a.now);
        if Applies(cfg, db, a) && a.route.UsageRoute? {
          UpsertDaysUnique(db.usage, a.env, a.env.body.source, a.env.body.days, 0);
        }
      } else if a.ReconcileAt? {
        ReconcileFrame(db, a.order, a.now);
      }
      UsageStaysUnique(cfg, Step(cfg, db, a), actions[1..]);
    }
  }
}
