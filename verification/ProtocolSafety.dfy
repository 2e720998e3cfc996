/** No honest agent is ever taken for a replayer: whatever is lost and wherever the process crashes, a report
    that took effect is answered as a duplicate when it is sent again. */
module ProtocolSafety {
  import opened Prelude
  import opened CanonicalTheorems
  import opened SignedMessage
  import opened Server
  import opened ServerSafety
  import opened SignatureGate
  import opened Queue
  import opened Protocol

  // ------------------------------------------------------------ audit events of one transaction

  /** Everything in `after` that is not in `events` was raised for `device` and is not a replay alarm. */
  ghost predicate AddsFor(events: seq<SecurityEvent>, after: seq<SecurityEvent>, device: DeviceId) {
    forall e :: e in after ==> e in events || (e.device == device && !e.key.ReplayKey?)
  }

  lemma {:induction false} AlarmsAddFor(events: seq<SecurityEvent>, device: DeviceId, alarms: seq<Alarm>)
    requires forall i :: 0 <= i < |alarms| ==> !alarms[i].key.ReplayKey?
    ensures AddsFor(events, AddAlarms(events, device, alarms), device)
    decreases |alarms|
  {
    if alarms != [] {
      AlarmsAddFor(AddEvent(events, device, alarms[0].kind, alarms[0].key), device, alarms[1..]);
    }
  }

  lemma ChainAlarmKeys(cfg: Settings, previous: Option<SnapshotRow>, b: IntegrityBody, event: EventId)
    ensures forall i :: 0 <= i < |ChainAlarms(cfg, previous, b, event)| ==>
      !ChainAlarms(cfg, previous, b, event)[i].key.ReplayKey?
  {
  }

  lemma AddsTransitive(a: seq<SecurityEvent>, b: seq<SecurityEvent>, c: seq<SecurityEvent>, device: DeviceId)
    requires AddsFor(a, b, device) && AddsFor(b, c, device)
    ensures AddsFor(a, c, device)
  {
  }

  lemma ApplyAdds(cfg: Settings, db: Db, route: Route, env: Envelope, now: Time)
    requires Apply(cfg, db, route, env, now).Some?
    ensures AddsFor(db.events, Apply(cfg, db, route, env, now).value.events, env.deviceId)
  {
    match route
    case HeartbeatRoute =>
      AlarmsAddFor(db.events, env.deviceId, HeartbeatAlarms(db.devices[env.deviceId], env, env.body));
    case UsageRoute =>
    case IntegrityRoute =>
      var b := env.body.report;
      var alarms := ChainAlarms(cfg, Latest(db.snapshots, env.deviceId), b, env.eventId);
      var audited := AddAlarms(db.events, env.deviceId, alarms);
      ChainAlarmKeys(cfg, Latest(db.snapshots, env.deviceId), b, env.eventId);
      AlarmsAddFor(db.events, env.deviceId, alarms);
      AlarmsAddFor(audited, env.deviceId, FindingAlarms(b.findings, env.eventId));
      AddsTransitive(db.events, audited, AddAlarms(audited, env.deviceId, FindingAlarms(b.findings, env.eventId)),
                     env.deviceId);
    case EventsRoute =>
  }

  /** A POST raises events only for a device the server knows, and a replay alarm only with that answer. */
  lemma HandleAdds(cfg: Settings, db: Db, route: Route, env: Envelope, now: Time)
    ensures var (after, r) := Handle(cfg, db, route, env, now);
      && (env.deviceId !in db.devices ==> after.events == db.events)
      && (r == Replayed || AddsFor(db.events, after.events, env.deviceId))
      && (forall e :: e in after.events ==> e in db.events || e.device == env.deviceId)
  {
    VerifiedFrame(cfg, db, env, now);
    var g := Verified(cfg, db, env, now);
    if g.Pass? && Apply(cfg, g.db, route, env, now).Some? {
      ApplyAdds(cfg, g.db, route, env, now);
    }
  }

  lemma {:induction false} ReconcileAdds(db: Db, order: seq<DeviceId>, now: Time)
    ensures forall e :: e in Reconcile(db, order, now).events ==>
      e in db.events || (e.device in db.devices && !e.key.ReplayKey?)
    decreases |order|
  {
    if order != [] {
      var id := order[0];
      if id in db.devices && Unreachable(db.devices[id], now) {
        ReconcileAdds(db.(events := AddEvent(db.events, id, "AGENT_UNREACHABLE",
                                             UnreachableKey(db.devices[id].lastSeen.value))), order[1..], now);
      } else {
        ReconcileAdds(db, order[1..], now);
      }
    }
  }

  // ------------------------------------------------------------ the server's side of the invariant

  ghost predicate NoReplays(events: seq<SecurityEvent>, ours: set<DeviceId>) {
    forall e :: e in events && e.device in ours ==> !e.key.ReplayKey?
  }

  /** What the server holds about the agent's identities. */
  ghost predicate Registry(s: Setup, w: World) {
    && w.db.devices.Keys <= w.ids
    && (forall k :: k in w.db.receipts ==> k.0 in w.ids)
    && (forall e :: e in w.db.events ==> e.device in w.ids)
    && (forall d :: d in w.ours && d in w.db.devices ==> w.db.devices[d].key == s.key)
    && (forall k :: k in w.db.receipts && k.0 in w.ours ==> k.1 in w.drawn)
    && NoReplays(w.db.events, w.ours)
  }

  /** Event identifiers are never reused. */
  ghost predicate EventsOk(w: World) {
    && (forall x :: x in w.queue ==> x.envelope.eventId in w.drawn)
    && DistinctEvents(w.queue)
    && (w.phase.Signed? || w.phase.Saved? ==>
          w.phase.envelope.eventId in w.drawn && NewEvent(w.queue, w.phase.envelope.eventId))
  }

  function ReceiptLife(s: Setup): Time { AtLeastOne(s.cfg.receiptDays) * DAY }

  /** The receipt of an applied item is still there, or the item is too old to be sent again. */
  predicate Receipted(s: Setup, db: Db, now: Time, d: DeviceId, item: Item) {
    || ((d, item.envelope.eventId) in db.receipts && db.receipts[(d, item.envelope.eventId)] >= item.createdAt)
    || item.createdAt < now - ReceiptLife(s)
  }

  /** An item is either new to the server or the last thing it applied. */
  predicate ItemServed(s: Setup, db: Db, now: Time, d: DeviceId, item: Item)
    requires d in db.devices
  {
    var last := db.devices[d].lastSequence;
    && last <= item.envelope.sequence
    && (last < item.envelope.sequence ==> (d, item.envelope.eventId) !in db.receipts)
    && (last == item.envelope.sequence ==> Receipted(s, db, now, d, item))
  }

  ghost predicate CounterOk(s: Setup, w: World) {
    var d := w.disk.deviceId;
    d in w.db.devices ==>
      && w.db.devices[d].lastSequence < w.disk.nextSequence
      && (w.phase.Saved? ==> w.db.devices[d].lastSequence < w.phase.envelope.sequence)
      && (w.phase.Signed? || w.phase.Saved? ==> (d, w.phase.envelope.eventId) !in w.db.receipts)
      && forall i :: 0 <= i < |w.queue| ==> ItemServed(s, w.db, w.now, d, w.queue[i])
  }

  /** A new identity is untouched until it is saved, and the old one is gone. */
  ghost predicate RenewalOk(w: World) {
    && (w.phase.Stale? || w.phase.Registered? || w.phase.Cleared? ==> w.disk.deviceId !in w.db.devices)
    && (w.phase.Registered? || w.phase.Cleared? ==>
          && (w.phase.device in w.db.devices ==> w.db.devices[w.phase.device].lastSequence == 0)
          && forall k :: k in w.db.receipts ==> k.0 != w.phase.device)
  }

  ghost predicate ServerOk(s: Setup, w: World) {
    Registry(s, w) && EventsOk(w) && CounterOk(s, w) && RenewalOk(w)
  }

  // ------------------------------------------------------------ foreign activity

  /** A transaction that leaves the agent's identities alone, except that receipts expire. */
  ghost predicate Spares(s: Setup, w: World, db: Db) {
    && (forall d :: d in w.ours ==> (d in db.devices <==> d in w.db.devices))
    && (forall d :: d in w.ours && d in db.devices ==>
          db.devices[d].key == w.db.devices[d].key && db.devices[d].lastSequence == w.db.devices[d].lastSequence)
    && (forall k :: k in db.receipts && k.0 in w.ours ==> k in w.db.receipts && db.receipts[k] == w.db.receipts[k])
    && (forall k :: k in w.db.receipts && k.0 in w.ours ==>
        k in db.receipts || w.db.receipts[k] < w.now - ReceiptLife(s))
    && (forall e :: e in db.events ==>
        e in w.db.events || (e.device in w.db.devices && (e.device in w.ours ==> !e.key.ReplayKey?)))
    && (forall k :: k in db.receipts ==> k in w.db.receipts || k.0 in w.db.devices)
  }

  /** Another's signature, or the agent's under other fields, does not verify under the agent's key. */
  lemma ForeignRefused(s: Setup, w: World, a: Action)
    requires Digest(s.cfg.sha) && Foreign(s, w, a) && a.Post?
    ensures !SignatureOk(s.cfg.sha, s.key, a.env)
  {
    if Altered(s, a.env) && SignatureOk(s.cfg.sha, s.key, a.env) {
      var h :| SignedBy(s, h) && OneLineFields(h) && a.env.signature == h.signature && !SameFields(a.env, h);
      SignatureFixesFields(s.cfg.sha, s.key, h, a.env);
    }
  }

  lemma ForeignPostSpares(s: Setup, w: World, a: Action)
    requires Digest(s.cfg.sha) && Registry(s, w) && Foreign(s, w, a) && a.Post?
    ensures Spares(s, w, Step(s.cfg, w.db, a))
    ensures Step(s.cfg, w.db, a).devices.Keys == w.db.devices.Keys
  {
    HandleFrame(s.cfg, w.db, a.route, a.env, a.now);
    HandleAdds(s.cfg, w.db, a.route, a.env, a.now);
    var (after, r) := Handle(s.cfg, w.db, a.route, a.env, a.now);
    var d := a.env.deviceId;
    ForeignRefused(s, w, a);
  }

  lemma ForeignSpares(s: Setup, w: World, a: Action)
    requires Digest(s.cfg.sha) && Registry(s, w) && Foreign(s, w, a) && w.ours <= w.ids
    ensures Spares(s, w, Step(s.cfg, w.db, a))
    ensures Step(s.cfg, w.db, a).devices.Keys <= w.ids + (if a.Register? then {a.id} else {})
  {
    match a
    case Post(_, _, _) => ForeignPostSpares(s, w, a);
    case ReconcileAt(order, now) =>
      ReconcileFrame(w.db, order, now);
      ReconcileAdds(w.db, order, now);
    case _ =>
  }

  lemma SparesRegistry(s: Setup, w: World, db: Db, ids: set<DeviceId>)
    requires Registry(s, w) && Spares(s, w, db) && w.ids <= ids && db.devices.Keys <= ids
    ensures Registry(s, w.(db := db, ids := ids))
  {
  }

  lemma SparesItem(s: Setup, w: World, db: Db, item: Item)
    requires Spares(s, w, db) && w.disk.deviceId in w.ours && w.disk.deviceId in w.db.devices
    requires ItemServed(s, w.db, w.now, w.disk.deviceId, item)
    ensures ItemServed(s, db, w.now, w.disk.deviceId, item)
  {
    var k := (w.disk.deviceId, item.envelope.eventId);
    assert k.0 in w.ours;
  }

  lemma SparesCounter(s: Setup, w: World, db: Db, ids: set<DeviceId>)
    requires AgentOk(s, w) && CounterOk(s, w) && Spares(s, w, db)
    ensures CounterOk(s, w.(db := db, ids := ids))
  {
    var d := w.disk.deviceId;
    if d in w.db.devices {
      forall i | 0 <= i < |w.queue| ensures ItemServed(s, db, w.now, d, w.queue[i]) {
        SparesItem(s, w, db, w.queue[i]);
      }
      if w.phase.Signed? || w.phase.Saved? {
        var k := (d, w.phase.envelope.eventId);
        assert k.0 in w.ours;
      }
    }
  }

  lemma SparesRenewal(s: Setup, w: World, db: Db, ids: set<DeviceId>)
    requires AgentOk(s, w) && RenewalOk(w) && Spares(s, w, db)
    ensures RenewalOk(w.(db := db, ids := ids))
  {
  }

  lemma ElsewhereKeepsServer(s: Setup, w: World, m: Move)
    requires Digest(s.cfg.sha) && AgentOk(s, w) && ServerOk(s, w) && Enabled(s, w, m) && m.Elsewhere?
    ensures ServerOk(s, Do(s, w, m))
  {
    var a := m.action;
    var db, ids := Step(s.cfg, w.db, a), if a.Register? then w.ids + {a.id} else w.ids;
    ForeignSpares(s, w, a);
    SparesRegistry(s, w, db, ids);
    SparesCounter(s, w, db, ids);
    SparesRenewal(s, w, db, ids);
  }

  // ------------------------------------------------------------ the agent's own reports

  /** What the server answers to the head of the queue: it is refused as forged exactly if its payload is not
      plain, and a duplicate exactly if its number is the last applied one. */
  lemma HeadAnswer(s: Setup, w: World)
    requires Sound(s) && AgentOk(s, w) && ServerOk(s, w) && w.queue != [] && w.now <= w.lastPush + s.delay
    ensures var env := w.queue[0].envelope;
      var (db, r) := Handle(s.cfg, w.db, w.queue[0].route, env, w.now);
      && env.deviceId == w.disk.deviceId
      && r in {UnknownDevice, InvalidSignature, Accepted(true), Accepted(false), Rejected}
      && (r == UnknownDevice <==> env.deviceId !in w.db.devices)
      && (r == InvalidSignature <==> env.deviceId in w.db.devices && !Plain(env.payload))
      && (r == Accepted(false) ==> Advanced(s.cfg, w.db, db, env, w.now))
      && (r != Accepted(false) ==> db.(events := w.db.events) == w.db)
      && (r != Accepted(false) && r != InvalidSignature ==> db == w.db)
      && AnsweredByNumber(w, env, r)
  {
    var item := w.queue[0];
    assert ItemOk(s, w, item);
    HandleFrame(s.cfg, w.db, item.route, item.envelope, w.now);
    VerifiedFrame(s.cfg, w.db, item.envelope, w.now);
    if w.disk.deviceId in w.db.devices {
      assert ItemServed(s, w.db, w.now, w.disk.deviceId, item);
      HonestGate(s.cfg, w.db, item.route, item.envelope, w.now);
    }
  }

  /** The head is at or above the server's counter, and called a duplicate exactly if it is plain and at it. */
  predicate AnsweredByNumber(w: World, env: Envelope, r: Response) {
    env.deviceId in w.db.devices ==>
      && w.db.devices[env.deviceId].lastSequence <= env.sequence
      && (r == Accepted(true) <==> Plain(env.payload) && w.db.devices[env.deviceId].lastSequence == env.sequence)
  }

  /** A report that is not plain holds up the queue: it stays the head, whatever becomes of the answer, until it
      is too old for a later push. */
  lemma UnplainStays(s: Setup, w: World, heard: bool)
    requires Sound(s) && AgentOk(s, w) && ServerOk(s, w) && Enabled(s, w, SendHead(true, heard))
    requires w.queue[0].envelope.deviceId in w.db.devices && !Plain(w.queue[0].envelope.payload)
    ensures var after := Do(s, w, SendHead(true, heard));
      after.queue == w.queue && after.phase.Idle?
        && after.log == w.log + [Exchange(w.queue[0].envelope, InvalidSignature)]
  {
    HeadAnswer(s, w);
  }

  lemma AdvancedItem(s: Setup, w: World, db: Db, item: Item, i: nat)
    requires AgentOk(s, w) && EventsOk(w) && 0 < |w.queue| && i < |w.queue| && item == w.queue[0]
    requires item.envelope.deviceId == w.disk.deviceId && Advanced(s.cfg, w.db, db, item.envelope, w.now)
    requires ItemServed(s, w.db, w.now, w.disk.deviceId, w.queue[i])
    ensures ItemServed(s, db, w.now, w.disk.deviceId, w.queue[i])
  {
    assert ItemOk(s, w, item);
    if i > 0 {
      assert w.queue[i].envelope.eventId != item.envelope.eventId;
      assert w.queue[i].envelope.sequence > item.envelope.sequence;
    }
  }

  lemma AdvancedRegistry(s: Setup, w: World, db: Db, item: Item)
    requires Registry(s, w) && EventsOk(w) && w.queue != [] && item == w.queue[0] && w.disk.deviceId in w.ours
    requires item.envelope.deviceId == w.disk.deviceId && Advanced(s.cfg, w.db, db, item.envelope, w.now)
    requires AddsFor(w.db.events, db.events, w.disk.deviceId)
    ensures Registry(s, w.(db := db))
  {
  }

  lemma AppliedKeepsServer(s: Setup, w: World, db: Db, heard: bool)
    requires Sound(s) && AgentOk(s, w) && ServerOk(s, w) && w.phase.Idle? && w.queue != []
    requires w.queue[0].envelope.deviceId == w.disk.deviceId && Advanced(s.cfg, w.db, db, w.queue[0].envelope, w.now)
    requires AddsFor(w.db.events, db.events, w.disk.deviceId)
    ensures ServerOk(s, Answered(w, w.queue[0], db, Accepted(false), heard))
  {
    AdvancedRegistry(s, w, db, w.queue[0]);
    assert ItemOk(s, w, w.queue[0]);
    forall i | 0 <= i < |w.queue| ensures ItemServed(s, db, w.now, w.disk.deviceId, w.queue[i]) {
      AdvancedItem(s, w, db, w.queue[0], i);
    }
  }

  lemma UnchangedKeepsServer(s: Setup, w: World, response: Response, heard: bool)
    requires ServerOk(s, w) && AgentOk(s, w) && w.phase.Idle? && w.queue != []
    requires response == UnknownDevice ==> w.disk.deviceId !in w.db.devices
    ensures ServerOk(s, Answered(w, w.queue[0], w.db, response, heard))
  {
  }

  lemma RefusedSpares(s: Setup, w: World)
    requires Registry(s, w) && w.queue != [] && w.queue[0].envelope.deviceId in w.db.devices
    ensures var env := w.queue[0].envelope;
      Spares(s, w, w.db.(events := AddEvent(w.db.events, env.deviceId, "INVALID_SIGNATURE",
                                            BadSignatureKey(env.eventId))))
  {
  }

  lemma RefusedKeepsServer(s: Setup, w: World, db: Db, heard: bool)
    requires AgentOk(s, w) && ServerOk(s, w) && w.phase.Idle? && w.queue != [] && Spares(s, w, db)
    requires db.devices == w.db.devices
    ensures ServerOk(s, Answered(w, w.queue[0], db, InvalidSignature, heard))
  {
    SparesRegistry(s, w, db, w.ids);
    SparesCounter(s, w, db, w.ids);
    SparesRenewal(s, w, db, w.ids);
  }

  lemma SendKeepsServer(s: Setup, w: World, m: Move)
    requires Sound(s) && AgentOk(s, w) && ServerOk(s, w) && Enabled(s, w, m) && m.SendHead?
    ensures ServerOk(s, Do(s, w, m))
  {
    if m.arrives {
      HeadAnswer(s, w);
      var item := w.queue[0];
      var (db, r) := Handle(s.cfg, w.db, item.route, item.envelope, w.now);
      assert ItemOk(s, w, item);
      if r == Accepted(false) {
        HandleAdds(s.cfg, w.db, item.route, item.envelope, w.now);
        AppliedKeepsServer(s, w, db, m.heard);
      } else if r == InvalidSignature {
        HonestGate(s.cfg, w.db, item.route, item.envelope, w.now);
        RefusedSpares(s, w);
        RefusedKeepsServer(s, w, db, m.heard);
      } else {
        UnchangedKeepsServer(s, w, r, m.heard);
      }
    }
  }

  // ------------------------------------------------------------ the agent's local steps

  lemma PushKeepsEvents(s: Setup, w: World)
    requires EventsOk(w) && w.phase.Saved?
    ensures EventsOk(Internal(s, w, PushItem))
  {
    RetainedExactly(w.queue, w.now - s.retention);
    RetainedDistinct(w.queue, w.now - s.retention);
  }

  lemma PushKeepsCounter(s: Setup, w: World)
    requires CounterOk(s, w) && w.phase.Saved? && w.phase.envelope.deviceId == w.disk.deviceId
    ensures CounterOk(s, Internal(s, w, PushItem))
  {
    var w', d := Internal(s, w, PushItem), w.disk.deviceId;
    var kept := Retained(w.queue, w.now - s.retention);
    RetainedExactly(w.queue, w.now - s.retention);
    if d in w.db.devices {
      forall i | 0 <= i < |w'.queue| ensures ItemServed(s, w.db, w.now, d, w'.queue[i]) {
        if i < |kept| {
          assert kept[i] in w.queue;
          var k :| 0 <= k < |w.queue| && w.queue[k] == kept[i];
          assert ItemServed(s, w.db, w.now, d, w.queue[k]);
        }
      }
    }
  }

  lemma InternalKeepsRegistry(s: Setup, w: World, m: Move)
    requires AgentOk(s, w) && Registry(s, w) && Enabled(s, w, m) && !m.SendHead? && !m.Elsewhere?
    ensures Registry(s, Internal(s, w, m))
  {
  }

  lemma InternalKeepsEvents(s: Setup, w: World, m: Move)
    requires AgentOk(s, w) && EventsOk(w) && Enabled(s, w, m) && !m.SendHead? && !m.Elsewhere? && !m.PushItem?
    ensures EventsOk(Internal(s, w, m))
  {
  }

  lemma InternalKeepsRenewal(s: Setup, w: World, m: Move)
    requires AgentOk(s, w) && Registry(s, w) && RenewalOk(w) && Enabled(s, w, m) && !m.SendHead? && !m.Elsewhere?
    ensures RenewalOk(Internal(s, w, m))
  {
  }

  lemma InternalKeepsCounter(s: Setup, w: World, m: Move)
    requires AgentOk(s, w) && ServerOk(s, w) && Enabled(s, w, m) && !m.SendHead? && !m.Elsewhere? && !m.PushItem?
    ensures CounterOk(s, Internal(s, w, m))
  {
    var w', d := Internal(s, w, m), w.disk.deviceId;
    if d in w'.db.devices && !m.SaveIdentity? && !m.ResetServer? {
      forall i | 0 <= i < |w'.queue| ensures ItemServed(s, w'.db, w'.now, d, w'.queue[i]) {
        assert ItemServed(s, w.db, w.now, d, w.queue[if m.PopHead? then i + 1 else i]);
      }
    }
  }

  lemma InternalKeepsServer(s: Setup, w: World, m: Move)
    requires AgentOk(s, w) && ServerOk(s, w) && Enabled(s, w, m) && !m.SendHead? && !m.Elsewhere?
    ensures ServerOk(s, Do(s, w, m))
  {
    InternalKeepsRegistry(s, w, m);
    InternalKeepsRenewal(s, w, m);
    if m.PushItem? {
      PushKeepsEvents(s, w);
      PushKeepsCounter(s, w);
    } else {
      InternalKeepsEvents(s, w, m);
      InternalKeepsCounter(s, w, m);
    }
  }

  lemma DoKeepsServer(s: Setup, w: World, m: Move)
    requires Sound(s) && AgentOk(s, w) && ServerOk(s, w) && Enabled(s, w, m)
    ensures ServerOk(s, Do(s, w, m))
  {
    if m.SendHead? {
      SendKeepsServer(s, w, m);
    } else if m.Elsewhere? {
      ElsewhereKeepsServer(s, w, m);
    } else {
      InternalKeepsServer(s, w, m);
    }
  }

  // ------------------------------------------------------------ the answers the agent got

  /** Plain reports are never refused as forged, others always, and none is refused as replayed. */
  predicate Expected(x: Exchange) {
    || x.response.UnknownDevice?
    || (x.response.InvalidSignature? && !Plain(x.envelope.payload))
    || ((x.response.Accepted? || x.response.Rejected?) && Plain(x.envelope.payload))
  }

  /** Whatever took effect has a number that the server has passed. */
  ghost predicate AppliedPassed(log: seq<Exchange>, db: Db) {
    forall i :: 0 <= i < |log| && log[i].response == Accepted(false) && log[i].envelope.deviceId in db.devices ==>
      log[i].envelope.sequence <= db.devices[log[i].envelope.deviceId].lastSequence
  }

  /** An envelope that took effect once is a duplicate, or from a forgotten device, ever after. */
  ghost predicate RetriesKnown(log: seq<Exchange>) {
    forall i, j :: 0 <= i < j < |log| && log[i].envelope == log[j].envelope && log[i].response == Accepted(false) ==>
      log[j].response in {Accepted(true), UnknownDevice}
  }

  predicate TookEffect(log: seq<Exchange>, env: Envelope) { Exchange(env, Accepted(false)) in log }

  /** A report is called a duplicate only after it took effect. */
  ghost predicate DuplicatesTrue(log: seq<Exchange>) {
    forall j :: 0 <= j < |log| && log[j].response == Accepted(true) ==> TookEffect(log[..j], log[j].envelope)
  }

  /** A queued item whose number the server has reached took effect. */
  ghost predicate ReachedTrue(w: World) {
    w.disk.deviceId in w.db.devices ==>
      forall x :: x in w.queue && x.envelope.sequence == w.db.devices[w.disk.deviceId].lastSequence ==>
        TookEffect(w.log, x.envelope)
  }

  ghost predicate LogOk(w: World) {
    && (forall x :: x in w.log ==> x.envelope.deviceId in w.ours && Expected(x))
    && AppliedPassed(w.log, w.db) && RetriesKnown(w.log) && DuplicatesTrue(w.log) && ReachedTrue(w)
  }

  lemma PassedStays(w: World, w': World)
    requires LogOk(w) && w'.log == w.log
    requires forall d :: d in w.ours && d in w'.db.devices ==>
      d in w.db.devices && w'.db.devices[d].lastSequence == w.db.devices[d].lastSequence
    ensures AppliedPassed(w'.log, w'.db)
  {
    forall i | 0 <= i < |w'.log| && w'.log[i].response == Accepted(false)
      && w'.log[i].envelope.deviceId in w'.db.devices
      ensures w'.log[i].envelope.sequence <= w'.db.devices[w'.log[i].envelope.deviceId].lastSequence
    {
      assert w.log[i] in w.log;
    }
  }

  lemma PassedGrows(w: World, db: Db, r: Response)
    requires AppliedPassed(w.log, w.db) && w.queue != []
    requires forall d :: d in db.devices ==>
      d in w.db.devices && w.db.devices[d].lastSequence <= db.devices[d].lastSequence
    requires r == Accepted(false) ==> w.queue[0].envelope.deviceId in db.devices
    requires r == Accepted(false)
      ==> w.queue[0].envelope.sequence == db.devices[w.queue[0].envelope.deviceId].lastSequence
    ensures AppliedPassed(w.log + [Exchange(w.queue[0].envelope, r)], db)
  {
  }

  lemma RetriesGrow(w: World, r: Response)
    requires LogOk(w) && w.queue != [] && w.queue[0].envelope.deviceId == w.disk.deviceId
    requires AnsweredByNumber(w, w.queue[0].envelope, r)
    requires r == UnknownDevice <==> w.disk.deviceId !in w.db.devices
    requires Expected(Exchange(w.queue[0].envelope, r))
    ensures RetriesKnown(w.log + [Exchange(w.queue[0].envelope, r)])
    ensures DuplicatesTrue(w.log + [Exchange(w.queue[0].envelope, r)])
  {
    var log := w.log + [Exchange(w.queue[0].envelope, r)];
    assert log[..|w.log|] == w.log;
    forall j | 0 <= j < |w.log| ensures log[..j] == w.log[..j] {
    }
    assert w.queue[0] in w.queue;
    forall i | 0 <= i < |w.log| && w.log[i].response == Accepted(false) && w.log[i].envelope == w.queue[0].envelope
      ensures Plain(w.queue[0].envelope.payload)
    {
      assert w.log[i] in w.log;
    }
  }

  lemma ReachedGrows(s: Setup, w: World, db: Db, r: Response, heard: bool)
    requires AgentOk(s, w) && ReachedTrue(w) && w.queue != []
    requires w.disk.deviceId in db.devices ==>
      w.disk.deviceId in w.db.devices && db.devices[w.disk.deviceId].lastSequence
        == if r == Accepted(false) then w.queue[0].envelope.sequence else w.db.devices[w.disk.deviceId].lastSequence
    ensures ReachedTrue(Answered(w, w.queue[0], db, r, heard))
  {
  }

  lemma AnsweredKeepsLog(s: Setup, w: World, db: Db, r: Response, heard: bool)
    requires AgentOk(s, w) && LogOk(w) && w.queue != [] && w.queue[0].envelope.deviceId == w.disk.deviceId
    requires Expected(Exchange(w.queue[0].envelope, r))
    requires AnsweredByNumber(w, w.queue[0].envelope, r)
    requires r == UnknownDevice <==> w.disk.deviceId !in w.db.devices
    requires forall d :: d in db.devices ==>
      d in w.db.devices && w.db.devices[d].lastSequence <= db.devices[d].lastSequence
    requires w.disk.deviceId in db.devices ==>
      db.devices[w.disk.deviceId].lastSequence
        == if r == Accepted(false) then w.queue[0].envelope.sequence else w.db.devices[w.disk.deviceId].lastSequence
    requires r == Accepted(false) ==> w.disk.deviceId in db.devices
    ensures LogOk(Answered(w, w.queue[0], db, r, heard))
  {
    PassedGrows(w, db, r);
    RetriesGrow(w, r);
    ReachedGrows(s, w, db, r, heard);
  }

  lemma SendKeepsLog(s: Setup, w: World, m: Move)
    requires Sound(s) && AgentOk(s, w) && ServerOk(s, w) && LogOk(w) && Enabled(s, w, m) && m.SendHead?
    ensures LogOk(Do(s, w, m))
  {
    if m.arrives {
      var item := w.queue[0];
      HeadAnswer(s, w);
      var (db, r) := Handle(s.cfg, w.db, item.route, item.envelope, w.now);
      if item.envelope.deviceId in w.db.devices { assert ItemServed(s, w.db, w.now, w.disk.deviceId, item); }
      AnsweredKeepsLog(s, w, db, r, m.heard);
    }
  }

  lemma PushKeepsReached(s: Setup, w: World, w': World)
    requires CounterOk(s, w) && ReachedTrue(w) && w.phase.Saved? && w' == Internal(s, w, PushItem)
    ensures ReachedTrue(w')
  {
    RetainedExactly(w.queue, w.now - s.retention);
  }

  lemma InternalKeepsReached(s: Setup, w: World, m: Move)
    requires AgentOk(s, w) && RenewalOk(w) && CounterOk(s, w) && ReachedTrue(w)
    requires Enabled(s, w, m) && !m.SendHead? && !m.Elsewhere?
    ensures ReachedTrue(Internal(s, w, m))
  {
    if m.PushItem? { PushKeepsReached(s, w, Internal(s, w, m)); }
  }

  lemma InternalKeepsLog(s: Setup, w: World, m: Move)
    requires AgentOk(s, w) && ServerOk(s, w) && LogOk(w) && Enabled(s, w, m) && !m.SendHead? && !m.Elsewhere?
    ensures LogOk(Do(s, w, m))
  {
    PassedStays(w, Internal(s, w, m));
    InternalKeepsReached(s, w, m);
  }

  lemma ElsewhereKeepsLog(s: Setup, w: World, m: Move)
    requires Sound(s) && AgentOk(s, w) && ServerOk(s, w) && LogOk(w) && Enabled(s, w, m) && m.Elsewhere?
    ensures LogOk(Do(s, w, m))
  {
    ForeignSpares(s, w, m.action);
    PassedStays(w, Do(s, w, m));
  }

  lemma DoKeepsLog(s: Setup, w: World, m: Move)
    requires Sound(s) && AgentOk(s, w) && ServerOk(s, w) && LogOk(w) && Enabled(s, w, m)
    ensures LogOk(Do(s, w, m))
  {
    if m.SendHead? {
      SendKeepsLog(s, w, m);
    } else if m.Elsewhere? {
      ElsewhereKeepsLog(s, w, m);
    } else {
      InternalKeepsLog(s, w, m);
    }
  }

  /** The invariant of the whole system. */
  ghost predicate WorldOk(s: Setup, w: World) {
    AgentOk(s, w) && ServerOk(s, w) && LogOk(w)
  }

  lemma InitialOk(s: Setup, w: World)
    requires Initial(s, w)
    ensures WorldOk(s, w)
  {
  }

  lemma DoKeepsWorld(s: Setup, w: World, m: Move)
    requires Sound(s) && WorldOk(s, w) && Enabled(s, w, m)
    ensures WorldOk(s, Do(s, w, m))
  {
    DoKeepsAgent(s, w, m);
    DoKeepsServer(s, w, m);
    DoKeepsLog(s, w, m);
  }

  lemma {:induction false} RunKeepsWorld(s: Setup, w: World, moves: seq<Move>)
    requires Sound(s) && WorldOk(s, w) && Possible(s, w, moves)
    ensures WorldOk(s, Run(s, w, moves))
    decreases |moves|
  {
    if moves != [] {
      DoKeepsWorld(s, w, moves[0]);
      RunKeepsWorld(s, Do(s, w, moves[0]), moves[1..]);
    }
  }

  /** Over every run from enrollment no replay alarm is ever raised for an identity of the agent, no report of it
      is refused as replayed, and by a server that knows the device a report is refused as forged if and only if
      its payload is not plain. */
  lemma NeverTakenForReplayer(s: Setup, w: World, moves: seq<Move>, end: World)
    requires Sound(s) && Initial(s, w) && Possible(s, w, moves) && end == Run(s, w, moves)
    ensures forall e :: e in end.db.events && e.device in end.ours ==> !e.key.ReplayKey?
    ensures forall x :: x in end.log ==> x.response != Replayed
    ensures forall x :: x in end.log && x.response != UnknownDevice ==>
      (x.response == InvalidSignature <==> !Plain(x.envelope.payload))
  {
    InitialOk(s, w);
    RunKeepsWorld(s, w, moves);
  }

  /** Reports take effect exactly once: a report that did is answered as a duplicate ever after, or not
      recognised once the server lost the device, and only such a report is called a duplicate. */
  lemma ExactlyOnce(s: Setup, w: World, moves: seq<Move>, log: seq<Exchange>, j: nat)
    requires Sound(s) && Initial(s, w) && Possible(s, w, moves) && log == Run(s, w, moves).log && j < |log|
    ensures TookEffect(log[..j], log[j].envelope) ==> log[j].response in {Accepted(true), UnknownDevice}
    ensures log[j].response == Accepted(true) ==> TookEffect(log[..j], log[j].envelope)
  {
    InitialOk(s, w);
    RunKeepsWorld(s, w, moves);
    if TookEffect(log[..j], log[j].envelope) {
      var i :| 0 <= i < j && log[..j][i] == Exchange(log[j].envelope, Accepted(false));
      assert log[i].envelope == log[j].envelope;
    }
  }
}
