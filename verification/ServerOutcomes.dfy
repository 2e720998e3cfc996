/** What every transaction leaves behind, stated on the tables alone: which answer is given when, which alarms
    are raised and of which kind, and which rows are stored. */
module ServerOutcomes {
  import opened Prelude
  import opened CanonicalJson
  import opened Snapshot
  import opened Server
  import opened ServerSafety

  // ------------------------------------------------------------ alarms

  ghost predicate Alarmed(events: seq<SecurityEvent>, device: DeviceId, key: EventKey) {
    exists e :: e in events && e.device == device && e.key == key
  }

  /** The alarm is in the trail afterwards, with this kind unless it was there before; nothing else was added. */
  ghost predicate Raised(events: seq<SecurityEvent>, after: seq<SecurityEvent>, device: DeviceId, kind: string,
                         key: EventKey) {
    if Alarmed(events, device, key) then after == events else after == events + [SecurityEvent(device, kind, key)]
  }

  /** The alarm was raised if `cause` holds, with this kind unless it was there before, and not otherwise. */
  ghost predicate RaisedIf(events: seq<SecurityEvent>, after: seq<SecurityEvent>, device: DeviceId, kind: string,
                           key: EventKey, cause: bool) {
    && (Alarmed(after, device, key) <==> Alarmed(events, device, key) || cause)
    && (cause && !Alarmed(events, device, key) ==> SecurityEvent(device, kind, key) in after)
  }

  lemma EventRaised(events: seq<SecurityEvent>, device: DeviceId, kind: string, key: EventKey)
    ensures Raised(events, AddEvent(events, device, kind, key), device, kind, key)
    ensures HasEvent(events, device, key) <==> Alarmed(events, device, key)
  {
    if e :| e in events && e.device == device && e.key == key {
      var i :| 0 <= i < |events| && events[i] == e;
    }
  }

  /** One of `alarms` is this event of `device`. */
  ghost predicate From(alarms: seq<Alarm>, device: DeviceId, e: SecurityEvent) {
    exists i :: 0 <= i < |alarms| && e == SecurityEvent(device, alarms[i].kind, alarms[i].key)
  }

  lemma {:induction false} AlarmsAdded(events: seq<SecurityEvent>, device: DeviceId, alarms: seq<Alarm>)
    ensures events <= AddAlarms(events, device, alarms)
    ensures forall e :: e in AddAlarms(events, device, alarms) ==> e in events || From(alarms, device, e)
    ensures forall i :: 0 <= i < |alarms| ==> Alarmed(AddAlarms(events, device, alarms), device, alarms[i].key)
    decreases |alarms|
  {
    if alarms != [] {
      var next := AddEvent(events, device, alarms[0].kind, alarms[0].key);
      var after := AddAlarms(next, device, alarms[1..]);
      EventRaised(events, device, alarms[0].kind, alarms[0].key);
      AlarmsAdded(next, device, alarms[1..]);
      forall e | e in after ensures e in events || From(alarms, device, e) {
        if e !in next {
          var i :| 0 <= i < |alarms[1..]| && e == SecurityEvent(device, alarms[1..][i].kind, alarms[1..][i].key);
          assert e == SecurityEvent(device, alarms[i + 1].kind, alarms[i + 1].key);
        }
      }
      forall i | 0 <= i < |alarms| ensures Alarmed(after, device, alarms[i].key) {
        if i == 0 {
          assert Alarmed(next, device, alarms[0].key);
        } else {
          assert alarms[i] == alarms[1..][i - 1];
        }
      }
    }
  }

  /** The list holds this alarm if `cause` holds, and no alarm of that key otherwise or of another kind. */
  ghost predicate Lists(alarms: seq<Alarm>, kind: string, key: EventKey, cause: bool) {
    forall a :: (a in alarms && a.key == key) <==> (cause && a == Alarm(kind, key))
  }

  lemma ListedRaised(events: seq<SecurityEvent>, device: DeviceId, alarms: seq<Alarm>, kind: string, key: EventKey,
                     cause: bool)
    requires Lists(alarms, kind, key, cause)
    ensures RaisedIf(events, AddAlarms(events, device, alarms), device, kind, key, cause)
  {
    var after := AddAlarms(events, device, alarms);
    AlarmsAdded(events, device, alarms);
    if cause {
      assert Alarm(kind, key) in alarms;
      var i :| 0 <= i < |alarms| && alarms[i] == Alarm(kind, key);
      assert Alarmed(after, device, alarms[i].key);
    }
    if Alarmed(after, device, key) && !Alarmed(events, device, key) {
      var e :| e in after && e.device == device && e.key == key;
      var i :| 0 <= i < |alarms| && e == SecurityEvent(device, alarms[i].kind, alarms[i].key);
      assert alarms[i] in alarms;
    }
  }

  ghost predicate Appended(events: seq<SecurityEvent>, after: seq<SecurityEvent>, device: DeviceId,
                           alarms: seq<Alarm>)
  {
    && |after| == |events| + |alarms| && after[..|events|] == events
    && forall i :: 0 <= i < |alarms| ==> after[|events| + i] == SecurityEvent(device, alarms[i].kind, alarms[i].key)
  }

  lemma AppendedFirst(events: seq<SecurityEvent>, next: seq<SecurityEvent>, after: seq<SecurityEvent>,
                      device: DeviceId, alarms: seq<Alarm>)
    requires alarms != [] && next == events + [SecurityEvent(device, alarms[0].kind, alarms[0].key)]
    requires Appended(next, after, device, alarms[1..])
    ensures Appended(events, after, device, alarms)
  {
    assert after[..|events|] == after[..|next|][..|events|];
    assert after[|events|] == after[..|next|][|events|];
    forall i | 1 <= i < |alarms|
      ensures after[|events| + i] == SecurityEvent(device, alarms[i].kind, alarms[i].key)
    {
      assert alarms[1..][i - 1] == alarms[i] && after[|next| + (i - 1)] == after[|events| + i];
    }
  }

  /** Alarms under new and different keys are all stored, in their order. */
  lemma {:induction false} AlarmsAppended(events: seq<SecurityEvent>, device: DeviceId, alarms: seq<Alarm>)
    requires forall i, j :: 0 <= i < j < |alarms| ==> alarms[i].key != alarms[j].key
    requires forall i :: 0 <= i < |alarms| ==> !Alarmed(events, device, alarms[i].key)
    ensures Appended(events, AddAlarms(events, device, alarms), device, alarms)
    decreases |alarms|
  {
    if alarms != [] {
      var next := AddEvent(events, device, alarms[0].kind, alarms[0].key);
      EventRaised(events, device, alarms[0].kind, alarms[0].key);
      forall i | 0 <= i < |alarms[1..]| ensures !Alarmed(next, device, alarms[1..][i].key) {
        assert alarms[1..][i] == alarms[i + 1];
      }
      AlarmsAppended(next, device, alarms[1..]);
      AppendedFirst(events, next, AddAlarms(next, device, alarms[1..]), device, alarms);
    }
  }

  // ------------------------------------------------------------ the gate

  ghost predicate SignedFor(cfg: Settings, db: Db, env: Envelope) {
    && env.deviceId in db.devices
    && env.signature == Signature(db.devices[env.deviceId].key, ServerMessage(cfg.sha, env))
  }

  /** Which answer a request gets. */
  lemma AnswerExactly(cfg: Settings, db: Db, route: Route, env: Envelope, now: Time, after: Db, r: Response)
    requires IsRequest(cfg, env) && Handle(cfg, db, route, env, now) == (after, r)
    ensures r == UnknownDevice <==> env.deviceId !in db.devices
    ensures r == InvalidSignature <==> env.deviceId in db.devices && !SignedFor(cfg, db, env)
    ensures r == Accepted(true) <==> SignedFor(cfg, db, env) && (env.deviceId, env.eventId) in db.receipts
    ensures r == Replayed <==> SignedFor(cfg, db, env) && (env.deviceId, env.eventId) !in db.receipts
                               && env.sequence <= db.devices[env.deviceId].lastSequence
    ensures r in {Accepted(false), Rejected} <==> SignedFor(cfg, db, env) && (env.deviceId, env.eventId) !in db.receipts
                                                  && env.sequence > db.devices[env.deviceId].lastSequence
  {
  }

  /** A refused replay and a refused forgery leave an alarm of that report, and nothing else. */
  lemma RefusalAlarms(cfg: Settings, db: Db, route: Route, env: Envelope, now: Time, after: Db, r: Response)
    requires Handle(cfg, db, route, env, now) == (after, r)
    ensures r == Replayed ==>
      && after == db.(events := after.events) && Alarmed(after.events, env.deviceId, ReplayKey(env.eventId))
      && Raised(db.events, after.events, env.deviceId, "REPLAY_ATTEMPT", ReplayKey(env.eventId))
    ensures r == InvalidSignature ==>
      && after == db.(events := after.events) && Alarmed(after.events, env.deviceId, BadSignatureKey(env.eventId))
      && Raised(db.events, after.events, env.deviceId, "INVALID_SIGNATURE", BadSignatureKey(env.eventId))
    ensures r in {UnknownDevice, Accepted(true), Rejected} ==> after == db
  {
    VerifiedFrame(cfg, db, env, now);
    EventRaised(db.events, env.deviceId, "REPLAY_ATTEMPT", ReplayKey(env.eventId));
    EventRaised(db.events, env.deviceId, "INVALID_SIGNATURE", BadSignatureKey(env.eventId));
    AddEventExtends(db.events, env.deviceId, "REPLAY_ATTEMPT", ReplayKey(env.eventId));
    AddEventExtends(db.events, env.deviceId, "INVALID_SIGNATURE", BadSignatureKey(env.eventId));
  }

  /** The dates that the server accepts, as the agent writes them. */
  predicate DayText(s: string) {
    && |s| == 10 && s[4] == '-' && s[7] == '-'
    && forall i :: i in {0, 1, 2, 3, 5, 6, 8, 9} ==> '0' <= s[i] <= '9'
  }

  ghost predicate UsageFits(b: Body) {
    b.UsageBody? && |b.days| <= 400 && forall i :: 0 <= i < |b.days| ==> DayText(b.days[i].date)
  }

  /** A request that passes the gate is rejected exactly if its body is not what the route takes. */
  lemma RejectedExactly(cfg: Settings, db: Db, route: Route, env: Envelope, now: Time, after: Db, r: Response)
    requires IsRequest(cfg, env) && Handle(cfg, db, route, env, now) == (after, r) && r in {Accepted(false), Rejected}
    ensures route.HeartbeatRoute? ==>
      (r == Accepted(false) <==> env.body.HeartbeatBody? && env.body.complete && env.body.quotaOk)
    ensures route.UsageRoute? ==> (r == Accepted(false) <==> UsageFits(env.body))
    ensures route.IntegrityRoute? ==>
      (r == Accepted(false) <==> env.body.IntegrityReport? && IntegritySchema(env.body.report))
    ensures route.EventsRoute? ==>
      (r == Accepted(false) <==>
         env.body.NoticeBody? && env.body.detailsOk
         && env.body.kind in {"AGENT_UNINSTALL_REQUESTED", "SERVICE_STOPPED_OR_MODIFIED", "SERVICE_RESTART_FAILED"})
  {
    VerifiedFrame(cfg, db, env, now);
    if env.body.UsageBody? {
      forall i | 0 <= i < |env.body.days| ensures IsoDate(env.body.days[i].date) <==> DayText(env.body.days[i].date) {
      }
    }
  }

  // ------------------------------------------------------------ heartbeats

  ghost predicate HomeChanged(was: Device, b: Body)
    requires b.HeartbeatBody?
  {
    was.codexHome != "" && b.codexHome != was.codexHome && !b.autoDiscovered
  }

  ghost predicate ConfigChanged(was: Device, b: Body)
    requires b.HeartbeatBody?
  {
    was.fingerprint != "" && b.fingerprint != "" && b.fingerprint != was.fingerprint
  }

  lemma HeartbeatListed(was: Device, env: Envelope, b: Body, alarms: seq<Alarm>)
    requires b.HeartbeatBody? && alarms == HeartbeatAlarms(was, env, b)
    ensures Lists(alarms, "CODEX_HOME_CHANGED", CodexHomeKey(env.eventId), HomeChanged(was, b))
    ensures Lists(alarms, "TELEMETRY_CONFIG_CHANGED", ConfigKey(env.eventId), ConfigChanged(was, b))
    ensures Lists(alarms, "TELEMETRY_CONFIG_CHANGED", ConfigInvalidKey(env.eventId), !b.telemetryOk)
  {
  }

  predicate HeartbeatKey(key: EventKey, event: EventId) {
    key == CodexHomeKey(event) || key == ConfigKey(event) || key == ConfigInvalidKey(event)
  }

  lemma HeartbeatKeysOnly(was: Device, env: Envelope, b: Body, events: seq<SecurityEvent>, d: DeviceId)
    requires b.HeartbeatBody?
    ensures forall e :: e in AddAlarms(events, d, HeartbeatAlarms(was, env, b)) && e !in events ==>
      e.device == d && HeartbeatKey(e.key, env.eventId)
  {
    AlarmsAdded(events, d, HeartbeatAlarms(was, env, b));
  }

  lemma HeartbeatTrail(cfg: Settings, db: Db, env: Envelope, now: Time, after: Db)
    requires Handle(cfg, db, HeartbeatRoute, env, now) == (after, Accepted(false))
    ensures env.deviceId in db.devices && env.body.HeartbeatBody?
    ensures after.events == AddAlarms(db.events, env.deviceId, HeartbeatAlarms(db.devices[env.deviceId], env, env.body))
  {
    VerifiedFrame(cfg, db, env, now);
    assert HeartbeatAlarms(db.devices[env.deviceId], env, env.body)
      == HeartbeatAlarms(Verified(cfg, db, env, now).db.devices[env.deviceId], env, env.body);
  }

  /** An accepted heartbeat raises these alarms and no other. */
  lemma HeartbeatAlarmsExactly(cfg: Settings, db: Db, env: Envelope, now: Time, after: Db)
    requires Handle(cfg, db, HeartbeatRoute, env, now) == (after, Accepted(false))
    ensures env.deviceId in db.devices && env.body.HeartbeatBody?
    ensures var was, b, d := db.devices[env.deviceId], env.body, env.deviceId;
      && RaisedIf(db.events, after.events, d, "CODEX_HOME_CHANGED", CodexHomeKey(env.eventId), HomeChanged(was, b))
      && RaisedIf(db.events, after.events, d, "TELEMETRY_CONFIG_CHANGED", ConfigKey(env.eventId), ConfigChanged(was, b))
      && RaisedIf(db.events, after.events, d, "TELEMETRY_CONFIG_CHANGED", ConfigInvalidKey(env.eventId), !b.telemetryOk)
    ensures forall e :: e in after.events && e !in db.events ==>
      e.device == env.deviceId && HeartbeatKey(e.key, env.eventId)
  {
    HeartbeatTrail(cfg, db, env, now, after);
    HeartbeatRaised(db.events, db.devices[env.deviceId], env, env.body, env.deviceId, after.events);
    HeartbeatKeysOnly(db.devices[env.deviceId], env, env.body, db.events, env.deviceId);
  }

  lemma HeartbeatRaised(events: seq<SecurityEvent>, was: Device, env: Envelope, b: Body, d: DeviceId,
                        after: seq<SecurityEvent>)
    requires b.HeartbeatBody? && after == AddAlarms(events, d, HeartbeatAlarms(was, env, b))
    ensures RaisedIf(events, after, d, "CODEX_HOME_CHANGED", CodexHomeKey(env.eventId), HomeChanged(was, b))
    ensures RaisedIf(events, after, d, "TELEMETRY_CONFIG_CHANGED", ConfigKey(env.eventId), ConfigChanged(was, b))
    ensures RaisedIf(events, after, d, "TELEMETRY_CONFIG_CHANGED", ConfigInvalidKey(env.eventId), !b.telemetryOk)
  {
    var alarms := HeartbeatAlarms(was, env, b);
    HeartbeatListed(was, env, b, alarms);
    ListedRaised(events, d, alarms, "CODEX_HOME_CHANGED", CodexHomeKey(env.eventId), HomeChanged(was, b));
    ListedRaised(events, d, alarms, "TELEMETRY_CONFIG_CHANGED", ConfigKey(env.eventId), ConfigChanged(was, b));
    ListedRaised(events, d, alarms, "TELEMETRY_CONFIG_CHANGED", ConfigInvalidKey(env.eventId), !b.telemetryOk);
  }

  /** What an accepted heartbeat stores: the device's state, and a history row once per sampling interval. */
  lemma HeartbeatStored(cfg: Settings, db: Db, env: Envelope, now: Time, after: Db)
    requires Handle(cfg, db, HeartbeatRoute, env, now) == (after, Accepted(false))
    ensures env.deviceId in db.devices && env.deviceId in after.devices && env.body.HeartbeatBody?
    ensures var was, got, b := db.devices[env.deviceId], after.devices[env.deviceId], env.body;
      var due := was.lastRecorded.None? || now >= was.lastRecorded.value + cfg.historySeconds * 1_000_000;
      && got.key == was.key && got.lastSequence == env.sequence && got.lastSeen == Some(now)
      && got.codexHome == b.codexHome
      && got.fingerprint == (if b.fingerprint == "" then was.fingerprint else b.fingerprint)
      && got.lastRecorded == (if due then Some(now) else was.lastRecorded)
      && (due ==> after.heartbeats
                  == db.heartbeats + [HeartbeatRow(env.deviceId, env.eventId, env.sequence, now, b.uptime)])
      && (!due ==> after.heartbeats == db.heartbeats)
    ensures after.usage == db.usage && after.snapshots == db.snapshots
  {
    VerifiedFrame(cfg, db, env, now);
  }

  /** An agent's notice is stored under its own kind. */
  lemma NoticeStored(cfg: Settings, db: Db, env: Envelope, now: Time, after: Db)
    requires Handle(cfg, db, EventsRoute, env, now) == (after, Accepted(false))
    ensures env.body.NoticeBody?
    ensures Raised(db.events, after.events, env.deviceId, env.body.kind, NoticeKey(env.eventId))
    ensures after.usage == db.usage && after.snapshots == db.snapshots && after.heartbeats == db.heartbeats
  {
    VerifiedFrame(cfg, db, env, now);
    EventRaised(db.events, env.deviceId, env.body.kind, NoticeKey(env.eventId));
  }

  // ------------------------------------------------------------ integrity reports

  ghost predicate IsLatest(rows: seq<SnapshotRow>, device: DeviceId, i: nat) {
    && i < |rows| && rows[i].device == device
    && (forall j :: 0 <= j <= i && rows[j].device == device ==> rows[j].at <= rows[i].at)
    && (forall j :: i < j < |rows| && rows[j].device == device ==> rows[j].at < rows[i].at)
  }

  lemma LatestMore(front: seq<SnapshotRow>, last: SnapshotRow, device: DeviceId, i: nat)
    requires IsLatest(front, device, i)
    ensures IsLatest(front + [last], device, if last.device == device && front[i].at <= last.at then |front| else i)
  {
    var rows := front + [last];
    assert forall j :: 0 <= j < |front| ==> rows[j] == front[j];
  }

  /** The latest snapshot is one of the device, not older than any other, and among equal times the last stored. */
  lemma {:induction false} LatestExactly(rows: seq<SnapshotRow>, device: DeviceId)
    ensures Latest(rows, device).None? <==> forall r :: r in rows ==> r.device != device
    ensures Latest(rows, device).Some? ==>
      exists i: nat :: IsLatest(rows, device, i) && rows[i] == Latest(rows, device).value
  {
    if rows != [] {
      var n := |rows| - 1;
      var front := rows[..n];
      assert rows == front + [rows[n]];
      LatestExactly(front, device);
      if Latest(rows, device).Some? {
        if Latest(front, device).Some? {
          var i: nat :| IsLatest(front, device, i) && front[i] == Latest(front, device).value;
          LatestMore(front, rows[n], device, i);
        } else {
          forall j | 0 <= j < n ensures rows[j].device != device { assert front[j] in front; }
          assert IsLatest(rows, device, n);
        }
      }
    }
  }

  /** What an accepted report stores of itself, and the digest that the server computed over its document. */
  lemma SnapshotStored(cfg: Settings, db: Db, env: Envelope, now: Time, after: Db)
    requires Handle(cfg, db, IntegrityRoute, env, now) == (after, Accepted(false))
    ensures env.body.IntegrityReport? && |after.snapshots| == |db.snapshots| + 1
    ensures var b, row := env.body.report, after.snapshots[|db.snapshots|];
      && after.snapshots == db.snapshots + [row]
      && row.device == env.deviceId && row.event == env.eventId && row.at == now
      && row.filesChecked == b.filesChecked && row.status == b.status && row.files == b.files
      && row.stateId == b.stateId && row.scanSequence == b.scanSequence && row.previousHash == b.previousHash
      && row.reportedHash == b.snapshotHash
      && (HasChain(b) ==> row.snapshotHash == Some(cfg.sha(Encode(Python, LinkJson(BodyLink(b))))))
      && (!HasChain(b) ==> row.snapshotHash == b.snapshotHash)
    ensures after.usage == db.usage && after.heartbeats == db.heartbeats
  {
    VerifiedFrame(cfg, db, env, now);
  }

  predicate IsReset(p: SnapshotRow, b: IntegrityBody) { p.stateId.Some? && b.stateId != p.stateId }

  predicate IsRollback(p: SnapshotRow, b: IntegrityBody)
    requires HasChain(b)
  {
    !IsReset(p, b) && p.scanSequence.Some? && b.scanSequence.value <= p.scanSequence.value
  }

  predicate IsBroken(p: SnapshotRow, b: IntegrityBody)
    requires HasChain(b)
  {
    !IsReset(p, b) && !IsRollback(p, b) && p.snapshotHash.Some? && b.previousHash != p.snapshotHash
  }

  ghost predicate IsForged(cfg: Settings, b: IntegrityBody)
    requires HasChain(b)
  {
    cfg.sha(Encode(Python, LinkJson(BodyLink(b)))) != b.snapshotHash.value
  }

  lemma ChainListed(cfg: Settings, p: Option<SnapshotRow>, b: IntegrityBody, event: EventId)
    requires HasChain(b)
    ensures var alarms := ChainAlarms(cfg, p, b, event);
      && Lists(alarms, "INTEGRITY_SNAPSHOT_HASH_INVALID", StateHashKey(event), IsForged(cfg, b))
      && Lists(alarms, "INTEGRITY_STATE_RESET", StateResetKey(b.stateId.value), p.Some? && IsReset(p.value, b))
      && Lists(alarms, "INTEGRITY_STATE_ROLLBACK", StateRollbackKey(b.stateId.value, b.scanSequence.value),
               p.Some? && IsRollback(p.value, b))
      && Lists(alarms, "INTEGRITY_CHAIN_BROKEN", StateChainKey(b.snapshotHash.value), p.Some? && IsBroken(p.value, b))
  {
  }

  lemma ChainKeysOnly(cfg: Settings, p: Option<SnapshotRow>, b: IntegrityBody, event: EventId)
    ensures var alarms := ChainAlarms(cfg, p, b, event);
      |alarms| <= 2 && forall a :: a in alarms ==>
        a.key.StateHashKey? || a.key.StateResetKey? || a.key.StateRollbackKey? || a.key.StateChainKey?
  {
  }

  /** The trail after the chain audit, and after the findings. */
  lemma IntegrityTrail(cfg: Settings, db: Db, env: Envelope, now: Time, after: Db)
      returns (chain: seq<Alarm>, audited: seq<SecurityEvent>)
    requires Handle(cfg, db, IntegrityRoute, env, now) == (after, Accepted(false))
    ensures env.body.IntegrityReport?
    ensures chain == ChainAlarms(cfg, Latest(db.snapshots, env.deviceId), env.body.report, env.eventId)
    ensures audited == AddAlarms(db.events, env.deviceId, chain)
    ensures after.events == AddAlarms(audited, env.deviceId, FindingAlarms(env.body.report.findings, env.eventId))
  {
    VerifiedFrame(cfg, db, env, now);
    chain := ChainAlarms(cfg, Latest(db.snapshots, env.deviceId), env.body.report, env.eventId);
    audited := AddAlarms(db.events, env.deviceId, chain);
  }

  lemma FindingsKeepRaised(events: seq<SecurityEvent>, audited: seq<SecurityEvent>, device: DeviceId,
                           findings: seq<Finding>, event: EventId, kind: string, key: EventKey, cause: bool)
    requires RaisedIf(events, audited, device, kind, key, cause) && !key.FindingKey?
    ensures RaisedIf(events, AddAlarms(audited, device, FindingAlarms(findings, event)), device, kind, key, cause)
  {
    AlarmsAdded(audited, device, FindingAlarms(findings, event));
  }

  /** The audit of an accepted report with chain fields against the latest stored snapshot raises an alarm for a
      wrong digest, and at most one of three: another state, a scan number that does not grow, a wrong back-link. */
  lemma ChainAlarmsExactly(cfg: Settings, db: Db, env: Envelope, now: Time, after: Db)
    requires Handle(cfg, db, IntegrityRoute, env, now) == (after, Accepted(false))
    ensures env.body.IntegrityReport?
    ensures HasChain(env.body.report) ==>
      var b, p, d := env.body.report, Latest(db.snapshots, env.deviceId), env.deviceId;
      && RaisedIf(db.events, after.events, d, "INTEGRITY_SNAPSHOT_HASH_INVALID", StateHashKey(env.eventId),
                  IsForged(cfg, b))
      && RaisedIf(db.events, after.events, d, "INTEGRITY_STATE_RESET", StateResetKey(b.stateId.value),
                  p.Some? && IsReset(p.value, b))
      && RaisedIf(db.events, after.events, d, "INTEGRITY_STATE_ROLLBACK",
                  StateRollbackKey(b.stateId.value, b.scanSequence.value), p.Some? && IsRollback(p.value, b))
      && RaisedIf(db.events, after.events, d, "INTEGRITY_CHAIN_BROKEN", StateChainKey(b.snapshotHash.value),
                  p.Some? && IsBroken(p.value, b))
  {
    var chain, audited := IntegrityTrail(cfg, db, env, now, after);
    var b, p, d, e := env.body.report, Latest(db.snapshots, env.deviceId), env.deviceId, env.eventId;
    if HasChain(b) {
      ChainListed(cfg, p, b, e);
      ChainAlarm(db.events, audited, d, chain, b.findings, e, "INTEGRITY_SNAPSHOT_HASH_INVALID", StateHashKey(e),
                 IsForged(cfg, b));
      ChainAlarm(db.events, audited, d, chain, b.findings, e, "INTEGRITY_STATE_RESET",
                 StateResetKey(b.stateId.value), p.Some? && IsReset(p.value, b));
      ChainAlarm(db.events, audited, d, chain, b.findings, e, "INTEGRITY_STATE_ROLLBACK",
                 StateRollbackKey(b.stateId.value, b.scanSequence.value), p.Some? && IsRollback(p.value, b));
      ChainAlarm(db.events, audited, d, chain, b.findings, e, "INTEGRITY_CHAIN_BROKEN",
                 StateChainKey(b.snapshotHash.value), p.Some? && IsBroken(p.value, b));
    }
  }

  lemma ChainAlarm(events: seq<SecurityEvent>, audited: seq<SecurityEvent>, device: DeviceId, chain: seq<Alarm>,
                   findings: seq<Finding>, event: EventId, kind: string, key: EventKey, cause: bool)
    requires Lists(chain, kind, key, cause) && audited == AddAlarms(events, device, chain) && !key.FindingKey?
    ensures RaisedIf(events, AddAlarms(audited, device, FindingAlarms(findings, event)), device, kind, key, cause)
  {
    ListedRaised(events, device, chain, kind, key, cause);
    FindingsKeepRaised(events, audited, device, findings, event, kind, key, cause);
  }

  ghost predicate ChainRow(e: SecurityEvent, device: DeviceId) {
    e.device == device
    && (e.key.StateHashKey? || e.key.StateResetKey? || e.key.StateRollbackKey? || e.key.StateChainKey?)
  }

  /** The trail grew by at most two chain alarms and then by one row for each finding, in the report's order and
      of the finding's kind. */
  ghost predicate OneRowEach(events: seq<SecurityEvent>, after: seq<SecurityEvent>, device: DeviceId, event: EventId,
                             findings: seq<Finding>)
  {
    && |after| >= |events| + |findings| && after[..|events|] == events
    && var n := |after| - |findings|;
    && n <= |events| + 2
    && (forall k :: |events| <= k < n ==> ChainRow(after[k], device))
    && (forall i :: 0 <= i < |findings| ==>
          after[n + i] == SecurityEvent(device, findings[i].eventType, FindingKey(event, i)))
  }

  /** Every finding of an accepted report gets its own row, unless an earlier report carried the same event. */
  lemma FindingsStored(cfg: Settings, db: Db, env: Envelope, now: Time, after: Db)
    requires Handle(cfg, db, IntegrityRoute, env, now) == (after, Accepted(false))
    requires forall i :: !Alarmed(db.events, env.deviceId, FindingKey(env.eventId, i))
    ensures env.body.IntegrityReport?
    ensures OneRowEach(db.events, after.events, env.deviceId, env.eventId, env.body.report.findings)
  {
    var chain, audited := IntegrityTrail(cfg, db, env, now, after);
    var d, findings := env.deviceId, env.body.report.findings;
    ChainKeysOnly(cfg, Latest(db.snapshots, d), env.body.report, env.eventId);
    ChainRows(db.events, audited, d, chain);
    AlarmsAdded(db.events, d, chain);
    forall i | 0 <= i < |findings| ensures !Alarmed(audited, d, FindingKey(env.eventId, i)) {
      assert !Alarmed(db.events, d, FindingKey(env.eventId, i));
    }
    FindingRows(audited, d, env.eventId, findings, after.events);
    ThenFindings(db.events, audited, after.events, d, env.eventId, findings);
  }

  lemma ChainRows(events: seq<SecurityEvent>, audited: seq<SecurityEvent>, device: DeviceId, chain: seq<Alarm>)
    requires audited == AddAlarms(events, device, chain) && forall a :: a in chain ==>
      a.key.StateHashKey? || a.key.StateResetKey? || a.key.StateRollbackKey? || a.key.StateChainKey?
    ensures |events| <= |audited| <= |events| + |chain| && audited[..|events|] == events
    ensures forall k :: |events| <= k < |audited| ==> ChainRow(audited[k], device)
  {
    AlarmsGrow(events, device, chain);
    forall k | |events| <= k < |audited| ensures ChainRow(audited[k], device) {
      var i :| 0 <= i < |chain| && audited[k] == SecurityEvent(device, chain[i].kind, chain[i].key);
      assert chain[i] in chain;
    }
  }

  lemma FindingRows(audited: seq<SecurityEvent>, device: DeviceId, event: EventId, findings: seq<Finding>,
                    after: seq<SecurityEvent>)
    requires forall i :: 0 <= i < |findings| ==> !Alarmed(audited, device, FindingKey(event, i))
    requires after == AddAlarms(audited, device, FindingAlarms(findings, event))
    ensures |after| == |audited| + |findings| && after[..|audited|] == audited
    ensures forall i :: 0 <= i < |findings| ==>
      after[|audited| + i] == SecurityEvent(device, findings[i].eventType, FindingKey(event, i))
  {
    var alarms := FindingAlarms(findings, event);
    AlarmsAppended(audited, device, alarms);
    forall i | 0 <= i < |findings|
      ensures after[|audited| + i] == SecurityEvent(device, findings[i].eventType, FindingKey(event, i))
    {
      assert after[|audited| + i] == SecurityEvent(device, alarms[i].kind, alarms[i].key);
    }
  }

  lemma ThenFindings(events: seq<SecurityEvent>, audited: seq<SecurityEvent>, after: seq<SecurityEvent>,
                     device: DeviceId, event: EventId, findings: seq<Finding>)
    requires |events| <= |audited| <= |events| + 2 && audited[..|events|] == events
    requires forall k :: |events| <= k < |audited| ==> ChainRow(audited[k], device)
    requires |after| == |audited| + |findings| && after[..|audited|] == audited
    requires forall i :: 0 <= i < |findings| ==>
      after[|audited| + i] == SecurityEvent(device, findings[i].eventType, FindingKey(event, i))
    ensures OneRowEach(events, after, device, event, findings)
  {
    assert after[..|events|] == after[..|audited|][..|events|];
    forall k | |events| <= k < |audited| ensures after[k] == audited[k] {
      assert after[..|audited|][k] == audited[k];
    }
  }

  /** Every new event is one of the alarms, and there are no more events than alarms. */
  lemma {:induction false} AlarmsGrow(events: seq<SecurityEvent>, device: DeviceId, alarms: seq<Alarm>)
    ensures var after := AddAlarms(events, device, alarms);
      && events <= after && |after| <= |events| + |alarms|
      && forall k :: |events| <= k < |after| ==> From(alarms, device, after[k])
    decreases |alarms|
  {
    if alarms != [] {
      var next := AddEvent(events, device, alarms[0].kind, alarms[0].key);
      var after := AddAlarms(next, device, alarms[1..]);
      AlarmsGrow(next, device, alarms[1..]);
      forall k | |events| <= k < |after| ensures From(alarms, device, after[k]) {
        if k < |next| {
          assert after[k] == SecurityEvent(device, alarms[0].kind, alarms[0].key);
        } else {
          var i :| 0 <= i < |alarms[1..]|
            && after[k] == SecurityEvent(device, alarms[1..][i].kind, alarms[1..][i].key);
          assert after[k] == SecurityEvent(device, alarms[i + 1].kind, alarms[i + 1].key);
        }
      }
    }
  }

  // ------------------------------------------------------------ usage

  /** The row that day `i` of a usage report becomes. */
  function DayRow(env: Envelope, i: nat): UsageRow
    requires env.body.UsageBody? && i < |env.body.days|
  {
    UsageRow(env.deviceId, env.body.source, env.body.days[i], env.eventId, i, env.timestamp)
  }

  /** No later day from position `i` on has the date. */
  predicate Absent(days: seq<UsageDay>, i: nat, date: string) {
    forall j :: i <= j < |days| ==> days[j].date != date
  }

  /** Of several days with one date the last is stored; rows of other cells stay. */
  ghost predicate Overwrites(rows: seq<UsageRow>, after: seq<UsageRow>, env: Envelope, i: nat)
    requires env.body.UsageBody?
  {
    var days := env.body.days;
    forall row :: row in after <==>
      || (row in rows && (row.device != env.deviceId || row.source != env.body.source || Absent(days, i, row.day.date)))
      || (exists j :: i <= j < |days| && Absent(days, j + 1, days[j].date) && row == DayRow(env, j))
  }

  /** `row` takes the place of the row of its cell. */
  ghost predicate Puts(rows: seq<UsageRow>, next: seq<UsageRow>, row: UsageRow) {
    forall x :: x in next <==>
      x == row || (x in rows && !(x.device == row.device && x.source == row.source && x.day.date == row.day.date))
  }

  lemma UpsertExactly(rows: seq<UsageRow>, row: UsageRow)
    requires UniqueCells(rows)
    ensures Puts(rows, Upsert(rows, row), row)
  {
    var i := FindCell(rows, row.device, row.source, row.day.date);
    forall x | x in rows && !(x.device == row.device && x.source == row.source && x.day.date == row.day.date)
      ensures x in Upsert(rows, row)
    {
      var k :| 0 <= k < |rows| && rows[k] == x;
      assert Upsert(rows, row)[k] == x;
    }
    if i < |rows| { assert rows[i := row][i] == row; } else { assert (rows + [row])[i] == row; }
  }

  lemma OverwritesFirst(rows: seq<UsageRow>, next: seq<UsageRow>, after: seq<UsageRow>, env: Envelope, i: nat)
    requires env.body.UsageBody? && i < |env.body.days|
    requires Puts(rows, next, DayRow(env, i)) && Overwrites(next, after, env, i + 1)
    ensures Overwrites(rows, after, env, i)
  {
  }

  lemma FirstDay(rows: seq<UsageRow>, next: seq<UsageRow>, env: Envelope, i: nat)
    requires env.body.UsageBody? && i < |env.body.days| && UniqueCells(rows) && next == Upsert(rows, DayRow(env, i))
    ensures UniqueCells(next)
    ensures UpsertDays(rows, env, env.body.source, env.body.days, i)
         == UpsertDays(next, env, env.body.source, env.body.days, i + 1)
  {
    UpsertUnique(rows, DayRow(env, i));
  }

  lemma OverwritesMore(rows: seq<UsageRow>, next: seq<UsageRow>, after: seq<UsageRow>, env: Envelope, i: nat)
    requires env.body.UsageBody? && i < |env.body.days| && UniqueCells(rows) && next == Upsert(rows, DayRow(env, i))
    requires Overwrites(next, after, env, i + 1)
    ensures Overwrites(rows, after, env, i)
  {
    UpsertExactly(rows, DayRow(env, i));
    OverwritesFirst(rows, next, after, env, i);
  }

  lemma NoDay(rows: seq<UsageRow>, env: Envelope)
    requires env.body.UsageBody?
    ensures Overwrites(rows, rows, env, |env.body.days|)
  {
  }

  lemma {:induction false} DaysOverwrite(rows: seq<UsageRow>, after: seq<UsageRow>, env: Envelope, i: nat)
    requires env.body.UsageBody? && i <= |env.body.days| && UniqueCells(rows)
    requires after == UpsertDays(rows, env, env.body.source, env.body.days, i)
    ensures Overwrites(rows, after, env, i)
    decreases |env.body.days| - i
  {
    if i < |env.body.days| {
      var next := Upsert(rows, DayRow(env, i));
      FirstDay(rows, next, env, i);
      DaysOverwrite(next, after, env, i + 1);
      OverwritesMore(rows, next, after, env, i);
    } else {
      NoDay(rows, env);
    }
  }

  /** An accepted usage report, local or otel, replaces exactly the cells of its days, absolutely. */
  lemma UsageStored(cfg: Settings, db: Db, env: Envelope, now: Time, after: Db)
    requires Handle(cfg, db, UsageRoute, env, now) == (after, Accepted(false)) && UniqueCells(db.usage)
    ensures env.body.UsageBody? && Overwrites(db.usage, after.usage, env, 0)
    ensures after.events == db.events && after.snapshots == db.snapshots && after.heartbeats == db.heartbeats
  {
    VerifiedFrame(cfg, db, env, now);
    DaysOverwrite(db.usage, after.usage, env, 0);
  }

  // ------------------------------------------------------------ maintenance

  function Cutoff(days: int, now: Time): Time { now - (if days < 1 then 1 else days) * 86_400 * 1_000_000 }

  lemma CutoffIs(days: int, now: Time)
    ensures now - AtLeastOne(days) * DAY == Cutoff(days, now)
  {
  }

  /** Exactly the rows from the cutoff on are kept, each as often as it was there. */
  ghost predicate HeartbeatsCut(rows: seq<HeartbeatRow>, after: seq<HeartbeatRow>, cutoff: Time) {
    forall r :: multiset(after)[r] == if r.at < cutoff then 0 else multiset(rows)[r]
  }

  ghost predicate SnapshotsCut(rows: seq<SnapshotRow>, after: seq<SnapshotRow>, cutoff: Time) {
    forall r :: multiset(after)[r] == if r.at < cutoff then 0 else multiset(rows)[r]
  }

  lemma {:induction false} CutHeartbeats(rows: seq<HeartbeatRow>, cutoff: Time)
    ensures HeartbeatsCut(rows, KeepHeartbeats(rows, cutoff), cutoff)
  {
    if rows != [] {
      CutHeartbeats(rows[1..], cutoff);
      assert rows == [rows[0]] + rows[1..];
    }
  }

  lemma {:induction false} CutSnapshots(rows: seq<SnapshotRow>, cutoff: Time)
    ensures SnapshotsCut(rows, KeepSnapshots(rows, cutoff), cutoff)
  {
    if rows != [] {
      CutSnapshots(rows[1..], cutoff);
      assert rows == [rows[0]] + rows[1..];
    }
  }

  lemma RowsCut(cfg: Settings, db: Db, now: Time)
    ensures HeartbeatsCut(db.heartbeats, Purge(cfg, db, now).heartbeats, Cutoff(cfg.heartbeatDays, now))
    ensures SnapshotsCut(db.snapshots, Purge(cfg, db, now).snapshots, Cutoff(cfg.integrityDays, now))
  {
    CutoffIs(cfg.heartbeatDays, now);
    CutoffIs(cfg.integrityDays, now);
    CutHeartbeats(db.heartbeats, Cutoff(cfg.heartbeatDays, now));
    CutSnapshots(db.snapshots, Cutoff(cfg.integrityDays, now));
  }

  lemma ReceiptsCut(cfg: Settings, db: Db, now: Time)
    ensures var after := Purge(cfg, db, now).receipts;
      && (forall k :: k in after <==> k in db.receipts && db.receipts[k] >= Cutoff(cfg.receiptDays, now))
      && (forall k :: k in after ==> after[k] == db.receipts[k])
  {
    CutoffIs(cfg.receiptDays, now);
  }

  /** A purge drops the rows of three tables that are older than their own retention, which is a day at least,
      and keeps every other row. */
  lemma PurgeExactly(cfg: Settings, db: Db, now: Time, after: Db)
    requires after == Purge(cfg, db, now)
    ensures HeartbeatsCut(db.heartbeats, after.heartbeats, Cutoff(cfg.heartbeatDays, now))
    ensures SnapshotsCut(db.snapshots, after.snapshots, Cutoff(cfg.integrityDays, now))
    ensures forall k :: k in after.receipts <==> k in db.receipts && db.receipts[k] >= Cutoff(cfg.receiptDays, now)
    ensures forall k :: k in after.receipts ==> after.receipts[k] == db.receipts[k]
    ensures after.devices == db.devices && after.events == db.events && after.usage == db.usage
  {
    RowsCut(cfg, db, now);
    ReceiptsCut(cfg, db, now);
  }

  /** Silent for more than ten minutes. */
  predicate Late(device: Device, now: Time) {
    device.lastSeen.Some? && now - device.lastSeen.value > 10 * 60 * 1_000_000
  }

  ghost predicate LateEvent(db: Db, now: Time, order: seq<DeviceId>, e: SecurityEvent) {
    && e.device in order && e.device in db.devices && Late(db.devices[e.device], now)
    && e == SecurityEvent(e.device, "AGENT_UNREACHABLE", UnreachableKey(db.devices[e.device].lastSeen.value))
  }

  lemma {:induction false} LateFound(db: Db, order: seq<DeviceId>, now: Time)
    ensures var after := Reconcile(db, order, now).events;
      && db.events <= after && (forall e :: e in after && e !in db.events ==> LateEvent(db, now, order, e))
      && forall d :: d in order && d in db.devices && Late(db.devices[d], now) ==>
           Alarmed(after, d, UnreachableKey(db.devices[d].lastSeen.value))
    decreases |order|
  {
    if order != [] {
      var id := order[0];
      assert order == [id] + order[1..];
      if id in db.devices && Late(db.devices[id], now) {
        var key := UnreachableKey(db.devices[id].lastSeen.value);
        var next := db.(events := AddEvent(db.events, id, "AGENT_UNREACHABLE", key));
        EventRaised(db.events, id, "AGENT_UNREACHABLE", key);
        assert Alarmed(next.events, id, key) by {
          if !Alarmed(db.events, id, key) { assert next.events[|db.events|] in next.events; }
        }
        LateFound(next, order[1..], now);
        assert Alarmed(Reconcile(next, order[1..], now).events, id, key);
      } else {
        LateFound(db, order[1..], now);
      }
    }
  }

  /** Every device that has been silent for more than ten minutes gets one alarm for the time it was last seen,
      and nobody else does. */
  lemma UnreachableExactly(db: Db, order: seq<DeviceId>, now: Time, after: Db, d: DeviceId)
    requires after == Reconcile(db, order, now) && Enumerates(order, db.devices.Keys)
    requires d in db.devices && db.devices[d].lastSeen.Some?
    ensures RaisedIf(db.events, after.events, d, "AGENT_UNREACHABLE", UnreachableKey(db.devices[d].lastSeen.value),
                     now - db.devices[d].lastSeen.value > 10 * 60 * 1_000_000)
    ensures forall e :: e in after.events && e !in db.events ==> LateEvent(db, now, order, e)
    ensures after == db.(events := after.events)
  {
    LateFound(db, order, now);
    ReconcileFrame(db, order, now);
  }
}
