/** The handlers as they run: they change the tables step by step, and a request that raises an error
    before its commit leaves the transaction's start state behind.  Each handler is proved against the
    transaction of module Server. */
module ServerApp {
  import opened Prelude
  import opened CanonicalJson
  import opened Snapshot
  import opened Server

  class App {
    const cfg: Settings
    var devices: map<DeviceId, Device>
    var receipts: map<(DeviceId, EventId), Time>
    var events: seq<SecurityEvent>
    var usage: seq<UsageRow>
    var snapshots: seq<SnapshotRow>
    var heartbeats: seq<HeartbeatRow>

    constructor (cfg: Settings)
      ensures this.cfg == cfg && Tables() == Db(map[], map[], [], [], [], [])
    {
      this.cfg := cfg;
      devices, receipts, events, usage, snapshots, heartbeats := map[], map[], [], [], [], [];
    }

    function Tables(): Db
      reads this
    {
      Db(devices, receipts, events, usage, snapshots, heartbeats)
    }

    // ---------------------------------------------------------- security events

    method AddSecurityEvent(device: DeviceId, kind: string, key: EventKey)
      modifies this`events
      ensures events == AddEvent(old(events), device, kind, key)
    {
      for i := 0 to |events|
        invariant events == old(events)
        invariant forall k :: 0 <= k < i ==> !(events[k].device == device && events[k].key == key)
      {
        if events[i].device == device && events[i].key == key { return; }
      }
      events := events + [SecurityEvent(device, kind, key)];
    }

    /** Raises the alarms one after the other. */
    method Raise(device: DeviceId, alarms: seq<Alarm>)
      modifies this`events
      ensures events == AddAlarms(old(events), device, alarms)
    {
      assert alarms[0..] == alarms;
      for i := 0 to |alarms|
        invariant AddAlarms(events, device, alarms[i..]) == AddAlarms(old(events), device, alarms)
      {
        assert alarms[i..][1..] == alarms[i + 1..];
        AddSecurityEvent(device, alarms[i].kind, alarms[i].key);
      }
    }

    // ---------------------------------------------------------- the gate

    /** `signature_message`. */
    method SignatureMessage(env: Envelope) returns (message: string)
      ensures message == ServerMessage(cfg.sha, env)
    {
      var out := new Buffer(Python);
      WriteCanonical(out, env.payload);
      assert out.data == Encode(Python, env.payload);
      var digest := cfg.sha(out.data);
      message := env.deviceId + "\n"
        + (Decimal(env.sequence) + "\n" + (env.timestamp + "\n" + (env.eventId + "\n" + digest)));
    }

    /** `verified`: `None` lets the route continue. */
    method Verify(env: Envelope, now: Time) returns (stopped: Option<Response>)
      modifies this`events, this`receipts, this`devices
      ensures var gate := Verified(cfg, old(Tables()), env, now);
        Tables() == gate.db && stopped == if gate.Stop? then Some(gate.response) else None
    {
      if env.deviceId !in devices { return Some(UnknownDevice); }
      var device := devices[env.deviceId];
      var message := SignatureMessage(env);
      if env.signature != Signature(device.key, message) {
        AddSecurityEvent(env.deviceId, "INVALID_SIGNATURE", BadSignatureKey(env.eventId));
        return Some(InvalidSignature);
      }
      if (env.deviceId, env.eventId) in receipts { return Some(Accepted(true)); }
      if env.sequence <= device.lastSequence {
        AddSecurityEvent(env.deviceId, "REPLAY_ATTEMPT", ReplayKey(env.eventId));
        return Some(Replayed);
      }
      receipts := receipts[(env.deviceId, env.eventId) := now];
      devices := devices[env.deviceId := device.(lastSequence := env.sequence)];
      return None;
    }

    // ---------------------------------------------------------- heartbeats

    method RecordHeartbeat(env: Envelope, now: Time) returns (ok: bool)
      modifies this`devices, this`events, this`heartbeats
      ensures ok <==> ApplyHeartbeat(cfg, old(Tables()), env, now).Some?
      ensures ok ==> Tables() == ApplyHeartbeat(cfg, old(Tables()), env, now).value
    {
      if !env.body.HeartbeatBody? || env.deviceId !in devices { return false; }
      var b, device := env.body, devices[env.deviceId];
      if !b.complete { return false; }
      ghost var start := events;
      var seen := device.(lastSeen := Some(now));
      ghost var home := device.codexHome != "" && device.codexHome != b.codexHome && !b.autoDiscovered;
      ghost var config := device.fingerprint != "" && b.fingerprint != "" && device.fingerprint != b.fingerprint;
      if device.codexHome != "" && device.codexHome != b.codexHome && !b.autoDiscovered {
        AddSecurityEvent(env.deviceId, "CODEX_HOME_CHANGED", CodexHomeKey(env.eventId));
      }
      seen := seen.(codexHome := b.codexHome);
      if device.fingerprint != "" && b.fingerprint != "" && device.fingerprint != b.fingerprint {
        AddSecurityEvent(env.deviceId, "TELEMETRY_CONFIG_CHANGED", ConfigKey(env.eventId));
      }
      if b.fingerprint != "" { seen := seen.(fingerprint := b.fingerprint); }
      if !b.telemetryOk {
        AddSecurityEvent(env.deviceId, "TELEMETRY_CONFIG_CHANGED", ConfigInvalidKey(env.eventId));
      }
      assert events == AddAlarms(start, env.deviceId, HeartbeatAlarms(device, env, b)) by {
        ThreeAlarms(start, env.deviceId, home, Alarm("CODEX_HOME_CHANGED", CodexHomeKey(env.eventId)),
                    config, Alarm("TELEMETRY_CONFIG_CHANGED", ConfigKey(env.eventId)),
                    !b.telemetryOk, Alarm("TELEMETRY_CONFIG_CHANGED", ConfigInvalidKey(env.eventId)));
      }
      if !b.quotaOk { return false; }
      if IsSampled(cfg, device.lastRecorded, now) {
        seen := seen.(lastRecorded := Some(now));
        heartbeats := heartbeats + [HeartbeatRow(env.deviceId, env.eventId, env.sequence, now, b.uptime)];
      }
      devices := devices[env.deviceId := seen];
      return true;
    }

    // ---------------------------------------------------------- usage

    method RecordUsage(env: Envelope) returns (ok: bool)
      modifies this`usage
      ensures ok <==> ApplyUsage(old(Tables()), env).Some?
      ensures ok ==> Tables() == ApplyUsage(old(Tables()), env).value
    {
      if !UsageSchema(env.body) { return false; }
      var source, days := env.body.source, env.body.days;
      for i := 0 to |days|
        invariant UpsertDays(usage, env, source, days, i) == UpsertDays(old(usage), env, source, days, 0)
      {
        var row := UsageRowOf(env, source, days[i], i);
        var at := FindReport(env.deviceId, source, days[i].date);
        if at < |usage| {
          usage := usage[at := row];
        } else {
          usage := usage + [row];
        }
      }
      return true;
    }

    method FindReport(device: DeviceId, source: Source, date: string) returns (at: nat)
      ensures at == FindCell(usage, device, source, date)
    {
      at := 0;
      assert usage[0..] == usage;
      while at < |usage| && !SameCell(usage[at], device, source, date)
        invariant at <= |usage|
        invariant FindCell(usage, device, source, date) == at + FindCell(usage[at..], device, source, date)
      {
        assert usage[at..][1..] == usage[at + 1..];
        at := at + 1;
      }
    }

    // ---------------------------------------------------------- integrity

    method LatestSnapshot(device: DeviceId) returns (latest: Option<SnapshotRow>)
      ensures latest == Latest(snapshots, device)
    {
      latest := None;
      for i := 0 to |snapshots|
        invariant latest == Latest(snapshots[..i], device)
      {
        var row := snapshots[i];
        assert snapshots[..i + 1][..i] == snapshots[..i];
        if row.device == device && (latest.None? || latest.value.at <= row.at) { latest := Some(row); }
      }
      assert snapshots[..|snapshots|] == snapshots;
    }

    method SnapshotHash(b: IntegrityBody) returns (hash: string)
      requires HasChain(b)
      ensures hash == BodyHash(cfg, b)
    {
      var out := new Buffer(Python);
      WriteCanonical(out, LinkJson(BodyLink(b)));
      assert out.data == Encode(Python, LinkJson(BodyLink(b)));
      hash := cfg.sha(out.data);
    }

    /** The comparison with the latest snapshot; returns the digest to store. */
    method AuditChain(env: Envelope, b: IntegrityBody, previous: Option<SnapshotRow>)
        returns (validated: Option<string>)
      modifies this`events
      ensures events == AddAlarms(old(events), env.deviceId, ChainAlarms(cfg, previous, b, env.eventId))
      ensures validated == if HasChain(b) then Some(BodyHash(cfg, b)) else b.snapshotHash
    {
      if !HasChain(b) { return b.snapshotHash; }
      ghost var start := events;
      var calculated := SnapshotHash(b);
      if calculated != b.snapshotHash.value {
        AddSecurityEvent(env.deviceId, "INTEGRITY_SNAPSHOT_HASH_INVALID", StateHashKey(env.eventId));
      }
      if previous.Some? {
        var p := previous.value;
        if p.stateId.Some? && p.stateId != b.stateId {
          AddSecurityEvent(env.deviceId, "INTEGRITY_STATE_RESET", StateResetKey(b.stateId.value));
        } else if p.scanSequence.Some? && b.scanSequence.value <= p.scanSequence.value {
          AddSecurityEvent(env.deviceId, "INTEGRITY_STATE_ROLLBACK",
                           StateRollbackKey(b.stateId.value, b.scanSequence.value));
        } else if p.snapshotHash.Some? && b.previousHash != p.snapshotHash {
          AddSecurityEvent(env.deviceId, "INTEGRITY_CHAIN_BROKEN", StateChainKey(b.snapshotHash.value));
        }
      }
      AlarmsInTurn(start, env.deviceId, HashAlarm(b, calculated, env.eventId), OrderAlarm(previous, b));
      return Some(calculated);
    }

    method RecordIntegrity(env: Envelope, now: Time) returns (ok: bool)
      modifies this`events, this`snapshots
      ensures ok <==> ApplyIntegrity(cfg, old(Tables()), env, now).Some?
      ensures ok ==> Tables() == ApplyIntegrity(cfg, old(Tables()), env, now).value
    {
      if !env.body.IntegrityReport? || !IntegritySchema(env.body.report) { return false; }
      var b := env.body.report;
      var previous := LatestSnapshot(env.deviceId);
      var validated := AuditChain(env, b, previous);
      snapshots := snapshots + [SnapshotRow(env.deviceId, env.eventId, now, b.filesChecked, b.status, b.files,
                                            b.stateId, b.scanSequence, b.previousHash, validated, b.snapshotHash)];
      var alarms := FindingAlarms(b.findings, env.eventId);
      Raise(env.deviceId, alarms);
      return true;
    }

    // ---------------------------------------------------------- agent notices

    method RecordNotice(env: Envelope) returns (ok: bool)
      modifies this`events
      ensures ok <==> ApplyNotice(old(Tables()), env).Some?
      ensures ok ==> Tables() == ApplyNotice(old(Tables()), env).value
    {
      var b := env.body;
      if !b.NoticeBody?
        || b.kind !in {"AGENT_UNINSTALL_REQUESTED", "SERVICE_STOPPED_OR_MODIFIED", "SERVICE_RESTART_FAILED"}
        || !b.detailsOk
      {
        return false;
      }
      AddSecurityEvent(env.deviceId, b.kind, NoticeKey(env.eventId));
      return true;
    }

    // ---------------------------------------------------------- requests

    method Record(route: Route, env: Envelope, now: Time) returns (ok: bool)
      modifies this
      ensures ok <==> Apply(cfg, old(Tables()), route, env, now).Some?
      ensures ok ==> Tables() == Apply(cfg, old(Tables()), route, env, now).value
    {
      match route
      case HeartbeatRoute => ok := RecordHeartbeat(env, now);
      case UsageRoute => ok := RecordUsage(env);
      case IntegrityRoute => ok := RecordIntegrity(env, now);
      case EventsRoute => ok := RecordNotice(env);
    }

    /** One signed POST.  An error raised by a route rolls the whole transaction back. */
    method Post(route: Route, env: Envelope, now: Time) returns (response: Response)
      modifies this
      ensures (Tables(), response) == Handle(cfg, old(Tables()), route, env, now)
    {
      if !IsRequest(cfg, env) { return Rejected; }
      var start := Tables();
      var stopped := Verify(env, now);
      if stopped.Some? { return stopped.value; }
      var ok := Record(route, env, now);
      if ok { return Accepted(false); }
      Rollback(start);
      return Rejected;
    }

    method Rollback(start: Db)
      modifies this
      ensures Tables() == start
    {
      devices, receipts, events := start.devices, start.receipts, start.events;
      usage, snapshots, heartbeats := start.usage, start.snapshots, start.heartbeats;
    }

    method Register(id: DeviceId, key: PublicKey)
      modifies this`devices
      ensures Tables() == Enroll(old(Tables()), id, key)
    {
      devices := devices[id := Device(key, 0, None, None, "", "")];
    }

    // ---------------------------------------------------------- maintenance

    method PurgeExpired(now: Time)
      modifies this
      ensures Tables() == Purge(cfg, old(Tables()), now)
    {
      var heartbeatCutoff := now - AtLeastOne(cfg.heartbeatDays) * DAY;
      var snapshotCutoff := now - AtLeastOne(cfg.integrityDays) * DAY;
      var receiptCutoff := now - AtLeastOne(cfg.receiptDays) * DAY;
      DeleteHeartbeats(heartbeatCutoff);
      DeleteSnapshots(snapshotCutoff);
      receipts := map k | k in receipts && !(receipts[k] < receiptCutoff) :: receipts[k];
    }

    method DeleteHeartbeats(cutoff: Time)
      modifies this`heartbeats
      ensures heartbeats == KeepHeartbeats(old(heartbeats), cutoff)
    {
      var kept := [];
      assert heartbeats[0..] == heartbeats;
      for i := 0 to |heartbeats|
        invariant heartbeats == old(heartbeats)
        invariant kept + KeepHeartbeats(heartbeats[i..], cutoff) == KeepHeartbeats(heartbeats, cutoff)
      {
        assert heartbeats[i..][1..] == heartbeats[i + 1..];
        if heartbeats[i].at >= cutoff { kept := kept + [heartbeats[i]]; }
      }
      assert KeepHeartbeats(heartbeats[|heartbeats|..], cutoff) == [];
      heartbeats := kept;
    }

    method DeleteSnapshots(cutoff: Time)
      modifies this`snapshots
      ensures snapshots == KeepSnapshots(old(snapshots), cutoff)
    {
      var kept := [];
      assert snapshots[0..] == snapshots;
      for i := 0 to |snapshots|
        invariant snapshots == old(snapshots)
        invariant kept + KeepSnapshots(snapshots[i..], cutoff) == KeepSnapshots(snapshots, cutoff)
      {
        assert snapshots[i..][1..] == snapshots[i + 1..];
        if snapshots[i].at >= cutoff { kept := kept + [snapshots[i]]; }
      }
      assert KeepSnapshots(snapshots[|snapshots|..], cutoff) == [];
      snapshots := kept;
    }

    method ReconcileUnreachable(order: seq<DeviceId>, now: Time)
      modifies this`events
      ensures Tables() == Reconcile(old(Tables()), order, now)
    {
      assert order[0..] == order;
      for i := 0 to |order|
        invariant Reconcile(Tables(), order[i..], now) == Reconcile(old(Tables()), order, now)
      {
        assert order[i..][1..] == order[i + 1..];
        var id := order[i];
        if id in devices && Unreachable(devices[id], now) {
          AddSecurityEvent(id, "AGENT_UNREACHABLE", UnreachableKey(devices[id].lastSeen.value));
        }
      }
    }
  }

  lemma {:induction false} AlarmsInTurn(events: seq<SecurityEvent>, device: DeviceId, a: seq<Alarm>, b: seq<Alarm>)
    ensures AddAlarms(events, device, a + b) == AddAlarms(AddAlarms(events, device, a), device, b)
    decreases |a|
  {
    if a == [] {
      assert a + b == b;
    } else {
      assert (a + b)[0] == a[0] && (a + b)[1..] == a[1..] + b;
      AlarmsInTurn(AddEvent(events, device, a[0].kind, a[0].key), device, a[1..], b);
    }
  }

  function Maybe(events: seq<SecurityEvent>, device: DeviceId, raised: bool, alarm: Alarm): seq<SecurityEvent> {
    if raised then AddEvent(events, device, alarm.kind, alarm.key) else events
  }

  function When(raised: bool, alarm: Alarm): seq<Alarm> {
    if raised then [alarm] else []
  }

  lemma OneAlarm(events: seq<SecurityEvent>, device: DeviceId, raised: bool, alarm: Alarm)
    ensures AddAlarms(events, device, When(raised, alarm)) == Maybe(events, device, raised, alarm)
  {
    assert [alarm][1..] == [];
  }

  lemma ThreeAlarms(events: seq<SecurityEvent>, device: DeviceId, p: bool, a: Alarm, q: bool, b: Alarm, r: bool,
                    c: Alarm)
    ensures AddAlarms(events, device, When(p, a) + When(q, b) + When(r, c))
      == Maybe(Maybe(Maybe(events, device, p, a), device, q, b), device, r, c)
  {
    AlarmsInTurn(events, device, When(p, a) + When(q, b), When(r, c));
    AlarmsInTurn(events, device, When(p, a), When(q, b));
    OneAlarm(events, device, p, a);
    OneAlarm(Maybe(events, device, p, a), device, q, b);
    OneAlarm(Maybe(Maybe(events, device, p, a), device, q, b), device, r, c);
  }
}
