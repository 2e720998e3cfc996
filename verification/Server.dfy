/** The report server: the tables, what each route does to them in one transaction, and the
    handlers that carry it out. */
module Server {
  import opened Prelude
  import opened CanonicalJson
  import opened SignedMessage
  import opened Snapshot

  /** Microseconds on the shared clock. */
  type Time = int

  const SECOND: Time := 1_000_000
  const DAY: Time := 86_400 * SECOND

  type DeviceId = string
  type EventId = string
  type PublicKey = string

  // ------------------------------------------------------------ requests

  datatype Source = Local | Otel

  datatype UsageDay = UsageDay(date: string, input: nat, cached: nat, output: nat, reasoning: nat, total: nat)

  datatype IntegrityBody = IntegrityBody(
    filesChecked: int, status: string, findings: seq<Finding>, files: seq<FileMetadata>,
    stateId: Option<string>, scanSequence: Option<nat>, previousHash: Option<string>, snapshotHash: Option<string>)

  /** What the routes read from a payload.  `complete` and `quotaOk` say whether the heartbeat fields are all
      there and the quota part, if any, is valid. */
  datatype Body =
    | HeartbeatBody(complete: bool, quotaOk: bool, codexHome: string, autoDiscovered: bool,
                    fingerprint: string, telemetryOk: bool, uptime: nat)
    | UsageBody(source: Source, days: seq<UsageDay>)
    | IntegrityReport(report: IntegrityBody)
    | NoticeBody(kind: string, detailsOk: bool)
    | OtherBody

  datatype Route = HeartbeatRoute | UsageRoute | IntegrityRoute | EventsRoute

  /** Ed25519 is ideal: a signature shows the key it was made with and the text it was made over. */
  datatype Signature = Signature(key: PublicKey, message: string)

  /** `body` is the payload as the library decodes it; it is carried along and not signed. */
  datatype Envelope = Envelope(deviceId: DeviceId, sequence: int, timestamp: string, eventId: EventId,
                               payload: Json, body: Body, signature: Signature)

  /** `protocol.Sign`: the agent signs the text with the payload as Go writes it. */
  ghost function Sign(sha: string -> string, key: PublicKey, deviceId: DeviceId, sequence: int, timestamp: string,
                      eventId: EventId, payload: Json, body: Body): Envelope
  {
    Envelope(deviceId, sequence, timestamp, eventId, payload, body,
             Signature(key, Message(sha, Go, deviceId, sequence, timestamp, eventId, payload)))
  }

  ghost function ServerMessage(sha: string -> string, env: Envelope): string {
    Message(sha, Python, env.deviceId, env.sequence, env.timestamp, env.eventId, env.payload)
  }

  /** `verify_signature`: the server checks the text with the payload as Python writes it. */
  ghost predicate SignatureOk(sha: string -> string, key: PublicKey, env: Envelope) {
    env.signature == Signature(key, ServerMessage(sha, env))
  }

  datatype Response = UnknownDevice | InvalidSignature | Replayed | Rejected | Accepted(duplicate: bool)

  // ------------------------------------------------------------ tables

  datatype Device = Device(key: PublicKey, lastSequence: int, lastSeen: Option<Time>, lastRecorded: Option<Time>,
                           codexHome: string, fingerprint: string)

  datatype EventKey =
    | BadSignatureKey(event: EventId) | ReplayKey(event: EventId)
    | CodexHomeKey(event: EventId) | ConfigKey(event: EventId) | ConfigInvalidKey(event: EventId)
    | StateHashKey(event: EventId) | StateResetKey(stateId: string)
    | StateRollbackKey(stateId: string, sequence: nat) | StateChainKey(hash: string)
    | FindingKey(event: EventId, index: nat) | NoticeKey(event: EventId) | UnreachableKey(lastSeen: Time)

  datatype SecurityEvent = SecurityEvent(device: DeviceId, kind: string, key: EventKey)

  datatype UsageRow = UsageRow(device: DeviceId, source: Source, day: UsageDay, event: EventId, index: nat,
                               occurred: string)

  datatype SnapshotRow = SnapshotRow(
    device: DeviceId, event: EventId, at: Time, filesChecked: int, status: string, files: seq<FileMetadata>,
    stateId: Option<string>, scanSequence: Option<nat>, previousHash: Option<string>, snapshotHash: Option<string>,
    reportedHash: Option<string>)

  datatype HeartbeatRow = HeartbeatRow(device: DeviceId, event: EventId, sequence: int, at: Time, uptime: nat)

  datatype Db = Db(
    devices: map<DeviceId, Device>,
    receipts: map<(DeviceId, EventId), Time>,
    events: seq<SecurityEvent>,
    usage: seq<UsageRow>,
    snapshots: seq<SnapshotRow>,
    heartbeats: seq<HeartbeatRow>)

  /** The digest, the library's decoding of payloads, and the configured periods. */
  datatype Settings = Settings(sha: string -> string, decode: Json -> Body, historySeconds: int,
                               heartbeatDays: int, integrityDays: int, receiptDays: int)

  // ------------------------------------------------------------ security events

  predicate HasEvent(events: seq<SecurityEvent>, device: DeviceId, key: EventKey) {
    exists i :: 0 <= i < |events| && events[i].device == device && events[i].key == key
  }

  /** `add_security_event`: one row per device and key. */
  function AddEvent(events: seq<SecurityEvent>, device: DeviceId, kind: string, key: EventKey): seq<SecurityEvent> {
    if HasEvent(events, device, key) then events else events + [SecurityEvent(device, kind, key)]
  }

  datatype Alarm = Alarm(kind: string, key: EventKey)

  function AddAlarms(events: seq<SecurityEvent>, device: DeviceId, alarms: seq<Alarm>): seq<SecurityEvent>
    decreases |alarms|
  {
    if alarms == [] then events
    else AddAlarms(AddEvent(events, device, alarms[0].kind, alarms[0].key), device, alarms[1..])
  }

  // ------------------------------------------------------------ the gate of every signed route

  datatype Gate = Stop(db: Db, response: Response) | Pass(db: Db)

  /** `verified`. */
  ghost function Verified(cfg: Settings, db: Db, env: Envelope, now: Time): Gate {
    if env.deviceId !in db.devices then Stop(db, UnknownDevice)
    else
      var device := db.devices[env.deviceId];
      if !SignatureOk(cfg.sha, device.key, env) then
        Stop(db.(events := AddEvent(db.events, env.deviceId, "INVALID_SIGNATURE", BadSignatureKey(env.eventId))),
             InvalidSignature)
      else if (env.deviceId, env.eventId) in db.receipts then Stop(db, Accepted(true))
      else if env.sequence <= device.lastSequence then
        Stop(db.(events := AddEvent(db.events, env.deviceId, "REPLAY_ATTEMPT", ReplayKey(env.eventId))), Replayed)
      else
        Pass(db.(receipts := db.receipts[(env.deviceId, env.eventId) := now],
                 devices := db.devices[env.deviceId := device.(lastSequence := env.sequence)]))
  }

  // ------------------------------------------------------------ heartbeats

  predicate IsSampled(cfg: Settings, last: Option<Time>, now: Time) {
    last.None? || now - last.value >= cfg.historySeconds * SECOND
  }

  function HeartbeatAlarms(device: Device, env: Envelope, b: Body): seq<Alarm>
    requires b.HeartbeatBody?
  {
    (if device.codexHome != "" && device.codexHome != b.codexHome && !b.autoDiscovered
     then [Alarm("CODEX_HOME_CHANGED", CodexHomeKey(env.eventId))] else [])
    + (if device.fingerprint != "" && b.fingerprint != "" && device.fingerprint != b.fingerprint
       then [Alarm("TELEMETRY_CONFIG_CHANGED", ConfigKey(env.eventId))] else [])
    + (if !b.telemetryOk then [Alarm("TELEMETRY_CONFIG_CHANGED", ConfigInvalidKey(env.eventId))] else [])
  }

  function ApplyHeartbeat(cfg: Settings, db: Db, env: Envelope, now: Time): Option<Db> {
    var b := env.body;
    if !b.HeartbeatBody? || !b.complete || !b.quotaOk || env.deviceId !in db.devices then None
    else
      var device := db.devices[env.deviceId];
      var sampled := IsSampled(cfg, device.lastRecorded, now);
      var seen := device.(lastSeen := Some(now), codexHome := b.codexHome,
                          fingerprint := if b.fingerprint != "" then b.fingerprint else device.fingerprint,
                          lastRecorded := if sampled then Some(now) else device.lastRecorded);
      Some(db.(devices := db.devices[env.deviceId := seen],
               events := AddAlarms(db.events, env.deviceId, HeartbeatAlarms(device, env, b)),
               heartbeats := if sampled
                 then db.heartbeats + [HeartbeatRow(env.deviceId, env.eventId, env.sequence, now, b.uptime)]
                 else db.heartbeats))
  }

  // ------------------------------------------------------------ usage

  const MAX_DAYS := 400

  /** The shape that `date.fromisoformat` accepts for the agent's dates. */
  predicate IsoDate(s: string) {
    |s| == 10 && s[4] == '-' && s[7] == '-' && forall i :: 0 <= i < 10 && i != 4 && i != 7 ==> IsDigit(s[i])
  }

  predicate UsageSchema(b: Body) {
    b.UsageBody? && |b.days| <= MAX_DAYS && forall i :: 0 <= i < |b.days| ==> IsoDate(b.days[i].date)
  }

  predicate SameCell(row: UsageRow, device: DeviceId, source: Source, date: string) {
    row.device == device && row.source == source && row.day.date == date
  }

  /** The first row for that device, source and day, if any. */
  function FindCell(rows: seq<UsageRow>, device: DeviceId, source: Source, date: string): (i: nat)
    ensures i <= |rows|
    ensures i < |rows| ==> SameCell(rows[i], device, source, date)
    ensures forall k :: 0 <= k < i ==> !SameCell(rows[k], device, source, date)
  {
    if rows == [] || SameCell(rows[0], device, source, date) then 0
    else 1 + FindCell(rows[1..], device, source, date)
  }

  function Upsert(rows: seq<UsageRow>, row: UsageRow): seq<UsageRow> {
    var i := FindCell(rows, row.device, row.source, row.day.date);
    if i < |rows| then rows[i := row] else rows + [row]
  }

  function UsageRowOf(env: Envelope, source: Source, day: UsageDay, index: nat): UsageRow {
    UsageRow(env.deviceId, source, day, env.eventId, index, env.timestamp)
  }

  /** The days from position `i` on, upserted in order. */
  function UpsertDays(rows: seq<UsageRow>, env: Envelope, source: Source, days: seq<UsageDay>, i: nat): seq<UsageRow>
    requires i <= |days|
    decreases |days| - i
  {
    if i == |days| then rows
    else UpsertDays(Upsert(rows, UsageRowOf(env, source, days[i], i)), env, source, days, i + 1)
  }

  function ApplyUsage(db: Db, env: Envelope): Option<Db> {
    if !UsageSchema(env.body) then None
    else Some(db.(usage := UpsertDays(db.usage, env, env.body.source, env.body.days, 0)))
  }

  // ------------------------------------------------------------ integrity

  predicate IsStateId(s: string) { IsHex(s) && |s| == 32 }

  predicate FileSchema(m: FileMetadata) {
    16 <= |m.opaqueId| <= 64 && IsHex(m.prefixHash) && (m.fullHash.Some? ==> IsHex(m.fullHash.value))
  }

  predicate FindingSchema(f: Finding) {
    && f.eventType in {"AGENT_BINARY_MODIFIED", "CCUSAGE_BINARY_MODIFIED", "TELEMETRY_CONFIG_CHANGED",
                       "CODEX_HOME_CHANGED", "LOG_PREFIX_MODIFIED", "LOG_TRUNCATED", "LOG_DELETED",
                       "ARCHIVED_LOG_MODIFIED", "USAGE_SOURCE_MISMATCH", "AGENT_UNINSTALL_REQUESTED",
                       "SERVICE_STOPPED_OR_MODIFIED", "SERVICE_RESTART_FAILED", "SERVICE_CONFIGURATION_CHANGED",
                       "SERVICE_AUTOSTART_DISABLED", "SERVICE_RECOVERY_DISABLED", "WATCHDOG_DISABLED",
                       "AGENT_PERMISSIONS_WEAKENED", "CONFIG_PERMISSIONS_WEAKENED", "KEY_PROTECTION_WEAK",
                       "INTEGRITY_STATE_RESET", "INTEGRITY_STATE_ROLLBACK", "INTEGRITY_CHAIN_BROKEN",
                       "INTEGRITY_SNAPSHOT_HASH_INVALID"}
    && f.severity in {"INFO", "WARNING", "CRITICAL"}
    && (f.opaqueId.Some? ==> |f.opaqueId.value| <= 64)
  }

  predicate HasChain(b: IntegrityBody) { b.stateId.Some? && b.scanSequence.Some? && b.snapshotHash.Some? }

  predicate ChainSchema(b: IntegrityBody) {
    && (b.stateId.Some? || b.scanSequence.Some? || b.snapshotHash.Some? || b.previousHash.Some? ==> HasChain(b))
    && (b.stateId.Some? ==> IsStateId(b.stateId.value))
    && (b.scanSequence.Some? ==> b.scanSequence.value >= 1)
    && (b.snapshotHash.Some? ==> IsHex(b.snapshotHash.value))
    && (b.previousHash.Some? ==> IsHex(b.previousHash.value))
  }

  predicate IntegritySchema(b: IntegrityBody) {
    && 0 <= b.filesChecked <= 1_000_000 && b.status in {"OK", "TAMPER", "UNKNOWN"}
    && |b.findings| <= 1000 && (forall i :: 0 <= i < |b.findings| ==> FindingSchema(b.findings[i]))
    && |b.files| <= 10000 && (forall i :: 0 <= i < |b.files| ==> FileSchema(b.files[i]))
    && ChainSchema(b)
  }

  /** The newest snapshot of a device; among equal times the last one stored. */
  function Latest(rows: seq<SnapshotRow>, device: DeviceId): Option<SnapshotRow> {
    if rows == [] then None
    else
      var last, earlier := rows[|rows| - 1], Latest(rows[..|rows| - 1], device);
      if last.device == device && (earlier.None? || earlier.value.at <= last.at) then Some(last) else earlier
  }

  /** The chain document that the server rebuilds from a report. */
  function BodyLink(b: IntegrityBody): Link
    requires HasChain(b)
  {
    Link(b.stateId.value, b.scanSequence.value, if b.previousHash.Some? then b.previousHash.value else "", b.files,
         b.findings)
  }

  ghost function BodyHash(cfg: Settings, b: IntegrityBody): string
    requires HasChain(b)
  {
    LinkHash(cfg.sha, Python, BodyLink(b))
  }

  function HashAlarm(b: IntegrityBody, computed: string, event: EventId): seq<Alarm>
    requires HasChain(b)
  {
    if computed != b.snapshotHash.value then [Alarm("INTEGRITY_SNAPSHOT_HASH_INVALID", StateHashKey(event))] else []
  }

  function OrderAlarm(previous: Option<SnapshotRow>, b: IntegrityBody): seq<Alarm>
    requires HasChain(b)
  {
    if previous.None? then []
    else
      var p := previous.value;
      if p.stateId.Some? && p.stateId != b.stateId then [Alarm("INTEGRITY_STATE_RESET", StateResetKey(b.stateId.value))]
      else if p.scanSequence.Some? && b.scanSequence.value <= p.scanSequence.value then
        [Alarm("INTEGRITY_STATE_ROLLBACK", StateRollbackKey(b.stateId.value, b.scanSequence.value))]
      else if p.snapshotHash.Some? && b.previousHash != p.snapshotHash then
        [Alarm("INTEGRITY_CHAIN_BROKEN", StateChainKey(b.snapshotHash.value))]
      else []
  }

  /** The audit of one report against the latest stored snapshot. */
  ghost function ChainAlarms(cfg: Settings, previous: Option<SnapshotRow>, b: IntegrityBody,
                             event: EventId): seq<Alarm> {
    if HasChain(b) then HashAlarm(b, BodyHash(cfg, b), event) + OrderAlarm(previous, b) else []
  }

  ghost function SnapshotOf(cfg: Settings, env: Envelope, b: IntegrityBody, now: Time): SnapshotRow {
    SnapshotRow(env.deviceId, env.eventId, now, b.filesChecked, b.status, b.files, b.stateId, b.scanSequence,
                b.previousHash, if HasChain(b) then Some(BodyHash(cfg, b)) else b.snapshotHash, b.snapshotHash)
  }

  function FindingAlarms(findings: seq<Finding>, event: EventId): seq<Alarm> {
    seq(|findings|, i requires 0 <= i < |findings| => Alarm(findings[i].eventType, FindingKey(event, i)))
  }

  ghost function ApplyIntegrity(cfg: Settings, db: Db, env: Envelope, now: Time): Option<Db> {
    if !env.body.IntegrityReport? || !IntegritySchema(env.body.report) then None
    else
      var b := env.body.report;
      var audited := AddAlarms(db.events, env.deviceId,
                               ChainAlarms(cfg, Latest(db.snapshots, env.deviceId), b, env.eventId));
      Some(db.(snapshots := db.snapshots + [SnapshotOf(cfg, env, b, now)],
               events := AddAlarms(audited, env.deviceId, FindingAlarms(b.findings, env.eventId))))
  }

  // ------------------------------------------------------------ agent notices

  function ApplyNotice(db: Db, env: Envelope): Option<Db> {
    var b := env.body;
    if !b.NoticeBody? || !b.detailsOk
      || b.kind !in {"AGENT_UNINSTALL_REQUESTED", "SERVICE_STOPPED_OR_MODIFIED", "SERVICE_RESTART_FAILED"}
    then None
    else Some(db.(events := AddEvent(db.events, env.deviceId, b.kind, NoticeKey(env.eventId))))
  }

  // ------------------------------------------------------------ transactions

  ghost function Apply(cfg: Settings, db: Db, route: Route, env: Envelope, now: Time): Option<Db> {
    match route
    case HeartbeatRoute => ApplyHeartbeat(cfg, db, env, now)
    case UsageRoute => ApplyUsage(db, env)
    case IntegrityRoute => ApplyIntegrity(cfg, db, env, now)
    case EventsRoute => ApplyNotice(db, env)
  }

  /** The value stands for a request: its number is positive and its body is the decoded payload. */
  predicate IsRequest(cfg: Settings, env: Envelope) {
    env.sequence > 0 && env.body == cfg.decode(env.payload)
  }

  /** One signed POST: a rejected report leaves nothing behind, not even its receipt. */
  ghost function Handle(cfg: Settings, db: Db, route: Route, env: Envelope, now: Time): (Db, Response) {
    if !IsRequest(cfg, env) then (db, Rejected)
    else
      match Verified(cfg, db, env, now)
      case Stop(d, response) => (d, response)
      case Pass(d) =>
        match Apply(cfg, d, route, env, now)
        case None => (db, Rejected)
        case Some(applied) => (applied, Accepted(false))
  }

  /** Registration creates a device under a new identifier. */
  function Enroll(db: Db, id: DeviceId, key: PublicKey): Db {
    db.(devices := db.devices[id := Device(key, 0, None, None, "", "")])
  }

  function AtLeastOne(days: int): int { if days < 1 then 1 else days }

  function KeepHeartbeats(rows: seq<HeartbeatRow>, cutoff: Time): seq<HeartbeatRow> {
    if rows == [] then []
    else (if rows[0].at < cutoff then [] else [rows[0]]) + KeepHeartbeats(rows[1..], cutoff)
  }

  function KeepSnapshots(rows: seq<SnapshotRow>, cutoff: Time): seq<SnapshotRow> {
    if rows == [] then []
    else (if rows[0].at < cutoff then [] else [rows[0]]) + KeepSnapshots(rows[1..], cutoff)
  }

  /** `purge_expired_telemetry`. */
  function Purge(cfg: Settings, db: Db, now: Time): Db {
    db.(heartbeats := KeepHeartbeats(db.heartbeats, now - AtLeastOne(cfg.heartbeatDays) * DAY),
        snapshots := KeepSnapshots(db.snapshots, now - AtLeastOne(cfg.integrityDays) * DAY),
        receipts := map k | k in db.receipts && !(db.receipts[k] < now - AtLeastOne(cfg.receiptDays) * DAY) ::
          db.receipts[k])
  }

  const LATE_SECONDS := 600

  predicate Unreachable(device: Device, now: Time) {
    device.lastSeen.Some? && now - device.lastSeen.value > LATE_SECONDS * SECOND
  }

  /** `reconcile_unreachable` over the devices in the order the query returns them. */
  function Reconcile(db: Db, order: seq<DeviceId>, now: Time): Db
    decreases |order|
  {
    if order == [] then db
    else
      var id := order[0];
      var next := if id in db.devices && Unreachable(db.devices[id], now)
        then db.(events := AddEvent(db.events, id, "AGENT_UNREACHABLE", UnreachableKey(db.devices[id].lastSeen.value)))
        else db;
      Reconcile(next, order[1..], now)
  }
}
