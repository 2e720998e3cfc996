# Classroom monitor: a verified model

This Dafny project models the Codex classroom monitor, a device agent written in Go and a report server
written in Python, and proves what the two promise together.

The agent watches Codex session logs. Each integrity scan compares the log files with saved checkpoints and
extends a hash chain. Reports are signed, numbered, kept in a durable queue and flushed over an unreliable
network. The server verifies each report, keeps receipts against replays, audits the chain, stores absolute
usage figures, samples heartbeats and purges old rows.

## Layout

| files | subject |
|---|---|
| `Prelude` | options, the key order of both JSON writers, sorted enumerations |
| `CanonicalJson`, `CanonicalTheorems` | the canonical JSON writer, a parser that inverts it, agreement of the two encoders |
| `SignedMessage`, `SignatureGate`, `Snapshot` | the signed text, what an ideal signature over it lets through, and the chain document |
| `IntegrityScan`, `ScanTheorems`, `ScanReports`, `CleanScans` | the scanner, exact classification and lineage, what a report says about the contents, no false alarms |
| `Server`, `ServerApp`, `ServerSafety`, `ServerOutcomes` | the tables and transactions, the handlers as they run, safety for any clients, what each transaction leaves behind |
| `SnapshotChain`, `HonestChain` | what a quiet audit proves; honest agents keep it quiet |
| `Queue`, `Protocol`, `ProtocolSafety`, `NothingLost`, `ReplayBoundary`, `Client` | the report protocol as a state machine with crashes and losses, and the client that refines it |
| `OTel`, `OTelReading`, `OTelTheorems`, `UsageDelivery`, `EndToEnd` | the usage collector, its conservation law, and delivery to the server |
| `RateLimit`, `HeartbeatBound` | the sliding window and the bound on stored heartbeats |
| `Telemetry`, `TelemetryTheorems`, `TelemetryEdges`, `CodexHome` | the config rewrite and the choice of the Codex home |

Code that updates state step by step is a class or a method with loops (`Buffer`, `IntegrityStore`, `App`,
`DurableQueue`, `Client`, `OTelStore`, `Limiter`, `HomeFollower`, `Strip`), proved against specification
functions; the theorems are about those functions and about runs of them.

## How to read the main results

- **Hashes and signatures are ideal.** SHA-256 is a function parameter; theorems that need it assume that it
  does not collide and yields hexadecimal text. A signature is a value over a key and a text: the agent signs
  the message with the payload as Go writes it, and the server checks it against the message with the payload
  as Python writes it. So an honest report passes if and only if its payload is plain (`SignatureExactly`),
  and a signature made over one-line fields is good for no other fields, whatever the forger puts into them
  (`MessageInjective`, `SignatureFixesFields`). In the protocol other parties may post envelopes signed
  under any other key, and envelopes that carry a signature of the agent over other fields than it signed.
- **The scanner** works on a map from path to content. The inner loop over the checkpoint map picks keys in
  an arbitrary order, and `Possible` describes every outcome that this can have. `archived_sessions/` sorts
  before `sessions/`, so an active file that is still there may be claimed by a new archive file that begins
  with its content. `CleanExactly` shows that this is the only way honest activity can be misjudged.
  The relation `Scanned` of the theorems is never empty: the method `Scan` has no precondition and ends in it.
- **The protocol** (`Protocol.World`) consists of the agent's memory, its disk, the server's tables, a clock
  shared by both and history for stating the theorems. A `Move` is one atomic action: signing, one file
  replacement, one round trip that may lose its request or its response, a crash and restart, any server
  activity that the agent did not cause, even the loss of the whole database. `Client`'s methods are proved
  to perform such moves, whatever fails. A request refused by the rate limiter, or dropped by a server that
  stops before its commit, is a lost request.
- **Laws of the definitions.** The specification functions that methods are proved against have laws of their
  own, stated on contents, tables and texts without naming them: `KindsExactly` for the scanner's verdicts,
  `ServerOutcomes` for the transactions, `RecordCounted` for the collector, `LexExactly`, `ObjectInOrder` and
  `MessageLines` for the signed text, `HeaderExactly` and `ClassroomSection` for the rewrite.
- **Delivery.** `NeverDropped` says why a queued report can leave the queue, `ExactlyOnce` that it takes effect
  once, `UsageArrives` what the server then holds.
- **Chain.** Purges may run at any time; the theorems about a quiet audit ask only that no purge removes the
  device's latest snapshot (`KeepsLatest`).
- **Replays.** `Sound` asks that receipts live at least as long as the oldest age a queued item can have when
  it survives a push, plus the longest delay from a push to a later send. With the shipped settings (30 days
  in the queue, 35 days of receipts) that leaves five days for the delay. `ReplaySafeExactly` shows that the
  condition is exact.
- **Usage.** The server's rows are absolute, so a lost or expired snapshot is repaired by the next one.
  `UsageArrives` and `CountedAtServer` carry a counter from the collector's records to the server's table.

## Where code and documentation or expectation differ

- A payload with a text that holds `<`, `>`, `&`, U+2028 or U+2029 is signed over one text by the agent and
  checked over another by the server. Such an honest report of a known device is always refused as forged
  (`HonestGate`), stays at the head of the queue and holds up the reports behind it until it expires
  (`UnplainStays`). The Codex version of a heartbeat is unfiltered command output, so a `<` in it is enough
  (`HeartbeatRefused`). `NeverTakenForReplayer` and `HeadAnswer` therefore say exactly when a report of the
  agent is refused as forged: when its payload is not plain.
- The telemetry rewrite is not idempotent on every file: the header pattern knows five white space
  characters, the trim knows all of Unicode's. `IdempotentExactly` gives the exact condition on the lines that
  survive, `HiddenHeader` a file that fails it, and `OrdinaryIdempotent` the common case.
- A record's identity for de-duplication holds neither its total nor its day, so of two records that differ
  only there the first one wins. `OrderMatters` states exactly when that shows, at any arrival times, so also
  for a record without a time that comes again after midnight; `TotalsDisagree` names two such records.
- A duplicate does not renew the memory of its record. A record counted at time 0, repeated when the retention
  ends and once more a second later counts again (`RepeatForgotten`); `RepeatInTime` says which repeats are safe.
- A scan saves its state before its report is queued. If the report is lost, the next one does not link up:
  the audit of an honest device stays silent exactly when the delivered scans are consecutive
  (`HonestQuietExactly`).

## Model

| member | source | states |
|---|---|---|
| `Prelude.LexExactly` | `agent/codex-guard/internal/protocol/protocol.go:72` | the sorts' order is the one of dictionaries: a text comes before its own extensions, and otherwise the first different character decides |
| `CanonicalJson.WriteCanonical` | `agent/codex-guard/internal/protocol/protocol.go:41-90` | the recursive writer appends exactly the canonical text of the document, in either dialect of string escapes |
| `CanonicalJson.KeysInOrder` | `agent/codex-guard/internal/protocol/protocol.go:67-72` | whatever order the map yields its keys in, the loop visits them in one order, in which every key comes before its extensions and otherwise the first different character decides, so the text does not depend on map iteration |
| `CanonicalTheorems.ObjectInOrder` | `agent/codex-guard/internal/protocol/protocol.go:67-86` | an object is written with its members in that order of their keys, however the keys were gathered |
| `CanonicalTheorems.RoundTrip` | `agent/codex-guard/internal/protocol/protocol.go:25-90` | a parser that takes no raw control characters reads the canonical text of a tree of null, booleans, integers, strings, arrays and objects back; for Go the integers are those within 2^53, which its float64 step keeps |
| `CanonicalTheorems.EncodingInjective` | `agent/codex-guard/internal/protocol/protocol.go:25-90` | two documents never share a canonical text, even when Go wrote one and Python the other, as long as what Go wrote lies within 2^53 |
| `CanonicalTheorems.EncodersAgree` | `server/app/security.py:15-16` | for integers within 2^53 the Go and the Python text are equal if and only if no string holds one of `<`, `>`, `&`, U+2028, U+2029 |
| `SignatureGate.MessageLines` | `agent/codex-guard/internal/protocol/protocol.go:92-102` | the signed text has five lines: device, number in decimal, time, event, and the digest of the payload's text |
| `SignedMessage.MessageInjective` | `agent/codex-guard/internal/protocol/protocol.go:92-102` | if the fields of one signed text hold no newline, equal texts come from equal device, sequence, time, event and payload, whatever the fields behind the other text hold |
| `SignedMessage.MessagesAgree` | `server/app/security.py:19-21` | agent and server build the same signed text for a payload if and only if the payload is plain |
| `SignatureGate.SignatureExactly` | `agent/codex-guard/internal/protocol/protocol.go:92-102` | an honest signature verifies on the server if and only if no text of the payload holds one of `<`, `>`, `&`, U+2028, U+2029 |
| `SignatureGate.SignatureFixesFields` | `server/app/security.py:19-31` | a signature of the agent verifies for no other device, sequence, time, event or payload, even if the forged fields hold newlines |
| `SignatureGate.HonestGate` | `server/app/main.py:251-277` | an honest report of a known device is refused as forged if and only if its payload is not plain; then one INVALID_SIGNATURE event is there and nothing else changed |
| `SignatureGate.HeartbeatRefused` | `agent/codex-guard/internal/agent/client.go:260` | an honest heartbeat whose Codex version holds a `<` is refused as forged |
| `Snapshot.LinkFields` | `agent/codex-guard/internal/agent/integrity.go:262-269` | the hashed document has exactly the five named fields, with one entry in order for each file and each finding |
| `Snapshot.LinkHashInjective` | `agent/codex-guard/internal/agent/integrity.go:262-275` | equal snapshot digests come from equal state id, scan number, back-link, file list and finding list |
| `Snapshot.LinkHashAgrees` | `server/app/main.py:393-401` | for plain fields the server recomputes the very digest that the agent reported |
| `IntegrityScan.FindMove` | `agent/codex-guard/internal/agent/integrity.go:214-227` | the move search returns some unused active checkpoint whose content is a prefix of the new archive file, and fails only if there is none, for every map order |
| `IntegrityScan.Reconcile` | `agent/codex-guard/internal/agent/integrity.go:171-242` | the loop over sorted paths yields a possible set of claims, the re-based checkpoints of every discovered path, and exactly the findings of the paths still present |
| `IntegrityScan.ListDeleted` | `agent/codex-guard/internal/agent/integrity.go:243-252` | the second pass reports each checkpoint whose path is gone and that no archive file claimed, once each, and no other |
| `IntegrityScan.ListMetadata` | `agent/codex-guard/internal/agent/integrity.go:253-257` | one metadata row for each new checkpoint, sorted by opaque id |
| `IntegrityScan.IntegrityStore.Scan` | `agent/codex-guard/internal/agent/integrity.go:155-280` | a scan from the loaded state leaves a state and a report in the relation `Scanned`: claims, findings, metadata, status, counter, back-link and digest |
| `ScanTheorems.InspectExact` | `agent/codex-guard/internal/agent/integrity.go:183-209` | a checkpoint is unflagged at its own path exactly when an archived file is unchanged or an active file kept its old content as a prefix; it matches a new archive file exactly in the latter sense |
| `ScanTheorems.Classification` | `agent/codex-guard/internal/agent/integrity.go:172-280` | one finding per flagged checkpoint and at most one per old checkpoint, status OK exactly when none is flagged, and a new state that covers exactly the discovered files; `KindsExactly` and `GoneExactly` say which |
| `ScanTheorems.DeletedExactly` | `agent/codex-guard/internal/agent/integrity.go:243-252` | with distinct ids no checkpoint is reported twice, and LOG_DELETED is raised for a checkpoint exactly when its path is gone and no archive file claimed it |
| `ScanReports.LogsExactly` | `agent/codex-guard/internal/agent/integrity.go:115-153` | a file is scanned exactly if it lies in one of the two directories and ends in .jsonl in any mixture of cases |
| `ScanReports.KindsExactly` | `agent/codex-guard/internal/agent/integrity.go:182-211` | for a path that is still there the report names, under the checkpoint's id and with both content lengths, ARCHIVED_LOG_MODIFIED exactly if an archived file's content differs, LOG_TRUNCATED exactly if an active file is shorter, LOG_PREFIX_MODIFIED exactly if it is not shorter and its beginning differs, and nothing else |
| `ScanReports.GoneExactly` | `agent/codex-guard/internal/agent/integrity.go:243-252` | for a path that is gone the report holds LOG_DELETED with the old length, or nothing if an archive file took over |
| `ScanReports.EveryFinding` | `agent/codex-guard/internal/agent/integrity.go:172-252` | every finding carries the id of some old checkpoint |
| `ScanReports.MetadataExactly` | `agent/codex-guard/internal/agent/integrity.go:253-257` | the rows are exactly the discovered files, with length, digest, full digest only for archives, kind and time |
| `ScanReports.FirstScan` | `agent/codex-guard/internal/agent/integrity.go:80-100` | without a saved state the scan finds nothing, draws every id, and starts the chain with number 1 and no back-link |
| `ScanTheorems.Settles` | `agent/codex-guard/internal/agent/integrity.go:172-280` | scanning an unchanged filesystem again from any saved scan finds nothing and reports the same metadata as a multiset |
| `ScanTheorems.Lineage` | `agent/codex-guard/internal/agent/integrity.go:172-252` | over any run of scans without findings each tracked file has a successor in every later scan, with its old content as a prefix, frozen once archived, under the same opaque id |
| `ScanTheorems.LineagesNeverMerge` | `agent/codex-guard/internal/agent/integrity.go:213-235` | over such a run different files never continue in one file |
| `CleanScans.CleanExactly` | `agent/codex-guard/internal/agent/integrity.go:213-252` | honest activity raises no alarm and keeps ids apart under every map iteration order if and only if no new archive file can be mistaken for another active log |
| `CleanScans.CleanReport` | `agent/codex-guard/internal/agent/integrity.go:172-280` | in that case the report is OK, ids are preserved along moves and stay pairwise distinct |
| `CleanScans.ImpostorMisleads` | `agent/codex-guard/internal/agent/integrity.go:216-227` | otherwise some iteration order of the checkpoint map gives a wrong outcome |
| `ServerOutcomes.AnswerExactly` | `server/app/main.py:251-277` | each answer has its exact cause: unknown device, wrong signature, known receipt, a number that is not larger, or none of them |
| `ServerOutcomes.RefusalAlarms` | `server/app/main.py:258-267` | a refused replay leaves a REPLAY_ATTEMPT row and a refused forgery an INVALID_SIGNATURE row under that event, once, and nothing else; other refusals and duplicates leave nothing |
| `ServerOutcomes.RejectedExactly` | `server/app/main.py:280-465` | a report that passes the gate is rejected exactly for a missing heartbeat field or a bad quota, more than 400 days or a malformed date, a report outside the integrity schema, or an unknown notice |
| `ServerOutcomes.HeartbeatAlarmsExactly` | `server/app/main.py:293-303` | an accepted heartbeat raises the alarm for a changed home not found automatically, for a changed fingerprint and for a bad configuration, each exactly then, and no other |
| `ServerOutcomes.HeartbeatStored` | `server/app/main.py:280-338` | which fields of the device an accepted heartbeat sets, and that a history row is added exactly when the sampling interval is over |
| `ServerOutcomes.NoticeStored` | `server/app/main.py:451-465` | a notice becomes one row of its own kind |
| `ServerOutcomes.LatestExactly` | `server/app/main.py:387` | the report is compared with a snapshot of the device that none is newer than, among equal times the last stored |
| `ServerOutcomes.SnapshotStored` | `server/app/main.py:434-443` | an accepted report adds one snapshot with the report's fields, the server's digest and the reported one |
| `ServerOutcomes.ChainAlarmsExactly` | `server/app/main.py:393-410` | over the event table: a wrong digest, another state id, a number that does not grow and a wrong back-link each raise their own kind of event, the last three exclude each other |
| `ServerOutcomes.FindingsStored` | `server/app/main.py:444-446` | the trail grows by at most two chain events and then by one row for each finding, in order and of the finding's kind |
| `ServerOutcomes.UsageStored` | `server/app/main.py:351-368` | a usage report of either source replaces exactly the cells of its dates, the last of equal dates wins, and each row names its event, position and time |
| `ServerOutcomes.PurgeExactly` | `server/app/services.py:85-97` | each of the three tables keeps exactly the rows that are not older than its own retention, a day at least, and the rest is untouched |
| `ServerOutcomes.UnreachableExactly` | `server/app/services.py:62-82` | a device gets an AGENT_UNREACHABLE row for its last-seen time exactly if that is more than ten minutes ago |
| `ServerApp.App.AddSecurityEvent` | `server/app/services.py:49-59` | the audit table gains the row, unless one with that device and key is there |
| `ServerApp.App.SignatureMessage` | `server/app/security.py:15-21` | the server builds its message from the payload as Python writes it |
| `ServerApp.App.Verify` | `server/app/main.py:251-277` | the gate answers unknown device, forged, duplicate, replayed or pass, and changes events, receipts and the device's counter exactly as the specification says; forged means that the signature is not over the server's message text |
| `ServerApp.App.RecordHeartbeat` | `server/app/main.py:280-338` | the handler's step by step changes amount to the heartbeat transaction; it fails exactly on a missing field or an invalid quota |
| `ServerApp.App.RecordUsage` | `server/app/main.py:341-375` | the loop over the days upserts each one absolutely |
| `ServerApp.App.RecordIntegrity` | `server/app/main.py:378-448` | the chain audit, the stored snapshot and the findings' events of one report |
| `ServerApp.App.AuditChain` | `server/app/main.py:393-410` | which of the four chain events are raised, and that the server stores its own digest |
| `ServerApp.App.Post` | `server/app/main.py:251-465` | one signed request is one transaction; a rejection after partial changes restores the start state, receipt included |
| `ServerApp.App.PurgeExpired` | `server/app/services.py:85-97` | heartbeats, snapshots and receipts older than their retention, and no other rows, disappear |
| `ServerApp.App.ReconcileUnreachable` | `server/app/services.py:77-82` | one event per device and last-seen time for devices silent beyond the limit |
| `ServerSafety.HandleFrame` | `server/app/main.py:251-277` | a report takes effect only with a valid signature, a larger number and a new receipt; a rejection, a duplicate or an unknown device changes nothing at all |
| `ServerSafety.AppliedIncreasing` | `server/app/main.py:251-277` | for any clients and any interleaving with purges and registrations, the reports of a device take effect in strictly increasing sequence order |
| `ServerSafety.NeverAppliedTwice` | `server/app/main.py:251-277` | no envelope takes effect twice, not even after its receipt was purged |
| `ServerSafety.AuditTrail` | `server/app/services.py:49-59` | over every run the event table is only appended to and holds at most one row per device and key |
| `ServerSafety.UsageStaysUnique` | `server/app/main.py:351-363` | over every run there is at most one usage row per device, source and day |
| `SnapshotChain.AuditExact` | `server/app/main.py:387-410` | the audit of a report with chain fields is silent exactly when digest, state id, scan number and back-link are right |
| `SnapshotChain.QuietExactlyLinked` | `server/app/main.py:387-448` | as long as purges spare the device's latest snapshot, no chain event is recorded for it if and only if its whole history is correctly linked |
| `SnapshotChain.LinkedStaysQuiet` | `server/app/main.py:387-448` | a linked history raises no chain event whatever else happens and is purged in between |
| `SnapshotChain.Commitment` | `server/app/main.py:393-443` | of two histories with quiet audits, kept latest snapshots and equal latest stored digests the shorter is a suffix of the longer, report by report, whatever else was purged |
| `SnapshotChain.QuietScansIncrease` | `server/app/main.py:405-408` | scan numbers of a quietly audited device strictly increase under one state id, across purges of its older snapshots |
| `HonestChain.HonestAccepted` | `server/app/schemas.py:68-136` | the server's schema rejects an honest report exactly when it has more than 1000 findings or 10000 files |
| `HonestChain.HonestLinked` | `agent/codex-guard/internal/agent/integrity.go:262-280` | the reports of consecutive scans link up in the server's digest, after the previous report and as the first one seen of a device |
| `HonestChain.HonestNeverAlarmed` | `server/app/main.py:393-410` | an unbroken run of scans delivered in order causes no invalid-hash, reset, rollback or broken-link event, whatever its findings, also after re-enrollment and purges |
| `HonestChain.HonestQuietExactly` | `server/app/main.py:393-410` | when any of an honest agent's reports arrive in order, the audit is silent if and only if the scans they come from are consecutive |
| `Queue.DurableQueue.Push` | `agent/codex-guard/internal/queue/queue.go:59-75` | the in-place compaction keeps exactly the young items in order, then the new item is appended; a failed replacement changes nothing |
| `Queue.RetainedExactly` | `agent/codex-guard/internal/queue/queue.go:66-72` | an item survives a push exactly when it is younger than the retention |
| `Queue.DurableQueue.Pop` | `agent/codex-guard/internal/queue/queue.go:85-93` | removes the head, or nothing when the queue is empty or the file cannot be replaced |
| `Protocol.QueueAlwaysFits` | `agent/codex-guard/internal/agent/client.go:130-236` | from enrollment on, at every point of every run, with crashes anywhere, queued envelopes carry the persisted device id and strictly increasing numbers below the persisted counter |
| `Protocol.NeverSkips` | `agent/codex-guard/internal/agent/client.go:130-135` | the early return of re-enrollment is unreachable from a flush |
| `Protocol.HeadIsCurrent` | `agent/codex-guard/internal/agent/client.go:219-227` | the head that a flush sends belongs to the identity in memory |
| `Client.Client.SignEnvelope` | `agent/codex-guard/internal/protocol/protocol.go:92-102` | signing the payload as Go writes it and counting up is a move of the protocol's world |
| `Client.Client.Enqueue` | `agent/codex-guard/internal/agent/client.go:166-190` | signing, saving and queueing, with either write failing, are moves of the protocol's world |
| `Client.Client.ReEnrollIfCurrent` | `agent/codex-guard/internal/agent/client.go:130-164` | recovery, failing at any point, is a sequence of moves; on success memory, disk and queue hold the new identity, number 1 and nothing |
| `Client.Client.Flush` | `agent/codex-guard/internal/agent/client.go:200-236` | the send-and-pop loop is a sequence of moves and succeeds only with an empty queue |
| `Client.Client.OTelUsage` | `agent/codex-guard/internal/agent/otel.go:213-228` | queues the whole store as one absolute snapshot, in any map order, and flushes |
| `Client.Client.IngestOTLP` | `agent/codex-guard/internal/agent/otel.go:102-173` | a batch only lets the set of days grow, so it is a move of the world in any phase |
| `Client.Client.Restart` | `agent/codex-guard/internal/config/config.go:70-96` | a restarted process continues with the identity and counter on disk |
| `ProtocolSafety.HeadAnswer` | `server/app/main.py:251-277` | the server answers the head of the queue as unknown, forged, new, duplicate or rejected; as forged exactly when a known device's payload is not plain, else as duplicate exactly when its number is the last applied one |
| `ProtocolSafety.UnplainStays` | `agent/codex-guard/internal/agent/client.go:200-236` | a head that is not plain is refused and stays in the queue |
| `ProtocolSafety.NeverTakenForReplayer` | `agent/codex-guard/internal/agent/client.go:166-236` | with lost requests and responses, crashes, purges, database resets and foreign envelopes that reuse the agent's signatures, no replay alarm is ever raised for the agent, no report of it is refused as replayed, and a known device's report is refused as forged if and only if its payload is not plain |
| `ProtocolSafety.ExactlyOnce` | `server/app/main.py:265-277` | a report that took effect is answered as a duplicate ever after, unless the server lost the device, and only such a report is called a duplicate |
| `NothingLost.NeverDropped` | `agent/codex-guard/internal/agent/client.go:130-236` | with losses and crashes anywhere, a queued report stays queued until the server acknowledges it, unless it outlives the retention at a push or the server answers that it does not know the device |
| `ReplayBoundary.TakenForReplayer` | `server/app/services.py:85-97` | with receipts that do not outlive the queue there is a run from enrollment in which an honest retry is refused as replayed and the server holds a replay alarm against the agent |
| `ReplayBoundary.ReplaySafeExactly` | `server/app/services.py:85-97` | honest agents are never refused as replayed, and equally never have a replay alarm against them, if and only if receipt retention covers the oldest age a queued item can have at a push plus the longest delay from push to send |
| `Client.UsageShown` | `agent/codex-guard/internal/agent/usage.go:24-31` | the agent's usage document holds each count under its own name of the server's schema |
| `UsageDelivery.DaysHold` | `server/app/main.py:351-368` | upserting a snapshot makes the device's otel rows the old ones overridden by the snapshot's days |
| `UsageDelivery.StepHolds` | `server/app/main.py:341-375` | no other transaction touches the otel rows of a device |
| `UsageDelivery.UsageArrives` | `agent/codex-guard/internal/agent/otel.go:213-228` | once the last queued snapshot is acknowledged, the device's otel rows equal the store when it was signed, one row per day, whatever was lost, repeated or expired before |
| `EndToEnd.CountedAtServer` | `agent/codex-guard/internal/agent/otel.go:102-173` | then each counter of each row is the sum over the records counted for that day, modulo 2^64, there is a row for every day, and records with one identity were counted more than the retention apart |
| `OTel.OTelStore.Ingest` | `agent/codex-guard/internal/agent/otel.go:102-173` | purge and nested loops leave exactly the specified store and return how many records counted; a failed write changes nothing |
| `OTelReading.DecimalShows` | `agent/codex-guard/internal/agent/otel.go:50-61` | a 64-bit count is read as itself, whether it is sent as decimal text or as a number |
| `OTelReading.RecordCounted` | `agent/codex-guard/internal/agent/otel.go:118-171` | a completed response adds its input, cached, output and reasoning counts to the counters of those names and its tool count, or input plus output, to the total, on the day of its own time or else of its arrival, unless it was seen within the retention |
| `OTelReading.RecordIgnored` | `agent/codex-guard/internal/agent/otel.go:130-147` | a record of another kind or without a total counts nothing |
| `OTelReading.SameRecordExactly` | `agent/codex-guard/internal/agent/otel.go:148-153` | two completed responses count as one exactly if time, trace, span and the four counts agree |
| `OTelTheorems.Conservation` | `agent/codex-guard/internal/agent/otel.go:118-171` | over any sequence of batches every daily counter is the sum of what was counted, modulo 2^64 |
| `OTelTheorems.CountedOnce` | `agent/codex-guard/internal/agent/otel.go:150-155` | within the retention no record identity is counted twice |
| `OTelTheorems.Reingested` | `agent/codex-guard/internal/agent/otel.go:118-155` | a batch that arrives again counts nothing exactly when none of its identities was forgotten, and then changes no counter |
| `OTelTheorems.RepeatInTime` | `agent/codex-guard/internal/agent/otel.go:111-155` | a batch that was new when it came counts nothing when it comes again within the retention |
| `OTelTheorems.RepeatForgotten` | `agent/codex-guard/internal/agent/otel.go:150-169` | a duplicate does not renew the memory: a record repeated at the end of the retention counts again a second later |
| `OTelTheorems.IdentityFixesCounts` | `agent/codex-guard/internal/agent/otel.go:151` | the identity text fixes the four counts of a record |
| `OTelTheorems.BatchesCommute` | `agent/codex-guard/internal/agent/otel.go:102-173` | two batches at two arrival times give the same counters in either order if no identity expires in between and equal identities come with equal day and total |
| `OTelTheorems.OrderMatters` | `agent/codex-guard/internal/agent/otel.go:150-170` | two new records with one identity, at any arrival times within the retention, leave the same days in either order exactly when the days and totals they are read with agree |
| `OTelTheorems.TotalsDisagree` | `agent/codex-guard/internal/agent/otel.go:135-155` | two records that differ only in their tool token count have one identity and give different days in different orders |
| `RateLimit.Limiter.Request` | `server/app/main.py:134-142` | the loop drops the expired times, then admits or refuses as specified |
| `RateLimit.AtMostLimit` | `server/app/main.py:134-143` | with a clock that does not go back no client has more than 300 accepted requests in any closed 60-second interval |
| `RateLimit.RefusedExactly` | `server/app/main.py:140-141` | a request is refused exactly when 300 were accepted for its client in the last 60 seconds |
| `HeartbeatBound.HistoryApart` | `server/app/main.py:330-336` | over every run, whatever the clock does, history rows of a device are at least the sampling interval apart |
| `HeartbeatBound.WindowBound` | `server/app/main.py:330-336` | any window of L holds at most L/H + 1 rows of a device |
| `HeartbeatBound.StorageBound` | `server/app/services.py:85-97` | after a purge every row is within the retention of D days and a device has at most D*86400/H + 1 |
| `Telemetry.Strip` | `agent/codex-guard/internal/agent/detect.go:52-62` | the loop keeps exactly the lines outside otel sections |
| `Telemetry.ConfigureTelemetry` | `agent/codex-guard/internal/agent/detect.go:40-73` | the new text is the trimmed remainder, an empty line and the block |
| `TelemetryTheorems.HeaderExactly` | `agent/codex-guard/internal/agent/detect.go:53` | a line heads a section of a name exactly if it is white space, the name in brackets, white space and perhaps a comment |
| `TelemetryTheorems.ClassroomSection` | `agent/codex-guard/internal/agent/detect.go:35-38` | the result ends with the classroom's section: prompts are not logged, and records go to the local collector with the given authorization |
| `TelemetryTheorems.KeptExactly` | `agent/codex-guard/internal/agent/detect.go:55-62` | a line survives exactly when no otel header governs it, and the survivors keep their order |
| `TelemetryEdges.IdempotentExactly` | `agent/codex-guard/internal/agent/detect.go:51-70` | rewriting a rewritten config changes nothing if and only if neither the first nor the last line that survives and is not blank becomes an otel header when its outer white space is trimmed |
| `TelemetryEdges.OneSection` | `agent/codex-guard/internal/agent/detect.go:63-67` | the result has exactly one otel header under the same condition on the surviving lines |
| `TelemetryTheorems.OrdinaryIdempotent` | `agent/codex-guard/internal/agent/detect.go:51-70` | a config whose only white space is blank, tab, newline, carriage return and form feed meets the condition |
| `TelemetryTheorems.HiddenHeader` | `agent/codex-guard/internal/agent/detect.go:52-63` | a vertical tab before a header breaks it: the pattern's white space is narrower than the trim's |
| `CodexHome.SortHomes` | `agent/codex-guard/internal/agent/codexhome.go:163-171` | the sort ranks a permutation of the homes, keeps the order among homes of one rank, and puts the first of the best at the front |
| `CodexHome.ResolveCodexHome` | `agent/codex-guard/internal/agent/codexhome.go:133-173` | collecting, pinning and sorting give the specified choice |
| `CodexHome.PinnedStays` | `agent/codex-guard/internal/agent/codexhome.go:155-162` | a configured home with logs is never replaced |
| `CodexHome.BestChosen` | `agent/codex-guard/internal/agent/codexhome.go:163-172` | otherwise the choice has logs whenever a valid home does, and no valid home of its kind has a later log |
| `CodexHome.BestOfAll` | `agent/codex-guard/internal/agent/codexhome.go:104-173` | no readable directory among the candidates with logs or a configuration beats an unpinned choice |
| `CodexHome.ResolvesToItself` | `agent/codex-guard/internal/agent/codexhome.go:133-173` | with an unchanged filesystem, resolving again from the chosen path returns that path |
| `CodexHome.HomeFollower.Refresh` | `agent/codex-guard/internal/agent/client.go:64-90` | a refresh is throttled, moves to the resolved home only if its key differs, and says whether to save |
| `CodexHome.FollowsOnce` | `agent/codex-guard/internal/agent/client.go:64-90` | a second refresh stays where the first one went |

## Left out

- HTTP, routing, pages, static files, installers, the watchdog command and service posture checks: input and output around the modelled logic.
- Artifact allow-lists, quota contents, the usage mismatch alert, severities and event details: they add fields or further events with their own keys and do not touch the modelled rules.
- Registration checks the length of the public key; the model registers any key under a new identifier.
- Fractions in canonical JSON, and Go's rounding of integers beyond 2^53: Go sends every number through float64, Python keeps integers exact, so a report with a larger integer would be signed and checked over different numbers. The agent's reports in the model hold integers within 2^53.
- The step from text to UTF-8: keys are ordered by code point, which is the order of their UTF-8 forms.
- The length of digests: they are hexadecimal text without the fixed length of 64; state identifiers keep their length of 32.
- Envelopes carry the payload document and what the server's library reads from it; that reading is a parameter. Payloads with malformed types are the body `OtherBody`, and the length limits on device, event and signature texts are not modelled.
- Parsing of client timestamps and calendar validity of dates: times are numbers, dates are texts of the ISO shape.
- Event keys are a datatype with one constructor per prefix instead of formatted text.
- Two snapshots of one device with equal creation times: the model takes the one stored last as the latest.
- The concurrent retry branch of the gate and the other unique constraints of the tables: transactions run one after the other, as the row lock makes them for a device.
- A heartbeat row is stamped with the time the handler observed; the table's own default is read slightly later in the same request.
- A network, or anyone else, that posts an unaltered copy of one of the agent's envelopes: a copy that arrives after a later report took effect and its receipt was purged would be refused as replayed.
- Overflow of the sequence counter at 2^64, and a second agent process on the same state directory.
- A corrupted or unreadable state, queue or configuration file: loading such a file ends the operation with an error and changes nothing. The usage store is different: a store that cannot be read is taken as empty and the next batch saves it so. The protocol's `Collect` therefore assumes that the store never loses a day.
- Races between listing, measuring and reading a log file, and path separators other than `/`.
- Random identifiers are parameters; theorems assume that they do not repeat.
- The collector's clock is read once per batch, retention days have 86400 seconds, and attribute numbers of 2^64 or more, whose conversion Go leaves open, do not occur.
- The run loop's timers and backoff: the protocol allows the client's operations in any order and at any time.
- The limit of silence is configurable on the server; the model has its default of ten minutes.
- Formatting of the exporter line's token: it is a parameter, already quoted and without newlines.
- CanonicalJson.WriteCanonical: numbers are integers without bound, not float64 values; the theorems about it name the range where that matters.
- CanonicalTheorems.RoundTrip: fractions are not modelled, nor Go's rounding beyond 2^53.
- CanonicalTheorems.EncodingInjective: fractions are not modelled; beyond 2^53 Go does give two integers one text.
- ServerApp.App.RecordHeartbeat: does not store quota contents and does not raise the artifact and ccusage alerts.
- ServerApp.App.RecordUsage: does not raise the mismatch alert and does not keep the last-seen times.
- ServerApp.App.RecordIntegrity: does not raise the posture events of the monitor.
- Client.Client.Flush: takes the outcome of each round trip as input and stops with an error when the outcomes run out; the times of the trips stay within the delay after the last push.
- Client.Client.OTelUsage: the counters lie within 2^53 and the server's library reads a usage document as it was written.
