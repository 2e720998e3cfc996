/** From a completed model response on the device to a number in the server's usage table. */
module EndToEnd {
  import opened Prelude
  import opened Server
  import opened Protocol
  import opened UsageDelivery
  import opened OTel
  import opened OTelTheorems

  lemma OneDay(day: UsageDay, k: Counter, days: map<string, UsageDay>)
    requires day.date in days && days[day.date] == day
    ensures Reading(map[day.date := day], day.date, k) == Reading(days, day.date, k)
  {
  }

  /** Once the last queued snapshot is acknowledged, every otel row of the device carries, in each counter, the
      sum over the records that the collector had counted for that day when the snapshot was signed, modulo 2^64,
      every counted day has its row, and no record identity was counted twice within the retention. */
  lemma CountedAtServer(s: Setup, w: World, moves: seq<Move>, end: World, l: Envelope, c: Calendar, ds: seq<Delivery>,
                        t: int, ledger: seq<Entry>, row: UsageRow, k: Counter)
    requires Sound(s) && Initial(s, w) && Protocol.Possible(s, w, moves) && end == Run(s, w, moves)
    requires end.latest == Some(l) && (exists x :: x in end.log && x.envelope == l && x.response.Accepted?)
    requires l.deviceId in end.db.devices
    requires Monotone(ds, t) && ledger == Ledger(c, Store(map[], map[]), ds)
    requires end.latestDays == RunStore(c, Store(map[], map[]), ds).days
    requires row in end.db.usage && OtelRow(row, l.deviceId)
    ensures Reading(map[row.day.date := row.day], row.day.date, k) == Total(ledger, row.day.date, k) % UINT64
    ensures forall date :: date in end.latestDays ==> HasRow(end.db.usage, l.deviceId, end.latestDays[date])
    ensures forall i, j :: 0 <= i < j < |ledger| && ledger[i].sample.id == ledger[j].sample.id ==>
      ledger[j].at - ledger[i].at > c.retention
  {
    UsageArrives(s, w, moves, end, l);
    Conservation(c, ds, row.day.date, k);
    OneDay(row.day, k, end.latestDays);
    LedgerSpaced(c, ds, t, ledger);
  }
}
