/** Heartbeat history is bounded: sampling keeps the rows of a device apart, and purging keeps them recent. */
module HeartbeatBound {
  import opened Prelude
  import opened Server
  import opened ServerSafety

  /** Every stored row belongs to a device that remembers recording it or a later one. */
  ghost predicate Recorded(db: Db) {
    forall r :: r in db.heartbeats ==>
      && r.device in db.devices && db.devices[r.device].lastRecorded.Some?
      && r.at <= db.devices[r.device].lastRecorded.value
  }

  /** Rows of one device are at least `gap` apart, in the order they were stored. */
  ghost predicate Apart(rows: seq<HeartbeatRow>, gap: Time) {
    forall i, j :: 0 <= i < j < |rows| && rows[i].device == rows[j].device ==> rows[j].at - rows[i].at >= gap
  }

  function Gap(cfg: Settings): Time { cfg.historySeconds * SECOND }

  /** What a transaction does to the rows and to the times the devices remember. */
  ghost predicate Samples(cfg: Settings, db: Db, after: Db, d: DeviceId, row: HeartbeatRow) {
    && d in db.devices && row.device == d && IsSampled(cfg, db.devices[d].lastRecorded, row.at)
    && after.heartbeats == db.heartbeats + [row]
    && after.devices.Keys == db.devices.Keys && after.devices[d].lastRecorded == Some(row.at)
    && forall e :: e in db.devices && e != d ==> after.devices[e].lastRecorded == db.devices[e].lastRecorded
  }

  ghost predicate KeepsRows(db: Db, after: Db) {
    && after.heartbeats == db.heartbeats
    && forall e :: e in db.devices ==> e in after.devices && after.devices[e].lastRecorded == db.devices[e].lastRecorded
  }

  lemma PostSamples(cfg: Settings, db: Db, a: Action)
    requires a.Post?
    ensures KeepsRows(db, Step(cfg, db, a))
      || Samples(cfg, db, Step(cfg, db, a), a.env.deviceId,
                 HeartbeatRow(a.env.deviceId, a.env.eventId, a.env.sequence, a.now,
                              if a.env.body.HeartbeatBody? then a.env.body.uptime else 0))
  {
    HandleFrame(cfg, db, a.route, a.env, a.now);
    VerifiedFrame(cfg, db, a.env, a.now);
    if Applies(cfg, db, a) && a.route.HeartbeatRoute? {
      var g := Verified(cfg, db, a.env, a.now);
      var seen := g.db.devices[a.env.deviceId];
      assert seen.lastRecorded == db.devices[a.env.deviceId].lastRecorded;
    }
  }

  lemma SampledApart(cfg: Settings, db: Db, after: Db, d: DeviceId, row: HeartbeatRow)
    requires cfg.historySeconds >= 0 && Recorded(db) && Apart(db.heartbeats, Gap(cfg))
      && Samples(cfg, db, after, d, row)
    ensures Recorded(after) && Apart(after.heartbeats, Gap(cfg))
  {
    forall i | 0 <= i < |db.heartbeats| && db.heartbeats[i].device == d
      ensures row.at - db.heartbeats[i].at >= Gap(cfg)
    {
      assert db.heartbeats[i] in db.heartbeats;
    }
  }

  lemma {:induction false} KeepsSome(rows: seq<HeartbeatRow>, cutoff: Time)
    ensures forall r :: r in KeepHeartbeats(rows, cutoff) ==> r in rows && r.at >= cutoff
  {
    if rows != [] { KeepsSome(rows[1..], cutoff); }
  }

  lemma RestApart(rows: seq<HeartbeatRow>, gap: Time)
    requires rows != [] && Apart(rows, gap)
    ensures Apart(rows[1..], gap)
    ensures forall r :: r in rows[1..] && r.device == rows[0].device ==> r.at - rows[0].at >= gap
  {
    assert forall i :: 0 <= i < |rows| - 1 ==> rows[1..][i] == rows[i + 1];
  }

  lemma PrependApart(row: HeartbeatRow, kept: seq<HeartbeatRow>, gap: Time)
    requires Apart(kept, gap)
    requires forall r :: r in kept && r.device == row.device ==> r.at - row.at >= gap
    ensures Apart([row] + kept, gap)
  {
  }

  lemma {:induction false} KeptRows(rows: seq<HeartbeatRow>, cutoff: Time, gap: Time)
    requires Apart(rows, gap)
    ensures Apart(KeepHeartbeats(rows, cutoff), gap)
  {
    if rows != [] {
      RestApart(rows, gap);
      KeptRows(rows[1..], cutoff, gap);
      KeepsSome(rows[1..], cutoff);
      PrependApart(rows[0], KeepHeartbeats(rows[1..], cutoff), gap);
    }
  }

  lemma StepApart(cfg: Settings, db: Db, a: Action)
    requires cfg.historySeconds >= 0 && Recorded(db) && Apart(db.heartbeats, Gap(cfg))
    ensures Recorded(Step(cfg, db, a)) && Apart(Step(cfg, db, a).heartbeats, Gap(cfg))
  {
    match a
    case Post(_, env, now) =>
      PostSamples(cfg, db, a);
      if !KeepsRows(db, Step(cfg, db, a)) {
        SampledApart(cfg, db, Step(cfg, db, a), env.deviceId,
                     HeartbeatRow(env.deviceId, env.eventId, env.sequence, now,
                                  if env.body.HeartbeatBody? then env.body.uptime else 0));
      }
    case PurgeAt(now) =>
      KeepsSome(db.heartbeats, now - AtLeastOne(cfg.heartbeatDays) * DAY);
      KeptRows(db.heartbeats, now - AtLeastOne(cfg.heartbeatDays) * DAY, Gap(cfg));
    case ReconcileAt(order, now) => ReconcileFrame(db, order, now);
    case Register(_, _) =>
  }

  /** Over every run, whatever the clock does, the history rows of a device stay at least the sampling interval
      apart. */
  lemma {:induction false} HistoryApart(cfg: Settings, db: Db, actions: seq<Action>)
    requires cfg.historySeconds >= 0 && Recorded(db) && Apart(db.heartbeats, Gap(cfg))
    ensures Recorded(RunDb(cfg, db, actions)) && Apart(RunDb(cfg, db, actions).heartbeats, Gap(cfg))
    decreases |actions|
  {
    if actions != [] {
      StepApart(cfg, db, actions[0]);
      HistoryApart(cfg, Step(cfg, db, actions[0]), actions[1..]);
    }
  }

  // ------------------------------------------------------------ counting

  predicate InWindow(r: HeartbeatRow, d: DeviceId, t: Time, u: Time) { r.device == d && t <= r.at <= u }

  /** The rows of `d` in the closed interval from `t` to `u`. */
  function CountRows(rows: seq<HeartbeatRow>, d: DeviceId, t: Time, u: Time): nat {
    if rows == [] then 0
    else CountRows(rows[..|rows| - 1], d, t, u) + (if InWindow(rows[|rows| - 1], d, t, u) then 1 else 0)
  }

  lemma OneMore(n: nat, gap: int)
    ensures (n + 1) * gap == n * gap + gap
  {
  }

  /** The last of `n + 1` rows in a window lies at least `n` gaps after its start. */
  lemma {:induction false} LastRow(rows: seq<HeartbeatRow>, d: DeviceId, t: Time, u: Time, gap: Time)
    requires Apart(rows, gap) && CountRows(rows, d, t, u) > 0
    ensures exists k ::
      0 <= k < |rows| && InWindow(rows[k], d, t, u) && rows[k].at >= t + (CountRows(rows, d, t, u) - 1) * gap
    decreases |rows|
  {
    var front, last := rows[..|rows| - 1], rows[|rows| - 1];
    var n := CountRows(front, d, t, u);
    if n > 0 {
      LastRow(front, d, t, u, gap);
      var k :| 0 <= k < |front| && InWindow(front[k], d, t, u) && front[k].at >= t + (n - 1) * gap;
      assert rows[k] == front[k];
      if InWindow(last, d, t, u) {
        OneMore(n - 1, gap);
        assert rows[|rows| - 1].at >= t + n * gap;
      }
    } else {
      assert rows[|rows| - 1].at >= t + 0 * gap;
    }
  }

  lemma DivideBound(n: nat, gap: int, length: int)
    requires gap > 0 && n * gap <= length
    ensures n <= length / gap
  {
    var q := length / gap;
    assert (q + 1) * gap > length;
    assert n >= q + 1 ==> n * gap >= (q + 1) * gap;
  }

  lemma CountBound(rows: seq<HeartbeatRow>, d: DeviceId, t: Time, u: Time, gap: Time)
    requires Apart(rows, gap) && gap > 0 && t <= u
    ensures CountRows(rows, d, t, u) <= (u - t) / gap + 1
  {
    var n := CountRows(rows, d, t, u);
    if n > 0 {
      LastRow(rows, d, t, u, gap);
      DivideBound(n - 1, gap, u - t);
    } else {
      DivideBound(0, gap, u - t);
    }
  }

  /** In any window of `length` microseconds a device has at most one row per sampling interval, and one more. */
  lemma WindowBound(cfg: Settings, db: Db, actions: seq<Action>, d: DeviceId, t: Time, length: Time)
    requires cfg.historySeconds > 0 && length >= 0 && Recorded(db) && Apart(db.heartbeats, Gap(cfg))
    ensures CountRows(RunDb(cfg, db, actions).heartbeats, d, t, t + length) <= length / Gap(cfg) + 1
  {
    HistoryApart(cfg, db, actions);
    CountBound(RunDb(cfg, db, actions).heartbeats, d, t, t + length, Gap(cfg));
  }

  // ------------------------------------------------------------ after a purge

  ghost predicate NotAfter(rows: seq<HeartbeatRow>, t: Time) { forall r :: r in rows ==> r.at <= t }

  ghost predicate TimesUpTo(actions: seq<Action>, t: Time) {
    forall a :: a in actions && a.Post? ==> a.now <= t
  }

  lemma StepNotAfter(cfg: Settings, db: Db, a: Action, t: Time)
    requires NotAfter(db.heartbeats, t) && (a.Post? ==> a.now <= t)
    ensures NotAfter(Step(cfg, db, a).heartbeats, t)
  {
    match a
    case Post(_, _, _) => PostSamples(cfg, db, a);
    case PurgeAt(now) => KeepsSome(db.heartbeats, now - AtLeastOne(cfg.heartbeatDays) * DAY);
    case ReconcileAt(order, now) => ReconcileFrame(db, order, now);
    case Register(_, _) =>
  }

  lemma {:induction false} RunNotAfter(cfg: Settings, db: Db, actions: seq<Action>, t: Time)
    requires NotAfter(db.heartbeats, t) && TimesUpTo(actions, t)
    ensures NotAfter(RunDb(cfg, db, actions).heartbeats, t)
    decreases |actions|
  {
    if actions != [] {
      assert actions[0] in actions;
      StepNotAfter(cfg, db, actions[0], t);
      RunNotAfter(cfg, Step(cfg, db, actions[0]), actions[1..], t);
    }
  }

  lemma DivideBoth(a: nat, b: nat)
    requires b > 0
    ensures (a * SECOND) / (b * SECOND) == a / b
  {
    var q := a / b;
    var r := a - q * b;
    assert 0 <= r < b;
    assert a * SECOND == q * (b * SECOND) + r * SECOND;
    Quotient(a * SECOND, b * SECOND, q, r * SECOND);
  }

  lemma Quotient(x: int, y: int, q: int, r: int)
    requires y > 0 && x == q * y + r && 0 <= r < y
    ensures x / y == q
  {
    var p := x / y;
    assert p > q ==> p * y >= (q + 1) * y;
    assert p < q ==> (p + 1) * y <= q * y;
  }

  lemma RetentionCount(rows: seq<HeartbeatRow>, d: DeviceId, days: nat, seconds: int, now: Time)
    requires seconds > 0 && Apart(rows, seconds * SECOND)
    ensures CountRows(rows, d, now - days * DAY, now) <= days * 86_400 / seconds + 1
  {
    CountBound(rows, d, now - days * DAY, now, seconds * SECOND);
    DivideBoth(days * 86_400, seconds);
  }

  /** After a purge every row lies within the retention, and a device has at most one row per sampling
      interval of it, and one more. */
  lemma StorageBound(cfg: Settings, db: Db, actions: seq<Action>, d: DeviceId, now: Time, end: Db)
    requires cfg.historySeconds > 0 && Recorded(db) && Apart(db.heartbeats, Gap(cfg))
    requires NotAfter(db.heartbeats, now) && TimesUpTo(actions, now)
    requires end == Purge(cfg, RunDb(cfg, db, actions), now)
    ensures forall r :: r in end.heartbeats ==> now - AtLeastOne(cfg.heartbeatDays) * DAY <= r.at <= now
    ensures CountRows(end.heartbeats, d, now - AtLeastOne(cfg.heartbeatDays) * DAY, now)
      <= AtLeastOne(cfg.heartbeatDays) * 86_400 / cfg.historySeconds + 1
  {
    var days, before := AtLeastOne(cfg.heartbeatDays), RunDb(cfg, db, actions).heartbeats;
    HistoryApart(cfg, db, actions);
    RunNotAfter(cfg, db, actions, now);
    KeepsSome(before, now - days * DAY);
    KeptRows(before, now - days * DAY, Gap(cfg));
    RetentionCount(end.heartbeats, d, days, cfg.historySeconds, now);
  }
}
