/** The agent's client: signing and queueing, flushing, and recovering from a lost device record.  Each method
    is shown to move the protocol's world by the moves of its control flow, whatever fails on the way. */
module Client {
  import opened Prelude
  import opened CanonicalJson
  import opened Server
  import opened ServerApp
  import opened Queue
  import opened Protocol
  import OTel
  import OTelTheorems
  import ScanTheorems

  /** One round trip of `Flush` at time `at`: does the request arrive, is the response heard, and can the
      queue file be replaced afterwards? */
  datatype Trip = Trip(at: Time, arrives: bool, heard: bool, popped: bool)

  /** What can go wrong during re-enrollment, and the identifier that the server draws. */
  datatype Recovery = Recovery(id: DeviceId, arrives: bool, heard: bool, configured: bool, cleared: bool, saved: bool)

  // ------------------------------------------------------------ the usage document

  function DayJson(day: UsageDay): Json {
    Obj(map["date" := Str(day.date), "input_tokens" := Int(day.input), "cached_input_tokens" := Int(day.cached)]
        + map["output_tokens" := Int(day.output), "reasoning_output_tokens" := Int(day.reasoning),
              "total_tokens" := Int(day.total)])
  }

  /** The payload of a usage snapshot. */
  function UsageJson(days: seq<UsageDay>): Json {
    Obj(map["source" := Str("otel"),
            "days" := Arr(seq(|days|, i requires 0 <= i < |days| => DayJson(days[i])))])
  }

  predicate ExactDay(day: UsageDay) {
    && ExactNumber(day.input) && ExactNumber(day.cached) && ExactNumber(day.output) && ExactNumber(day.reasoning)
    && ExactNumber(day.total)
  }

  /** `x` is an object with the six fields of the server's schema. */
  ghost predicate ShowsDay(x: Json, day: UsageDay) {
    && x.Obj? && x.fields.Keys == {"date", "input_tokens", "cached_input_tokens", "output_tokens",
                                   "reasoning_output_tokens", "total_tokens"}
    && x.fields["date"] == Str(day.date) && x.fields["input_tokens"] == Int(day.input)
    && x.fields["cached_input_tokens"] == Int(day.cached) && x.fields["output_tokens"] == Int(day.output)
    && x.fields["reasoning_output_tokens"] == Int(day.reasoning) && x.fields["total_tokens"] == Int(day.total)
  }

  /** `v` is an otel usage document over these days. */
  ghost predicate ShowsUsage(v: Json, days: seq<UsageDay>) {
    && v.Obj? && v.fields.Keys == {"source", "days"} && v.fields["source"] == Str("otel")
    && v.fields["days"].Arr? && |v.fields["days"].items| == |days|
    && forall i :: 0 <= i < |days| ==> ShowsDay(v.fields["days"].items[i], days[i])
  }

  /** The server's library reads every otel usage document for what it shows. */
  ghost predicate DecodesUsage(cfg: Settings) {
    forall v, days :: ShowsUsage(v, days) ==> cfg.decode(v) == UsageBody(Otel, days)
  }

  lemma DayShown(day: UsageDay)
    ensures ShowsDay(DayJson(day), day)
  {
  }

  /** The agent's document shows the agent's days, each count under its own name. */
  lemma UsageShown(days: seq<UsageDay>)
    ensures ShowsUsage(UsageJson(days), days)
  {
    forall i | 0 <= i < |days| ensures ShowsDay(UsageJson(days).fields["days"].items[i], days[i]) {
      DayShown(days[i]);
    }
  }

  /** The days of the store that are listed already. */
  ghost function Among(days: Days, dates: seq<string>): Days {
    map d | d in days && d in dates :: days[d]
  }

  lemma ListsOne(days: Days, dates: seq<string>, i: nat, list: seq<UsageDay>)
    requires i < |dates| && dates[i] in days && days[dates[i]].date == dates[i]
    requires DaysOf(list) == Among(days, dates[..i])
    ensures DaysOf(list + [days[dates[i]]]) == Among(days, dates[..i + 1])
  {
    assert dates[..i + 1] == dates[..i] + [dates[i]];
    assert (list + [days[dates[i]]])[..|list|] == list;
  }

  lemma DayExact(day: UsageDay)
    requires ExactDay(day)
    ensures Exact(DayJson(day))
  {
  }

  lemma UsageExact(list: seq<UsageDay>, days: Days)
    requires forall i :: 0 <= i < |list| ==> list[i].date in days && days[list[i].date] == list[i]
    requires forall date :: date in days ==> ExactDay(days[date])
    ensures Exact(UsageJson(list))
  {
    forall i | 0 <= i < |list| ensures Exact(DayJson(list[i])) {
      DayExact(list[i]);
    }
  }

  class Client {
    const setup: Setup
    const queue: DurableQueue
    const server: App
    var config: Config      // in memory
    var file: Config        // on disk

    constructor (setup: Setup, server: App, queue: DurableQueue, id: DeviceId)
      requires server.cfg == setup.cfg && queue.retention == setup.retention
      ensures this.setup == setup && this.server == server && this.queue == queue && Fits()
      ensures config == file == Config(id, 1)
    {
      this.setup, this.server, this.queue := setup, server, queue;
      config, file := Config(id, 1), Config(id, 1);
    }

    ghost predicate Fits() {
      server.cfg == setup.cfg && queue.retention == setup.retention
    }

    /** The objects are in the state that the world describes. */
    ghost predicate Matches(w: World)
      reads this, queue, server
    {
      Fits() && w.memory == config && w.disk == file && w.queue == queue.stored && w.db == server.Tables()
    }

    /** `config.Save`. */
    method Save(replaced: bool) returns (ok: bool)
      modifies this`file
      ensures ok == replaced && file == if replaced then config else old(file)
    {
      if replaced { file := config; }
      return replaced;
    }

    /** Process start: `config.Load`. */
    method Restart(ghost w: World) returns (ghost after: World)
      requires Matches(w)
      modifies this
      ensures Reaches(setup, w, after) && Matches(after) && after.phase.Idle?
    {
      config := file;
      ReachSelf(setup, w);
      ReachInternal(setup, w, w, Protocol.Restart);
      after := Internal(setup, w, Protocol.Restart);
    }

    /** `enqueue`. */
    method Enqueue(route: Route, payload: Json, body: Body, event: EventId, signedAt: Time, pushedAt: Time,
                   saved: bool, pushed: bool,
                   ghost w: World)
        returns (ok: bool, ghost after: World)
      requires Matches(w) && w.phase.Idle? && w.now <= signedAt <= pushedAt && event !in w.drawn
      requires Exact(payload) && body == setup.cfg.decode(payload)
      requires IsOtel(body) ==> DaysOf(body.days) == w.days
      modifies this, queue
      ensures Reaches(setup, w, after) && Matches(after) && after.phase.Idle?
      ensures ok ==> queue.stored != [] && after.lastPush == pushedAt == after.now
      ensures after.ids == w.ids
    {
      var env; ghost var signed;
      env, signed := SignEnvelope(route, payload, body, event, signedAt, w);
      ok := Save(saved);
      if !ok {
        ReachInternal(setup, w, signed, GiveUp);
        return false, Internal(setup, signed, GiveUp);
      }
      ghost var kept := Internal(setup, signed, SaveConfig);
      ReachInternal(setup, w, signed, SaveConfig);
      ok, after := PushEnvelope(route, env, pushedAt, pushed, w, kept);
    }

    /** `protocol.Sign` over the payload as Go writes it. */
    method SignEnvelope(route: Route, payload: Json, body: Body, event: EventId, now: Time, ghost w: World)
        returns (env: Envelope, ghost after: World)
      requires Matches(w) && w.phase.Idle? && w.now <= now && event !in w.drawn
      requires Exact(payload) && body == setup.cfg.decode(payload)
      requires IsOtel(body) ==> DaysOf(body.days) == w.days
      modifies this
      ensures Reaches(setup, w, after) && Matches(after) && after.phase == Signed(route, env) && after.now == now
      ensures after.ids == w.ids
    {
      ghost var w0 := Internal(setup, w, Tick(now));
      ReachSelf(setup, w);
      ReachInternal(setup, w, w, Tick(now));
      var out := new Buffer(Go);
      WriteCanonical(out, payload);
      assert out.data == Encode(Go, payload);
      var digest, stamp := setup.cfg.sha(out.data), setup.stamp(now);
      var message := config.deviceId + "\n"
          + (Decimal(config.nextSequence) + "\n" + (stamp + "\n" + (event + "\n" + digest)));
      env := Envelope(config.deviceId, config.nextSequence, stamp, event, payload, body, Signature(setup.key, message));
      config := config.(nextSequence := config.nextSequence + 1);
      ReachInternal(setup, w, w0, SignNext(route, payload, body, event));
      after := Internal(setup, w0, SignNext(route, payload, body, event));
    }

    method PushEnvelope(route: Route, env: Envelope, now: Time, pushed: bool, ghost start: World, ghost w: World)
        returns (ok: bool, ghost after: World)
      requires Matches(w) && w.phase == Saved(route, env) && w.now <= now && Reaches(setup, start, w)
      modifies queue
      ensures Reaches(setup, start, after) && Matches(after) && after.phase.Idle?
      ensures ok ==> queue.stored != [] && after.lastPush == now == after.now
      ensures after.ids == w.ids
    {
      ghost var w0, m := Internal(setup, w, Tick(now)), if pushed then PushItem else GiveUp;
      ReachInternal(setup, start, w, Tick(now));
      ok := queue.Push(Item(route, now, env), now, pushed);
      ReachInternal(setup, start, w0, m);
      after := Internal(setup, w0, m);
    }

    /** One round trip: the server's answer, unless the request or the response is lost. */
    method Post(head: Item, trip: Trip, ghost start: World, ghost w: World)
        returns (response: Option<Response>, ghost after: World)
      requires Matches(w) && w.phase.Idle? && Reaches(setup, start, w) && queue.stored != [] && head == queue.stored[0]
      requires w.now <= trip.at <= w.lastPush + setup.delay
      modifies server
      ensures Reaches(setup, start, after) && Matches(after) && after.now == trip.at && after.lastPush == w.lastPush
      ensures after.phase == if response.Some? then Reaction(response.value, head.envelope) else Idle
      ensures after.ids == w.ids
    {
      ghost var w0 := Internal(setup, w, Tick(trip.at));
      ReachInternal(setup, start, w, Tick(trip.at));
      if !trip.arrives { return None, w0; }
      var answer := server.Post(head.route, head.envelope, trip.at);
      ReachAnswer(setup, start, w0, server.Tables(), answer, trip.heard);
      after := Answered(w0, head, server.Tables(), answer, trip.heard);
      response := if trip.heard then Some(answer) else None;
    }

    /** Ends an attempt with an error. */
    ghost method Fail(start: World, w: World) returns (after: World)
      requires Matches(w) && Reaches(setup, start, w)
      ensures Reaches(setup, start, after) && Matches(after) && after.phase.Idle?
    {
      ReachInternal(setup, start, w, GiveUp);
      after := Internal(setup, w, GiveUp);
    }

    /** `reEnrollIfCurrent`. */
    method ReEnrollIfCurrent(stale: DeviceId, recovery: Recovery, ghost start: World, ghost w: World)
        returns (ok: bool, ghost after: World)
      requires Matches(w) && w.phase == Stale(stale) && Reaches(setup, start, w) && recovery.id !in w.ids
      modifies this, queue, server
      ensures Reaches(setup, start, after) && Matches(after) && after.phase.Idle?
      ensures ok && old(config.deviceId) == stale ==> config == file == Config(recovery.id, 1) && queue.stored == []
    {
      if config.deviceId != stale {
        ReachInternal(setup, start, w, SkipReenroll);
        return true, Internal(setup, w, SkipReenroll);
      }
      if !recovery.arrives {
        after := Fail(start, w);
        return false, after;
      }
      server.Register(recovery.id, setup.key);
      ghost var w1 := Internal(setup, w, Reenroll(recovery.id, recovery.heard));
      ReachInternal(setup, start, w, Reenroll(recovery.id, recovery.heard));
      if !recovery.heard { return false, w1; }
      ok, after := Adopt(recovery, start, w1);
    }

    /** The new identity takes effect only after the old queue is gone. */
    method Adopt(recovery: Recovery, ghost start: World, ghost w: World) returns (ok: bool, ghost after: World)
      requires Matches(w) && w.phase == Registered(recovery.id) && Reaches(setup, start, w)
      modifies this, queue
      ensures Reaches(setup, start, after) && Matches(after) && after.phase.Idle?
      ensures ok ==> config == file == Config(recovery.id, 1) && queue.stored == []
    {
      after := Fail(start, w);
      if !recovery.configured { return false, after; }
      ok := queue.Clear(recovery.cleared);
      if !ok { return; }
      ghost var w1 := Internal(setup, w, ClearQueue);
      ReachInternal(setup, start, w, ClearQueue);
      after := Fail(start, w1);
      if !recovery.saved { return false, after; }
      var updated := Config(recovery.id, 1);
      file := updated;
      config := updated;
      ReachInternal(setup, start, w1, SaveIdentity);
      after := Internal(setup, w1, SaveIdentity);
    }

    /** Drops the acknowledged head from the queue. */
    method PopAcked(popped: bool, ghost start: World, ghost w: World) returns (ok: bool, ghost after: World)
      requires Matches(w) && w.phase.Acked? && Reaches(setup, start, w)
      modifies queue
      ensures Reaches(setup, start, after) && Matches(after) && after.phase.Idle?
      ensures ok ==> after.ids == w.ids && after.lastPush == w.lastPush && after.now == w.now
    {
      ok := queue.Pop(popped);
      if !ok {
        after := Fail(start, w);
        return;
      }
      ReachInternal(setup, start, w, PopHead);
      after := Internal(setup, w, PopHead);
    }

    /** `Flush`: sends the head and pops it until the queue is empty or something fails.  It succeeds with an
        empty queue, after a recovery under the new identity. */
    method Flush(trips: seq<Trip>, recovery: Recovery, ghost w: World) returns (ok: bool, ghost after: World)
      requires Matches(w) && w.phase.Idle? && recovery.id !in w.ids && setup.retention > 0 && AgentOk(setup, w)
      requires forall i :: 0 <= i < |trips| ==> w.now <= trips[i].at <= w.lastPush + setup.delay
      requires forall i, j :: 0 <= i < j < |trips| ==> trips[i].at <= trips[j].at
      modifies this, queue, server
      ensures Reaches(setup, w, after) && Matches(after) && after.phase.Idle?
      ensures ok ==> queue.stored == [] && (config == old(config) || config == Config(recovery.id, 1))
    {
      ReachSelf(setup, w);
      after := w;
      for i := 0 to |trips|
        invariant Reaches(setup, w, after) && Matches(after) && after.phase.Idle? && after.ids == w.ids
        invariant after.lastPush == w.lastPush && config == old(config)
        invariant forall k :: i <= k < |trips| ==> after.now <= trips[k].at
      {
        var head := queue.Peek();
        if head.None? { return true, after; }
        ReachFits(setup, w, after);
        var response;
        response, after := Post(head.value, trips[i], w, after);
        if response.None? { return false, after; }
        match response.value
        case Accepted(_) =>
          ok, after := PopAcked(trips[i].popped, w, after);
          if !ok { return; }
        case UnknownDevice =>
          ok, after := ReEnrollIfCurrent(head.value.envelope.deviceId, recovery, w, after);
          return;
        case _ =>
          return false, after;
      }
      return false, after;
    }

    // ---------------------------------------------------------- usage counters

    /** `ingestOTLP` runs beside everything else and only lets the store grow. */
    method IngestOTLP(store: OTel.OTelStore, batch: OTel.Batch, now: int, replaced: bool, ghost w: World)
        returns (created: nat, ghost after: World)
      requires Matches(w) && w.days == store.days && OTelTheorems.Keyed(store.days)
      modifies store
      ensures Reaches(setup, w, after) && Matches(after) && after.days == store.days && OTelTheorems.Keyed(store.days)
      ensures after.phase == w.phase
    {
      ghost var before := store.View();
      var ok;
      created, ok := store.Ingest(batch, now, replaced);
      OTelTheorems.DaysGrow(OTel.Purged(before, OTel.Cutoff(store.calendar, now)),
                            OTel.BatchSamples(store.calendar, now, batch), now);
      ReachSelf(setup, w);
      ReachInternal(setup, w, w, Collect(store.days));
      after := Internal(setup, w, Collect(store.days));
    }

    /** The days of the store, in an arbitrary order. */
    static method ListDays(days: Days) returns (list: seq<UsageDay>)
      requires OTelTheorems.Keyed(days)
      ensures DaysOf(list) == days && |list| == |days|
      ensures forall i :: 0 <= i < |list| ==> list[i].date in days && days[list[i].date] == list[i]
    {
      var dates := Shuffle(days);
      list := [];
      for i := 0 to |dates|
        invariant |list| == i
        invariant forall k :: 0 <= k < i ==> list[k].date in days && days[list[k].date] == list[k]
        invariant DaysOf(list) == Among(days, dates[..i])
      {
        ListsOne(days, dates, i, list);
        list := list + [days[dates[i]]];
      }
      assert dates[..|dates|] == dates;
      ScanTheorems.EnumerationSize(dates, days.Keys);
    }

    /** `OTelUsage`: queues an absolute snapshot of the store and flushes. */
    method OTelUsage(store: OTel.OTelStore, event: EventId, signedAt: Time, pushedAt: Time, saved: bool, pushed: bool,
                     trips: seq<Trip>, recovery: Recovery, ghost w: World)
        returns (ok: bool, ghost after: World)
      requires Matches(w) && w.phase.Idle? && w.now <= signedAt <= pushedAt && event !in w.drawn
      requires w.days == store.days && OTelTheorems.Keyed(store.days)
      requires (forall date :: date in store.days ==> ExactDay(store.days[date])) && DecodesUsage(setup.cfg)
      requires setup.retention > 0 && AgentOk(setup, w) && recovery.id !in w.ids
      requires forall i :: 0 <= i < |trips| ==> pushedAt <= trips[i].at <= pushedAt + setup.delay
      requires forall i, j :: 0 <= i < j < |trips| ==> trips[i].at <= trips[j].at
      modifies this, queue, server
      ensures Reaches(setup, w, after) && Matches(after) && after.phase.Idle?
    {
      if |store.days| == 0 {
        ReachSelf(setup, w);
        return true, w;
      }
      var days := ListDays(store.days);
      UsageExact(days, store.days);
      UsageShown(days);
      ok, after := Enqueue(UsageRoute, UsageJson(days), UsageBody(Otel, days), event, signedAt, pushedAt, saved,
                           pushed, w);
      if !ok { return; }
      ReachFits(setup, w, after);
      ghost var queued := after;
      ok, after := Flush(trips, recovery, queued);
      ReachTransitive(setup, w, queued, after);
    }
  }
}
