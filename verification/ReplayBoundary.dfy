/** The bound on the receipt retention is exact: with a shorter one, some run of an honest agent ends
    in a replay alarm. */
module ReplayBoundary {
  import opened Prelude
  import opened CanonicalJson
  import opened CanonicalTheorems
  import opened SignedMessage
  import opened Server
  import opened ServerSafety
  import opened ServerOutcomes
  import opened SignatureGate
  import opened Queue
  import opened Protocol
  import opened ProtocolSafety

  // ------------------------------------------------------------ the run

  const NOTICE := NoticeBody("SERVICE_RESTART_FAILED", true)

  function NoticeJson(): Json { Obj(map["event_type" := Str("SERVICE_RESTART_FAILED")]) }

  /** The digest is ideal and the library decodes a notice. */
  ghost predicate Usual(s: Setup) {
    Digest(s.cfg.sha) && s.retention > 0 && s.delay >= 0 && s.cfg.decode(NoticeJson()) == NOTICE
  }

  lemma OneTextPlain(key: string, text: string)
    requires PlainText(key) && PlainText(text)
    ensures Plain(Obj(map[key := Str(text)])) && Exact(Obj(map[key := Str(text)]))
  {
  }

  lemma NoticeTexts()
    ensures PlainText("event_type") && PlainText("SERVICE_RESTART_FAILED")
  {
  }

  lemma NoticePlain()
    ensures Plain(NoticeJson()) && Exact(NoticeJson())
  {
    NoticeTexts();
    OneTextPlain("event_type", "SERVICE_RESTART_FAILED");
  }

  /** The notice as the first report of the agent. */
  ghost function FirstItem(s: Setup): Item {
    Item(EventsRoute, 0, Sign(s.cfg.sha, s.key, "d", 1, s.stamp(0), "a", NoticeJson(), NOTICE))
  }

  ghost function Enqueued(s: Setup, w: World, event: EventId): World {
    var env := Sign(s.cfg.sha, s.key, w.memory.deviceId, w.memory.nextSequence, s.stamp(w.now), event,
                    NoticeJson(), NOTICE);
    var counted := w.memory.(nextSequence := w.memory.nextSequence + 1);
    w.(memory := counted, disk := counted, drawn := w.drawn + {event}, lastPush := w.now,
       queue := Retained(w.queue, w.now - s.retention) + [Item(EventsRoute, w.now, env)])
  }

  lemma EnqueueReaches(s: Setup, w: World, event: EventId)
    requires Usual(s) && w.phase.Idle? && event !in w.drawn
    ensures Reaches(s, w, Enqueued(s, w, event))
  {
    NoticePlain();
    var a := Do(s, w, SignNext(EventsRoute, NoticeJson(), NOTICE, event));
    var b := Do(s, a, SaveConfig);
    ReachStep(s, w, SignNext(EventsRoute, NoticeJson(), NOTICE, event));
    ReachStep(s, a, SaveConfig);
    ReachStep(s, b, PushItem);
    ReachTransitive(s, w, a, b);
    ReachTransitive(s, w, b, Do(s, b, PushItem));
  }

  /** A freshly enrolled agent with identifier "d". */
  function Start(s: Setup): World {
    World(Config("d", 1), Idle, Config("d", 1), [], map[],
          Db(map["d" := Device(s.key, 0, None, None, "", "")], map[], [], [], [], []), 0,
          0, {"d"}, {"d"}, {}, [], map[], None, map[], map[])
  }

  /** The head was applied at time 0 and its receipt is still there. */
  ghost predicate AppliedAtZero(s: Setup, w: World, first: Item) {
    && w.phase.Idle? && w.queue == [first] && first == FirstItem(s)
    && w.memory == Config("d", 2) && w.disk == w.memory && w.now == 0 && w.lastPush == 0 && w.drawn == {"a"}
    && "d" in w.db.devices && w.db.devices["d"].key == s.key && w.db.devices["d"].lastSequence == 1
    && w.db.receipts == map[("d", "a") := 0]
  }

  lemma FirstVerifies(s: Setup)
    requires Usual(s)
    ensures SignatureOk(s.cfg.sha, s.key, FirstItem(s).envelope)
  {
    NoticePlain();
    SignatureExactly(s.cfg.sha, s.key, FirstItem(s).envelope);
  }

  lemma FirstSend(s: Setup, w: World, first: Item)
    requires w == Enqueued(s, Start(s), "a") && first == FirstItem(s)
    requires Usual(s)
    ensures Enabled(s, w, SendHead(true, false)) && AppliedAtZero(s, Do(s, w, SendHead(true, false)), first)
  {
    assert w.queue == [first];
    FirstVerifies(s);
    assert Verified(s.cfg, w.db, first.envelope, 0).Pass?;
    assert ApplyNotice(Verified(s.cfg, w.db, first.envelope, 0).db, first.envelope).Some?;
  }

  /** A later push keeps the old item, and then the purge drops its receipt. */
  lemma PurgedBeforeRetry(s: Setup, w: World, first: Item, w1: World, w2: World, w3: World, w4: World)
    requires s.retention > 0 && s.delay >= 0 && ReceiptLife(s) < OldestAtPush(s) + s.delay
    requires AppliedAtZero(s, w, first)
    requires w1 == w.(now := OldestAtPush(s)) && w2 == Enqueued(s, w1, "b")
      && w3 == w2.(now := OldestAtPush(s) + s.delay)
    requires w4 == w3.(db := Purge(s.cfg, w3.db, w3.now))
    ensures w4.queue != [] && w4.queue[0] == first && w4.now <= w4.lastPush + s.delay && w4.phase.Idle?
    ensures w4.db.receipts == map[] && w4.db.devices == w.db.devices
  {
    assert Retained([first], w1.now - s.retention) == [first] by {
      assert [first][1..] == [];
    }
    assert w3.db.receipts[("d", "a")] == 0;
  }

  lemma ReplayAnswered(s: Setup, w: World, first: Item)
    requires Usual(s) && w.phase.Idle? && w.queue != [] && w.queue[0] == first && w.now <= w.lastPush + s.delay
    requires first == FirstItem(s) && w.db.receipts == map[]
    requires "d" in w.db.devices && w.db.devices["d"].key == s.key && w.db.devices["d"].lastSequence == 1
    ensures Enabled(s, w, SendHead(true, true))
    ensures var end := Do(s, w, SendHead(true, true));
      Exchange(first.envelope, Replayed) in end.log && Alarmed(end.db.events, "d", ReplayKey("a"))
  {
    FirstVerifies(s);
    var (db, r) := Handle(s.cfg, w.db, EventsRoute, first.envelope, w.now);
    AnswerExactly(s.cfg, w.db, EventsRoute, first.envelope, w.now, db, r);
    RefusalAlarms(s.cfg, w.db, EventsRoute, first.envelope, w.now, db, r);
    var end := Do(s, w, SendHead(true, true));
    assert end.log[|w.log|] == Exchange(first.envelope, Replayed);
  }

  lemma ReachRetry(s: Setup, w: World, w4: World)
    requires Usual(s)
    requires w.phase.Idle? && w.now == 0 && "b" !in w.drawn
    requires var w1 := w.(now := OldestAtPush(s)); var w3 := Enqueued(s, w1, "b").(now := OldestAtPush(s) + s.delay);
      w4 == w3.(db := Purge(s.cfg, w3.db, w3.now))
    ensures Reaches(s, w, w4)
  {
    var w1 := w.(now := OldestAtPush(s));
    var w2 := Enqueued(s, w1, "b");
    var w3 := w2.(now := OldestAtPush(s) + s.delay);
    ReachTick(s, w, w1.now);
    EnqueueReaches(s, w1, "b");
    ReachTick(s, w2, w3.now);
    ReachPurge(s, w3);
    ReachChain(s, w, w1, w2, w3, w4);
  }

  lemma ReachTick(s: Setup, w: World, to: Time)
    requires w.now <= to
    ensures Reaches(s, w, w.(now := to))
  {
    ReachStep(s, w, Tick(to));
  }

  lemma ReachPurge(s: Setup, w: World)
    ensures Reaches(s, w, w.(db := Purge(s.cfg, w.db, w.now)))
  {
    ReachStep(s, w, Elsewhere(PurgeAt(w.now)));
  }

  lemma ReachChain(s: Setup, w: World, w1: World, w2: World, w3: World, w4: World)
    requires Reaches(s, w, w1) && Reaches(s, w1, w2) && Reaches(s, w2, w3) && Reaches(s, w3, w4)
    ensures Reaches(s, w, w4)
  {
    ReachTransitive(s, w, w1, w2);
    ReachTransitive(s, w, w2, w3);
    ReachTransitive(s, w, w3, w4);
  }

  /** Some report of the agent was refused as replayed. */
  ghost predicate Flagged(w: World) { exists x :: x in w.log && x.response == Replayed }

  /** The server holds a replay alarm against one of the agent's identities. */
  ghost predicate Accused(w: World) { exists e :: e in w.db.events && e.device in w.ours && e.key.ReplayKey? }

  /** With receipts that do not outlive the queue, an honest agent can be taken for a replayer. */
  lemma TakenForReplayer(s: Setup)
    requires Usual(s) && !Outlives(s)
    ensures exists w, end :: Initial(s, w) && Reaches(s, w, end) && Flagged(end) && Accused(end)
  {
    var start, first := Start(s), FirstItem(s);
    var queued := Enqueued(s, start, "a");
    EnqueueReaches(s, start, "a");
    FirstSend(s, queued, first);
    var applied := Do(s, queued, SendHead(true, false));
    ReachStep(s, queued, SendHead(true, false));
    var w1 := applied.(now := OldestAtPush(s));
    var w2 := Enqueued(s, w1, "b");
    var w3 := w2.(now := OldestAtPush(s) + s.delay);
    var purged := w3.(db := Purge(s.cfg, w3.db, w3.now));
    ReachRetry(s, applied, purged);
    PurgedBeforeRetry(s, applied, first, w1, w2, w3, purged);
    ReplayAnswered(s, purged, first);
    var end := Do(s, purged, SendHead(true, true));
    ReachStep(s, purged, SendHead(true, true));
    ReachTransitive(s, start, queued, applied);
    ReachTransitive(s, start, applied, purged);
    ReachTransitive(s, start, purged, end);
    assert Initial(s, start);
    assert Accused(end) by {
      var e :| e in end.db.events && e.device == "d" && e.key == ReplayKey("a");
    }
  }

  /** Receipts that outlive every queued copy are what it takes, and no less. */
  lemma ReplaySafeExactly(s: Setup)
    requires Usual(s)
    ensures Outlives(s) <==> forall w, end :: Initial(s, w) && Reaches(s, w, end) ==> !Flagged(end)
    ensures Outlives(s) <==> forall w, end :: Initial(s, w) && Reaches(s, w, end) ==> !Accused(end)
  {
    if Outlives(s) {
      forall w, end | Initial(s, w) && Reaches(s, w, end) ensures !Flagged(end) && !Accused(end) {
        var moves :| Possible(s, w, moves) && Run(s, w, moves) == end;
        NeverTakenForReplayer(s, w, moves, end);
      }
    } else {
      TakenForReplayer(s);
    }
  }
}
