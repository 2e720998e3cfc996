/** The report protocol as a state machine: one agent process with its memory and its disk, a network that
    may lose requests and responses, the server's database, and a crash possible between any two atomic
    file replacements. */
module Protocol {
  import opened Prelude
  import opened CanonicalJson
  import opened SignedMessage
  import opened Server
  import opened ServerSafety
  import opened Queue

  /** The persisted identity and counter. */
  datatype Config = Config(deviceId: DeviceId, nextSequence: nat)

  /** What the agent process is doing between two atomic actions. */
  datatype Phase =
    | Idle
    | Signed(route: Route, envelope: Envelope)   // counter advanced in memory, not saved
    | Saved(route: Route, envelope: Envelope)    // counter saved, envelope not queued
    | Acked                                      // the server accepted the head, not popped
    | Stale(device: DeviceId)                    // the server does not know the device
    | Registered(device: DeviceId)               // new identity obtained, old queue still there
    | Cleared(device: DeviceId)                  // queue cleared, new identity not saved

  datatype Exchange = Exchange(envelope: Envelope, response: Response)

  type Days = map<string, UsageDay>

  datatype World = World(
    memory: Config, phase: Phase,                       // the agent process
    disk: Config, queue: seq<Item>, days: Days,         // its state directory
    db: Db, now: Time,
    // history, for stating the properties
    lastPush: Time, ids: set<DeviceId>, ours: set<DeviceId>, drawn: set<EventId>,
    log: seq<Exchange>, reported: Days, latest: Option<Envelope>,
    taken: Days, latestDays: Days)                      // the store when the last snapshot was signed, and queued

  /** `stamp` formats times.  `delay` is the longest time from a push to a later send without a push in between. */
  datatype Setup = Setup(cfg: Settings, key: PublicKey, stamp: Time -> string, retention: Time, delay: Time)

  // ------------------------------------------------------------ usage snapshots

  /** The store that a list of days describes. */
  function DaysOf(days: seq<UsageDay>): Days {
    if days == [] then map[]
    else DaysOf(days[..|days| - 1])[days[|days| - 1].date := days[|days| - 1]]
  }

  predicate IsOtel(body: Body) { body.UsageBody? && body.source.Otel? }

  // ------------------------------------------------------------ moves

  datatype Move =
    | Collect(days: Days)
    | SignNext(route: Route, payload: Json, body: Body, event: EventId)
    | SaveConfig
    | PushItem
    | SendHead(arrives: bool, heard: bool)
    | PopHead
    | SkipReenroll
    | Reenroll(id: DeviceId, heard: bool)
    | ClearQueue
    | SaveIdentity
    | SaveIdle
    | GiveUp
    | Restart
    | Tick(to: Time)
    | Elsewhere(action: Action)
    | ResetServer

  /** The signature of `env` is the agent's, over these very fields. */
  ghost predicate SignedBy(s: Setup, env: Envelope) {
    && env.signature == Sign(s.cfg.sha, s.key, env.deviceId, env.sequence, env.timestamp, env.eventId, env.payload,
                             env.body).signature
    && Exact(env.payload)
  }

  predicate OneLineFields(env: Envelope) {
    OneLine(env.deviceId) && OneLine(env.timestamp) && OneLine(env.eventId)
  }

  predicate SameFields(a: Envelope, b: Envelope) {
    && a.deviceId == b.deviceId && a.sequence == b.sequence && a.timestamp == b.timestamp
    && a.eventId == b.eventId && a.payload == b.payload
  }

  /** `env` carries a signature that the agent made for other fields. */
  ghost predicate Altered(s: Setup, env: Envelope) {
    exists h :: SignedBy(s, h) && OneLineFields(h) && env.signature == h.signature && !SameFields(env, h)
  }

  /** Server activity that is not the agent's.  No one else can make a signature with its key, but a signature
      that was seen may come with other fields, whatever they contain.  Identifiers are fresh. */
  ghost predicate Foreign(s: Setup, w: World, a: Action) {
    match a
    case Post(_, env, now) => now == w.now && (env.signature.key != s.key || Altered(s, env))
    case PurgeAt(now) => now == w.now
    case ReconcileAt(_, now) => now == w.now
    case Register(id, _) => id !in w.ids
  }

  ghost predicate Enabled(s: Setup, w: World, m: Move) {
    match m
    case Collect(days) => w.days.Keys <= days.Keys
    case SignNext(route, payload, body, event) =>
      && w.phase.Idle? && event !in w.drawn && Exact(payload) && body == s.cfg.decode(payload)
      && (IsOtel(body) ==> DaysOf(body.days) == w.days)
    case SaveConfig => w.phase.Signed?
    case PushItem => w.phase.Saved?
    case SendHead(_, _) => w.phase.Idle? && w.queue != [] && w.now <= w.lastPush + s.delay
    case PopHead => w.phase.Acked?
    case SkipReenroll => w.phase.Stale? && w.memory.deviceId != w.phase.device
    case Reenroll(id, _) => w.phase.Stale? && w.memory.deviceId == w.phase.device && id !in w.ids
    case ClearQueue => w.phase.Registered?
    case SaveIdentity => w.phase.Cleared?
    case SaveIdle => w.phase.Idle?
    case GiveUp => true
    case Restart => true
    case Tick(to) => w.now <= to
    case Elsewhere(action) => Foreign(s, w, action)
    case ResetServer => true
  }

  /** How `Flush` reacts to a response. */
  function Reaction(response: Response, env: Envelope): Phase {
    match response
    case Accepted(_) => Acked
    case UnknownDevice => Stale(env.deviceId)
    case _ => Idle
  }

  /** The world after the server answered `item` with `response` and was left as `db`. */
  function Answered(w: World, item: Item, db: Db, response: Response, heard: bool): World {
    w.(db := db,
       phase := if heard then Reaction(response, item.envelope) else Idle,
       log := w.log + [Exchange(item.envelope, response)],
       reported := if response == Accepted(false) && IsOtel(item.envelope.body) then DaysOf(item.envelope.body.days)
                   else w.reported)
  }

  function EmptyDb(): Db { Db(map[], map[], [], [], [], []) }

  /** Everything but the steps that run a server transaction. */
  ghost function Internal(s: Setup, w: World, m: Move): World
    requires Enabled(s, w, m) && !m.SendHead? && !m.Elsewhere?
  {
    match m
    case Collect(days) => w.(days := days)
    case SignNext(route, payload, body, event) =>
      var env := Sign(s.cfg.sha, s.key, w.memory.deviceId, w.memory.nextSequence, s.stamp(w.now), event, payload, body);
      w.(memory := w.memory.(nextSequence := w.memory.nextSequence + 1), phase := Signed(route, env),
         drawn := w.drawn + {event}, taken := if IsOtel(body) then w.days else w.taken)
    case SaveConfig => w.(disk := w.memory, phase := Saved(w.phase.route, w.phase.envelope))
    case PushItem =>
      var env := w.phase.envelope;
      w.(queue := Retained(w.queue, w.now - s.retention) + [Item(w.phase.route, w.now, env)],
         lastPush := w.now, phase := Idle, latest := if IsOtel(env.body) then Some(env) else w.latest,
         latestDays := if IsOtel(env.body) then w.taken else w.latestDays)
    case PopHead => w.(queue := if w.queue == [] then [] else w.queue[1..], phase := Idle)
    case SkipReenroll => w.(phase := Idle)
    case Reenroll(id, heard) =>
      w.(db := Enroll(w.db, id, s.key), ids := w.ids + {id}, ours := w.ours + {id},
         phase := if heard then Registered(id) else Idle)
    case ClearQueue => w.(queue := [], phase := Cleared(w.phase.device))
    case SaveIdentity =>
      var identity := Config(w.phase.device, 1);
      w.(memory := identity, disk := identity, phase := Idle, reported := map[])
    case SaveIdle => w.(disk := w.memory)
    case GiveUp => w.(phase := Idle)
    case Restart => w.(memory := w.disk, phase := Idle)
    case Tick(to) => w.(now := to)
    case ResetServer => w.(db := EmptyDb())
  }

  ghost function Do(s: Setup, w: World, m: Move): World
    requires Enabled(s, w, m)
  {
    match m
    case SendHead(arrives, heard) =>
      if !arrives then w
      else
        var (db, response) := Handle(s.cfg, w.db, w.queue[0].route, w.queue[0].envelope, w.now);
        Answered(w, w.queue[0], db, response, heard)
    case Elsewhere(a) => w.(db := Step(s.cfg, w.db, a), ids := if a.Register? then w.ids + {a.id} else w.ids)
    case _ => Internal(s, w, m)
  }

  // ------------------------------------------------------------ runs

  ghost predicate Possible(s: Setup, w: World, moves: seq<Move>)
    decreases |moves|
  {
    moves == [] || (Enabled(s, w, moves[0]) && Possible(s, Do(s, w, moves[0]), moves[1..]))
  }

  ghost function Run(s: Setup, w: World, moves: seq<Move>): World
    requires Possible(s, w, moves)
    decreases |moves|
  {
    if moves == [] then w else Run(s, Do(s, w, moves[0]), moves[1..])
  }

  lemma {:induction false} RunAppend(s: Setup, w: World, a: seq<Move>, b: seq<Move>)
    requires Possible(s, w, a) && Possible(s, Run(s, w, a), b)
    ensures Possible(s, w, a + b) && Run(s, w, a + b) == Run(s, Run(s, w, a), b)
    decreases |a|
  {
    if a == [] {
      assert a + b == b;
    } else {
      assert (a + b)[0] == a[0] && (a + b)[1..] == a[1..] + b;
      RunAppend(s, Do(s, w, a[0]), a[1..], b);
    }
  }

  /** `w'` is reached from `w` by some moves. */
  ghost predicate Reaches(s: Setup, w: World, w': World) {
    exists moves :: Possible(s, w, moves) && Run(s, w, moves) == w'
  }

  lemma ReachStep(s: Setup, w: World, m: Move)
    requires Enabled(s, w, m)
    ensures Reaches(s, w, Do(s, w, m))
  {
    var w', moves := Do(s, w, m), [m];
    assert moves[0] == m && moves[1..] == [];
    assert Possible(s, w', []) && Run(s, w', []) == w';
    assert Possible(s, w, moves);
    assert Run(s, w, moves) == w';
  }

  lemma ReachTransitive(s: Setup, a: World, b: World, c: World)
    requires Reaches(s, a, b) && Reaches(s, b, c)
    ensures Reaches(s, a, c)
  {
    var x :| Possible(s, a, x) && Run(s, a, x) == b;
    var y :| Possible(s, b, y) && Run(s, b, y) == c;
    RunAppend(s, a, x, y);
  }

  lemma ReachInternal(s: Setup, start: World, w: World, m: Move)
    requires Reaches(s, start, w) && Enabled(s, w, m) && !m.SendHead? && !m.Elsewhere?
    ensures Reaches(s, start, Internal(s, w, m))
  {
    ReachStep(s, w, m);
    ReachTransitive(s, start, w, Internal(s, w, m));
  }

  lemma ReachAnswer(s: Setup, start: World, w: World, db: Db, response: Response, heard: bool)
    requires Reaches(s, start, w) && Enabled(s, w, SendHead(true, heard))
    requires (db, response) == Handle(s.cfg, w.db, w.queue[0].route, w.queue[0].envelope, w.now)
    ensures Reaches(s, start, Answered(w, w.queue[0], db, response, heard))
  {
    ReachStep(s, w, SendHead(true, heard));
    ReachTransitive(s, start, w, Answered(w, w.queue[0], db, response, heard));
  }

  lemma ReachSelf(s: Setup, w: World)
    ensures Reaches(s, w, w)
  {
    assert Possible(s, w, []) && Run(s, w, []) == w;
  }

  /** A freshly enrolled agent. */
  ghost predicate Initial(s: Setup, w: World) {
    && w.memory == w.disk && w.disk.nextSequence == 1 && w.phase.Idle? && w.queue == []
    && w.lastPush <= w.now && w.log == [] && w.reported == map[] && w.latest.None?
    && w.ours == {w.disk.deviceId} && w.ours <= w.ids && w.db.devices.Keys <= w.ids
    && w.disk.deviceId in w.db.devices
    && w.db.devices[w.disk.deviceId].key == s.key && w.db.devices[w.disk.deviceId].lastSequence == 0
    && (forall k :: k in w.db.receipts ==> k.0 in w.ids && k.0 != w.disk.deviceId)
    && (forall e :: e in w.db.events ==> e.device in w.ids && e.device != w.disk.deviceId)
    && (forall r :: r in w.db.usage ==> r.device in w.ids && r.device != w.disk.deviceId)
    && UniqueCells(w.db.usage)
  }

  /** The greatest age, in whole microseconds, at which an item survives a push. */
  function OldestAtPush(s: Setup): Time { s.retention - 1 }

  /** Receipts outlive every queued copy. */
  predicate Outlives(s: Setup) {
    AtLeastOne(s.cfg.receiptDays) * DAY >= OldestAtPush(s) + s.delay
  }

  /** What the theorems assume of the setting. */
  ghost predicate Sound(s: Setup) {
    Digest(s.cfg.sha) && s.retention > 0 && s.delay >= 0 && Outlives(s)
  }

  // ------------------------------------------------------------ the agent's own state

  /** Signed by the agent for device `d` with a number below `bound`. */
  ghost predicate Signs(s: Setup, d: DeviceId, bound: nat, env: Envelope) {
    SignedBy(s, env) && env.body == s.cfg.decode(env.payload) && env.deviceId == d && 1 <= env.sequence < bound
  }

  ghost predicate ItemOk(s: Setup, w: World, item: Item) {
    Signs(s, w.disk.deviceId, w.disk.nextSequence, item.envelope)
    && w.lastPush - OldestAtPush(s) <= item.createdAt <= w.now
  }

  ghost predicate QueueOk(s: Setup, w: World) {
    Increasing(w.queue) && forall i :: 0 <= i < |w.queue| ==> ItemOk(s, w, w.queue[i])
  }

  ghost predicate Newest(items: seq<Item>, sequence: int) {
    forall i :: 0 <= i < |items| ==> items[i].envelope.sequence < sequence
  }

  ghost predicate PhaseOk(s: Setup, w: World) {
    match w.phase
    case Idle => true
    case Signed(_, env) =>
      Signs(s, w.disk.deviceId, w.memory.nextSequence, env) && env.sequence >= w.disk.nextSequence
    case Saved(_, env) =>
      Signs(s, w.disk.deviceId, w.disk.nextSequence, env) && Newest(w.queue, env.sequence)
    case Acked => w.queue != []
    case Stale(d) => d == w.disk.deviceId
    case Registered(d) => d != w.disk.deviceId && d in w.ours
    case Cleared(d) => d != w.disk.deviceId && d in w.ours && w.queue == []
  }

  /** Every queued envelope carries the persisted identity, with strictly increasing numbers below
      the persisted counter. */
  ghost predicate AgentOk(s: Setup, w: World) {
    && w.memory.deviceId == w.disk.deviceId && 1 <= w.disk.nextSequence <= w.memory.nextSequence
    && w.disk.deviceId in w.ours && w.ours <= w.ids && w.lastPush <= w.now
    && QueueOk(s, w) && PhaseOk(s, w)
  }

  lemma KeptStaysOk(s: Setup, w: World, w': World, x: Item)
    requires QueueOk(s, w) && x in w.queue && x.createdAt > w.now - s.retention
    requires w'.disk == w.disk && w'.now == w.now == w'.lastPush
    ensures ItemOk(s, w', x)
  {
    var k :| 0 <= k < |w.queue| && w.queue[k] == x;
    assert ItemOk(s, w, w.queue[k]);
  }

  lemma PushedIncreasing(kept: seq<Item>, item: Item)
    requires Increasing(kept) && Newest(kept, item.envelope.sequence)
    ensures Increasing(kept + [item])
  {
  }

  lemma KeptBelow(items: seq<Item>, cutoff: Time, sequence: int)
    requires Newest(items, sequence)
    ensures Newest(Retained(items, cutoff), sequence)
  {
    var kept := Retained(items, cutoff);
    RetainedExactly(items, cutoff);
    forall i | 0 <= i < |kept| ensures kept[i].envelope.sequence < sequence {
      assert kept[i] in items;
    }
  }

  lemma PushKeepsQueue(s: Setup, w: World, w': World)
    requires s.retention > 0 && AgentOk(s, w) && w.phase.Saved? && w' == Internal(s, w, PushItem)
    ensures QueueOk(s, w')
  {
    var cutoff, item := w.now - s.retention, Item(w.phase.route, w.now, w.phase.envelope);
    var kept := Retained(w.queue, cutoff);
    RetainedIncreasing(w.queue, cutoff);
    KeptBelow(w.queue, cutoff, w.phase.envelope.sequence);
    PushedIncreasing(kept, item);
    RetainedExactly(w.queue, cutoff);
    forall i | 0 <= i < |w'.queue| ensures ItemOk(s, w', w'.queue[i]) {
      if i < |kept| {
        assert kept[i] in kept;
        KeptStaysOk(s, w, w', kept[i]);
      }
    }
  }

  lemma InternalKeepsQueue(s: Setup, w: World, m: Move)
    requires s.retention > 0 && AgentOk(s, w) && Enabled(s, w, m) && !m.SendHead? && !m.Elsewhere? && !m.PushItem?
    ensures QueueOk(s, Internal(s, w, m))
  {
    var w' := Internal(s, w, m);
    if !m.SaveIdentity? {
      forall i | 0 <= i < |w'.queue| ensures ItemOk(s, w', w'.queue[i]) {
        assert ItemOk(s, w, w.queue[if m.PopHead? then i + 1 else i]);
      }
    }
  }

  lemma InternalKeepsPhase(s: Setup, w: World, m: Move)
    requires AgentOk(s, w) && Enabled(s, w, m) && !m.SendHead? && !m.Elsewhere?
    ensures PhaseOk(s, Internal(s, w, m))
  {
    if m.SaveConfig? {
      forall i | 0 <= i < |w.queue| ensures w.queue[i].envelope.sequence < w.phase.envelope.sequence {
        assert ItemOk(s, w, w.queue[i]);
      }
    }
  }

  lemma InternalKeepsAgent(s: Setup, w: World, m: Move)
    requires s.retention > 0 && AgentOk(s, w) && Enabled(s, w, m) && !m.SendHead? && !m.Elsewhere?
    ensures AgentOk(s, Do(s, w, m))
  {
    if m.PushItem? { PushKeepsQueue(s, w, Internal(s, w, m)); } else { InternalKeepsQueue(s, w, m); }
    InternalKeepsPhase(s, w, m);
  }

  lemma AnsweredKeepsAgent(s: Setup, w: World, db: Db, response: Response, heard: bool)
    requires AgentOk(s, w) && w.phase.Idle? && w.queue != []
    ensures AgentOk(s, Answered(w, w.queue[0], db, response, heard))
  {
    assert ItemOk(s, w, w.queue[0]);
    var w' := Answered(w, w.queue[0], db, response, heard);
    forall i | 0 <= i < |w'.queue| ensures ItemOk(s, w', w'.queue[i]) {
      assert ItemOk(s, w, w.queue[i]);
    }
  }

  lemma SendKeepsAgent(s: Setup, w: World, m: Move)
    requires AgentOk(s, w) && Enabled(s, w, m) && m.SendHead?
    ensures AgentOk(s, Do(s, w, m))
  {
    var (db, response) := Handle(s.cfg, w.db, w.queue[0].route, w.queue[0].envelope, w.now);
    AnsweredKeepsAgent(s, w, db, response, m.heard);
  }

  lemma ElsewhereKeepsAgent(s: Setup, w: World, m: Move)
    requires AgentOk(s, w) && Enabled(s, w, m) && m.Elsewhere?
    ensures AgentOk(s, Do(s, w, m))
  {
    var w' := Do(s, w, m);
    forall i | 0 <= i < |w'.queue| ensures ItemOk(s, w', w'.queue[i]) {
      assert ItemOk(s, w, w.queue[i]);
    }
  }

  lemma DoKeepsAgent(s: Setup, w: World, m: Move)
    requires s.retention > 0 && AgentOk(s, w) && Enabled(s, w, m)
    ensures AgentOk(s, Do(s, w, m))
  {
    if m.SendHead? {
      SendKeepsAgent(s, w, m);
    } else if m.Elsewhere? {
      ElsewhereKeepsAgent(s, w, m);
    } else {
      InternalKeepsAgent(s, w, m);
    }
  }

  lemma {:induction false} RunKeepsAgent(s: Setup, w: World, moves: seq<Move>)
    requires s.retention > 0 && AgentOk(s, w) && Possible(s, w, moves)
    ensures AgentOk(s, Run(s, w, moves))
    decreases |moves|
  {
    if moves != [] {
      DoKeepsAgent(s, w, moves[0]);
      RunKeepsAgent(s, Do(s, w, moves[0]), moves[1..]);
    }
  }

  lemma InitialFits(s: Setup, w: World)
    requires Initial(s, w)
    ensures AgentOk(s, w)
  {
  }

  /** At every point of every run from enrollment, the queue and the persisted configuration fit together. */
  lemma QueueAlwaysFits(s: Setup, w: World, moves: seq<Move>)
    requires s.retention > 0 && Initial(s, w) && Possible(s, w, moves)
    ensures AgentOk(s, Run(s, w, moves))
  {
    InitialFits(s, w);
    RunKeepsAgent(s, w, moves);
  }

  /** The early return of re-enrollment for an envelope of another device cannot happen. */
  lemma NeverSkips(s: Setup, w: World, moves: seq<Move>)
    requires s.retention > 0 && Initial(s, w) && Possible(s, w, moves)
    ensures !Enabled(s, Run(s, w, moves), SkipReenroll)
  {
    QueueAlwaysFits(s, w, moves);
  }

  /** The head of the queue always belongs to the identity in memory. */
  lemma HeadIsCurrent(s: Setup, w: World, moves: seq<Move>, end: World)
    requires s.retention > 0 && Initial(s, w) && Possible(s, w, moves) && end == Run(s, w, moves) && end.queue != []
    ensures end.queue[0].envelope.deviceId == end.memory.deviceId
  {
    QueueAlwaysFits(s, w, moves);
    assert ItemOk(s, end, end.queue[0]);
  }

  lemma ReachFits(s: Setup, start: World, w: World)
    requires s.retention > 0 && AgentOk(s, start) && Reaches(s, start, w)
    ensures AgentOk(s, w)
    ensures w.queue != [] ==> w.queue[0].envelope.deviceId == w.memory.deviceId
  {
    var moves :| Possible(s, start, moves) && Run(s, start, moves) == w;
    RunKeepsAgent(s, start, moves);
    if w.queue != [] { assert ItemOk(s, w, w.queue[0]); }
  }
}
