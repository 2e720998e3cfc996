/** A queued report leaves the queue for one of three reasons only. */
module NothingLost {
  import opened Server
  import opened Queue
  import opened Protocol

  ghost predicate Acknowledged(log: seq<Exchange>, env: Envelope) {
    exists x :: x in log && x.envelope == env && x.response.Accepted?
  }

  /** The server answered a report of this identity that it does not know the device. */
  ghost predicate Disowned(log: seq<Exchange>, device: DeviceId) {
    exists x :: x in log && x.envelope.deviceId == device && x.response == UnknownDevice
  }

  /** The item is still queued, or the server acknowledged it, or it was too old at a push, or the server had lost
      the device. */
  ghost predicate AccountedFor(s: Setup, w: World, x: Item) {
    || x in w.queue
    || Acknowledged(w.log, x.envelope)
    || x.createdAt <= w.lastPush - s.retention
    || Disowned(w.log, x.envelope.deviceId)
  }

  /** Between an answer and what the agent does about it. */
  ghost predicate Justified(w: World) {
    && (w.phase.Acked? ==> w.queue != [] && Acknowledged(w.log, w.queue[0].envelope))
    && (w.phase.Stale? || w.phase.Registered? ==> Disowned(w.log, w.disk.deviceId))
  }

  lemma SendJustified(s: Setup, w: World, m: Move)
    requires AgentOk(s, w) && Justified(w) && Enabled(s, w, m) && m.SendHead?
    ensures Justified(Do(s, w, m)) && Do(s, w, m).queue == w.queue && Do(s, w, m).lastPush == w.lastPush
    ensures w.log <= Do(s, w, m).log
  {
    if m.arrives {
      var item := w.queue[0];
      assert item in w.queue;
      var (db, r) := Handle(s.cfg, w.db, item.route, item.envelope, w.now);
      var after := Answered(w, item, db, r, m.heard);
      assert after.log[|w.log|] == Exchange(item.envelope, r);
    }
  }

  lemma InternalJustified(s: Setup, w: World, m: Move)
    requires AgentOk(s, w) && Justified(w) && Enabled(s, w, m) && !m.SendHead? && !m.Elsewhere?
    ensures Justified(Internal(s, w, m)) && Internal(s, w, m).log == w.log && w.lastPush <= Internal(s, w, m).lastPush
  {
  }

  lemma InternalAccounts(s: Setup, w: World, m: Move, x: Item)
    requires AgentOk(s, w) && Justified(w) && Enabled(s, w, m) && !m.SendHead? && !m.Elsewhere? && x in w.queue
    ensures AccountedFor(s, Internal(s, w, m), x)
  {
    match m
    case PushItem => RetainedExactly(w.queue, w.now - s.retention);
    case PopHead =>
      if x != w.queue[0] { assert x in w.queue[1..]; }
    case _ =>
  }

  lemma StillAccounted(s: Setup, w: World, after: World, x: Item)
    requires AccountedFor(s, w, x) && w.log <= after.log && w.lastPush <= after.lastPush
    requires x in w.queue ==> AccountedFor(s, after, x)
    ensures AccountedFor(s, after, x)
  {
  }

  lemma MoveAccounts(s: Setup, w: World, m: Move, x: Item)
    requires AgentOk(s, w) && Justified(w) && Enabled(s, w, m) && AccountedFor(s, w, x)
    ensures Justified(Do(s, w, m)) && AccountedFor(s, Do(s, w, m), x)
  {
    if m.SendHead? {
      SendJustified(s, w, m);
    } else if !m.Elsewhere? {
      InternalJustified(s, w, m);
      if x in w.queue { InternalAccounts(s, w, m, x); }
    }
    StillAccounted(s, w, Do(s, w, m), x);
  }

  lemma {:induction false} RunAccounts(s: Setup, w: World, moves: seq<Move>, x: Item)
    requires s.retention > 0 && AgentOk(s, w) && Justified(w) && Possible(s, w, moves) && AccountedFor(s, w, x)
    ensures AccountedFor(s, Run(s, w, moves), x)
    decreases |moves|
  {
    if moves != [] {
      MoveAccounts(s, w, moves[0], x);
      DoKeepsAgent(s, w, moves[0]);
      RunAccounts(s, Do(s, w, moves[0]), moves[1..], x);
    }
  }

  lemma {:induction false} RunJustified(s: Setup, w: World, moves: seq<Move>)
    requires s.retention > 0 && AgentOk(s, w) && Justified(w) && Possible(s, w, moves)
    ensures AgentOk(s, Run(s, w, moves)) && Justified(Run(s, w, moves))
    decreases |moves|
  {
    if moves != [] {
      if moves[0].SendHead? {
        SendJustified(s, w, moves[0]);
      } else if !moves[0].Elsewhere? {
        InternalJustified(s, w, moves[0]);
      }
      DoKeepsAgent(s, w, moves[0]);
      RunJustified(s, Do(s, w, moves[0]), moves[1..]);
    }
  }

  /** Whatever is lost or crashes: from the moment a report is queued, it is in the queue until the server
      acknowledges it, unless it outlives the retention or the server answers that it does not know the device. */
  lemma NeverDropped(s: Setup, w: World, before: seq<Move>, queued: World, moves: seq<Move>, x: Item)
    requires s.retention > 0 && Initial(s, w) && Possible(s, w, before) && queued == Run(s, w, before)
    requires x in queued.queue && Possible(s, queued, moves)
    ensures AccountedFor(s, Run(s, queued, moves), x)
  {
    InitialFits(s, w);
    RunJustified(s, w, before);
    RunAccounts(s, queued, moves, x);
  }
}
