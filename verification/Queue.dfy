/** The durable queue of signed envelopes: a JSON list on disk that is rewritten by atomic replacement. */
module Queue {
  import opened Prelude
  import opened Server

  datatype Item = Item(route: Route, createdAt: Time, envelope: Envelope)

  /** The items younger than the cutoff, in their order. */
  function Retained(items: seq<Item>, cutoff: Time): seq<Item> {
    if items == [] then []
    else (if items[0].createdAt > cutoff then [items[0]] else []) + Retained(items[1..], cutoff)
  }

  lemma {:induction false} RetainedAppend(items: seq<Item>, last: Item, cutoff: Time)
    ensures Retained(items + [last], cutoff)
      == Retained(items, cutoff) + (if last.createdAt > cutoff then [last] else [])
  {
    if items == [] {
      assert items + [last] == [last];
    } else {
      assert (items + [last])[1..] == items[1..] + [last];
      RetainedAppend(items[1..], last, cutoff);
    }
  }

  /** Exactly the young items survive. */
  lemma {:induction false} RetainedExactly(items: seq<Item>, cutoff: Time)
    ensures forall x :: x in Retained(items, cutoff) <==> x in items && x.createdAt > cutoff
  {
    if items != [] {
      RetainedExactly(items[1..], cutoff);
      assert items == [items[0]] + items[1..];
    }
  }

  /** Sequence numbers strictly increase along the queue. */
  ghost predicate Increasing(items: seq<Item>) {
    forall i, j :: 0 <= i < j < |items| ==> items[i].envelope.sequence < items[j].envelope.sequence
  }

  lemma {:induction false} RetainedIncreasing(items: seq<Item>, cutoff: Time)
    requires Increasing(items)
    ensures Increasing(Retained(items, cutoff))
  {
    if items != [] {
      RetainedIncreasing(items[1..], cutoff);
      RetainedExactly(items[1..], cutoff);
      var kept := Retained(items[1..], cutoff);
      forall j | 0 <= j < |kept| ensures items[0].envelope.sequence < kept[j].envelope.sequence {
        assert kept[j] in items[1..];
      }
    }
  }

  ghost predicate DistinctEvents(items: seq<Item>) {
    forall i, j :: 0 <= i < j < |items| ==> items[i].envelope.eventId != items[j].envelope.eventId
  }

  ghost predicate NewEvent(items: seq<Item>, event: EventId) {
    forall x :: x in items ==> x.envelope.eventId != event
  }

  lemma {:induction false} RetainedDistinct(items: seq<Item>, cutoff: Time)
    requires DistinctEvents(items)
    ensures DistinctEvents(Retained(items, cutoff))
  {
    if items != [] {
      RetainedDistinct(items[1..], cutoff);
      RetainedExactly(items[1..], cutoff);
      var kept := Retained(items[1..], cutoff);
      forall j | 0 <= j < |kept| ensures items[0].envelope.eventId != kept[j].envelope.eventId {
        assert kept[j] in items[1..];
      }
    }
  }

  class DurableQueue {
    const retention: Time
    var stored: seq<Item>

    constructor (retention: Time)
      ensures this.retention == retention && stored == []
    {
      this.retention := retention;
      stored := [];
    }

    /** Drops expired items by compacting the loaded slice in place, then appends.  `replaced` says
        whether the new file took the place of the old one. */
    method Push(item: Item, now: Time, replaced: bool) returns (ok: bool)
      modifies this
      ensures ok == replaced
      ensures stored == if replaced then Retained(old(stored), now - retention) + [item] else old(stored)
    {
      var file, cutoff := stored, now - retention;
      var items := new Item[|file|](i requires 0 <= i < |file| => file[i]);
      var kept := 0;
      for i := 0 to |file|
        invariant kept <= i && stored == file
        invariant items[..kept] == Retained(file[..i], cutoff)
        invariant forall k :: i <= k < |file| ==> items[k] == file[k]
      {
        assert file[..i + 1] == file[..i] + [file[i]];
        RetainedAppend(file[..i], file[i], cutoff);
        if items[i].createdAt > cutoff {
          items[kept] := items[i];
          kept := kept + 1;
        }
      }
      assert file[..|file|] == file;
      if replaced { stored := items[..kept] + [item]; }
      return replaced;
    }

    method Peek() returns (head: Option<Item>)
      ensures head == if stored == [] then None else Some(stored[0])
    {
      if |stored| == 0 { return None; }
      return Some(stored[0]);
    }

    method Pop(replaced: bool) returns (ok: bool)
      modifies this
      ensures ok == (replaced || old(stored) == [])
      ensures stored == if replaced && old(stored) != [] then old(stored)[1..] else old(stored)
    {
      if |stored| == 0 { return true; }
      if replaced { stored := stored[1..]; }
      return replaced;
    }

    method Clear(replaced: bool) returns (ok: bool)
      modifies this
      ensures ok == replaced && stored == if replaced then [] else old(stored)
    {
      if replaced { stored := []; }
      return replaced;
    }
  }
}
