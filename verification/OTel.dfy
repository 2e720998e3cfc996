/** The local OTLP collector: records are de-duplicated by a digest and added to per-day counters. */
module OTel {
  import opened Prelude
  import opened CanonicalJson
  import opened Server
  import IntegrityScan

  const UINT64 := IntegrityScan.UINT64

  // ------------------------------------------------------------ records

  /** A decoded JSON number below 2^64. */
  type JsonNumber = r: real | r < 18446744073709551616.0

  datatype Value = Text(s: string) | Number(r: JsonNumber) | Flag(b: bool)

  datatype Attribute = Attribute(key: string, value: map<string, Value>)

  /** `traceId` and `spanId` as `%v` prints them; a missing time is the empty text. */
  datatype Record = Record(nanos: string, traceId: string, spanId: string, attributes: seq<Attribute>)

  /** resourceLogs, scopeLogs, logRecords. */
  type Batch = seq<seq<seq<Record>>>

  type Attributes = map<string, Option<Value>>

  /** `otelValue`: the first kind of value that is there. */
  function OtelValue(value: map<string, Value>): Option<Value> {
    if "stringValue" in value then Some(value["stringValue"])
    else if "intValue" in value then Some(value["intValue"])
    else if "doubleValue" in value then Some(value["doubleValue"])
    else if "boolValue" in value then Some(value["boolValue"])
    else None
  }

  /** `otelAttributes`: a repeated key keeps its last value. */
  function AttributesOf(items: seq<Attribute>): Attributes {
    if items == [] then map[]
    else
      var earlier, last := AttributesOf(items[..|items| - 1]), items[|items| - 1];
      if last.key == "" then earlier else earlier[last.key := OtelValue(last.value)]
  }

  predicate AllDigits(s: string) { s != "" && forall i :: 0 <= i < |s| ==> IsDigit(s[i]) }

  /** `strconv.ParseUint` with its error dropped: too large saturates, malformed is zero. */
  function ParseUint(s: string): (n: nat)
    ensures n < UINT64
  {
    if !AllDigits(s) then 0
    else if NatValue(s) >= UINT64 then UINT64 - 1
    else NatValue(s)
  }

  function AsUint(v: Option<Value>): (n: nat)
    ensures n < UINT64
  {
    match v
    case Some(Text(s)) => ParseUint(s)
    case Some(Number(r)) => if r > 0.0 then r.Floor else 0
    case _ => 0
  }

  function Field(attrs: Attributes, key: string): (n: nat)
    ensures n < UINT64
  {
    if key in attrs then AsUint(attrs[key]) else 0
  }

  function Plus(a: nat, b: nat): nat { (a + b) % UINT64 }

  /** `strconv.ParseInt`, where only positive results matter. */
  function ParsePositive(s: string): Option<nat> {
    var digits := if s != "" && s[0] == '+' then s[1..] else s;
    if AllDigits(digits) && 0 < NatValue(digits) < UINT64 / 2 then Some(NatValue(digits)) else None
  }

  // ------------------------------------------------------------ samples

  /** What one record contributes. */
  datatype Sample = Sample(id: string, day: string, input: nat, cached: nat, output: nat, reasoning: nat, total: nat)

  /** The digest, the calendar of the classroom's time zone and the retention in seconds. */
  datatype Calendar = Calendar(sha: string -> string, dayOf: int -> string, retention: int)

  function Identity(r: Record, input: nat, cached: nat, output: nat, reasoning: nat): string {
    r.nanos + "|" + r.traceId + "|" + r.spanId
    + "|" + Decimal(input) + "|" + Decimal(cached) + "|" + Decimal(output) + "|" + Decimal(reasoning)
  }

  function SampleOf(c: Calendar, now: int, r: Record): (s: Option<Sample>) {
    var attrs := AttributesOf(r.attributes);
    if "event.name" !in attrs || attrs["event.name"] != Some(Text("codex.sse_event"))
      || "event.kind" !in attrs || attrs["event.kind"] != Some(Text("response.completed"))
    then None
    else
      var input, cached := Field(attrs, "input_token_count"), Field(attrs, "cached_token_count");
      var output, reasoning := Field(attrs, "output_token_count"), Field(attrs, "reasoning_token_count");
      var tool := Field(attrs, "tool_token_count");
      var total := if tool == 0 then Plus(input, output) else tool;
      if total == 0 then None
      else
        var at := ParsePositive(r.nanos);
        Some(Sample(c.sha(Identity(r, input, cached, output, reasoning)), c.dayOf(if at.Some? then at.value else now),
                    input, cached, output, reasoning, total))
  }

  function RecordSamples(c: Calendar, now: int, records: seq<Record>): seq<Sample> {
    if records == [] then []
    else
      var s := SampleOf(c, now, records[0]);
      (if s.Some? then [s.value] else []) + RecordSamples(c, now, records[1..])
  }

  function ScopeSamples(c: Calendar, now: int, scopes: seq<seq<Record>>): seq<Sample> {
    if scopes == [] then [] else RecordSamples(c, now, scopes[0]) + ScopeSamples(c, now, scopes[1..])
  }

  function BatchSamples(c: Calendar, now: int, batch: Batch): seq<Sample> {
    if batch == [] then [] else ScopeSamples(c, now, batch[0]) + BatchSamples(c, now, batch[1..])
  }

  // ------------------------------------------------------------ the store

  datatype Store = Store(days: map<string, UsageDay>, seen: map<string, int>)

  const NANOS := 1_000_000_000

  function Accumulate(days: map<string, UsageDay>, x: Sample): map<string, UsageDay> {
    var sum := if x.day in days then days[x.day] else UsageDay(x.day, 0, 0, 0, 0, 0);
    days[x.day := UsageDay(x.day, Plus(sum.input, x.input), Plus(sum.cached, x.cached), Plus(sum.output, x.output),
                           Plus(sum.reasoning, x.reasoning), Plus(sum.total, x.total))]
  }

  function Add(store: Store, x: Sample, now: int): Store {
    if x.id in store.seen then store
    else Store(Accumulate(store.days, x), store.seen[x.id := now / NANOS])
  }

  function AddAll(store: Store, xs: seq<Sample>, now: int): Store
    decreases |xs|
  {
    if xs == [] then store else AddAll(Add(store, xs[0], now), xs[1..], now)
  }

  /** The samples among `xs` that count. */
  function Fresh(store: Store, xs: seq<Sample>, now: int): seq<Sample>
    decreases |xs|
  {
    if xs == [] then []
    else (if xs[0].id in store.seen then [] else [xs[0]]) + Fresh(Add(store, xs[0], now), xs[1..], now)
  }

  function Cutoff(c: Calendar, now: int): int { now / NANOS - c.retention }

  function Purged(store: Store, cutoff: int): Store {
    store.(seen := map id | id in store.seen && !(store.seen[id] < cutoff) :: store.seen[id])
  }

  /** The store after a batch. */
  function Ingested(c: Calendar, store: Store, batch: Batch, now: int): Store {
    AddAll(Purged(store, Cutoff(c, now)), BatchSamples(c, now, batch), now)
  }

  function Created(c: Calendar, store: Store, batch: Batch, now: int): seq<Sample> {
    Fresh(Purged(store, Cutoff(c, now)), BatchSamples(c, now, batch), now)
  }

  lemma {:induction false} AddAllAppend(store: Store, xs: seq<Sample>, ys: seq<Sample>, now: int)
    ensures AddAll(store, xs + ys, now) == AddAll(AddAll(store, xs, now), ys, now)
    ensures Fresh(store, xs + ys, now) == Fresh(store, xs, now) + Fresh(AddAll(store, xs, now), ys, now)
    decreases |xs|
  {
    if xs == [] {
      assert xs + ys == ys;
    } else {
      assert (xs + ys)[0] == xs[0] && (xs + ys)[1..] == xs[1..] + ys;
      var next := Add(store, xs[0], now);
      AddAllAppend(next, xs[1..], ys, now);
      Regroup(if xs[0].id in store.seen then [] else [xs[0]], Fresh(next, xs[1..], now),
              Fresh(AddAll(next, xs[1..], now), ys, now));
    }
  }

  // ------------------------------------------------------------ the collector

  /** The identities that are left when those of `done` have been looked at. */
  ghost function Left(seen: map<string, int>, cutoff: int, done: seq<string>): map<string, int> {
    map id | id in seen && !(id in done && seen[id] < cutoff) :: seen[id]
  }

  lemma ForgetsOne(seen: map<string, int>, cutoff: int, done: seq<string>, id: string,
                   before: map<string, int>, after: map<string, int>)
    requires before == Left(seen, cutoff, done) && id in seen
    requires after == if seen[id] < cutoff then before - {id} else before
    ensures after == Left(seen, cutoff, done + [id])
  {
  }

  class OTelStore {
    const calendar: Calendar
    var days: map<string, UsageDay>
    var seen: map<string, int>

    constructor (calendar: Calendar)
      ensures this.calendar == calendar && View() == Store(map[], map[])
    {
      this.calendar := calendar;
      days, seen := map[], map[];
    }

    function View(): Store
      reads this
    {
      Store(days, seen)
    }

    /** Reads the attribute list of a record. */
    static method ReadAttributes(items: seq<Attribute>) returns (attrs: Attributes)
      ensures attrs == AttributesOf(items)
    {
      attrs := map[];
      for i := 0 to |items|
        invariant attrs == AttributesOf(items[..i])
      {
        assert items[..i + 1][..i] == items[..i];
        if items[i].key != "" { attrs := attrs[items[i].key := OtelValue(items[i].value)]; }
      }
      assert items[..|items|] == items;
    }

    /** Drops the identities that are older than the cutoff. */
    static method Forget(store: Store, cutoff: int) returns (after: Store)
      ensures after == Purged(store, cutoff)
    {
      var ids := Shuffle(store.seen);
      var seen := store.seen;
      for i := 0 to |ids|
        invariant seen == Left(store.seen, cutoff, ids[..i])
      {
        assert ids[..i + 1] == ids[..i] + [ids[i]];
        ghost var before := seen;
        if store.seen[ids[i]] < cutoff { seen := seen - {ids[i]}; }
        ForgetsOne(store.seen, cutoff, ids[..i], ids[i], before, seen);
      }
      assert ids[..|ids|] == ids;
      after := store.(seen := seen);
    }

    /** One record: its sample is added unless its identity was seen. */
    static method Read(c: Calendar, store: Store, r: Record, now: int) returns (after: Store, created: nat)
      ensures var x := SampleOf(c, now, r);
        && after == (if x.Some? then Add(store, x.value, now) else store)
        && created == |Fresh(store, if x.Some? then [x.value] else [], now)|
    {
      after, created := store, 0;
      var attrs := ReadAttributes(r.attributes);
      if "event.name" !in attrs || attrs["event.name"] != Some(Text("codex.sse_event")) { return; }
      if "event.kind" !in attrs || attrs["event.kind"] != Some(Text("response.completed")) { return; }
      var input, cached := Field(attrs, "input_token_count"), Field(attrs, "cached_token_count");
      var output, reasoning := Field(attrs, "output_token_count"), Field(attrs, "reasoning_token_count");
      var total := Field(attrs, "tool_token_count");
      if total == 0 { total := Plus(input, output); }
      if total == 0 { return; }
      var id := c.sha(Identity(r, input, cached, output, reasoning));
      if id in store.seen { return; }
      var at := ParsePositive(r.nanos);
      var day := c.dayOf(if at.Some? then at.value else now);
      var value := if day in store.days then store.days[day] else UsageDay("", 0, 0, 0, 0, 0);
      value := UsageDay(day, Plus(value.input, input), Plus(value.cached, cached), Plus(value.output, output),
                        Plus(value.reasoning, reasoning), Plus(value.total, total));
      after := Store(store.days[day := value], store.seen[id := now / NANOS]);
      created := 1;
    }

    static method ReadRecords(c: Calendar, store: Store, records: seq<Record>, now: int)
        returns (after: Store, created: nat)
      ensures after == AddAll(store, RecordSamples(c, now, records), now)
      ensures created == |Fresh(store, RecordSamples(c, now, records), now)|
    {
      after, created := store, 0;
      assert records[0..] == records;
      for i := 0 to |records|
        invariant AddAll(after, RecordSamples(c, now, records[i..]), now)
          == AddAll(store, RecordSamples(c, now, records), now)
        invariant created + |Fresh(after, RecordSamples(c, now, records[i..]), now)|
          == |Fresh(store, RecordSamples(c, now, records), now)|
      {
        assert records[i..][1..] == records[i + 1..];
        ghost var x := SampleOf(c, now, records[i]);
        AddAllAppend(after, if x.Some? then [x.value] else [], RecordSamples(c, now, records[i + 1..]), now);
        OneSample(after, x, now);
        var more;
        after, more := Read(c, after, records[i], now);
        created := created + more;
      }
    }

    static method ReadScopes(c: Calendar, store: Store, scopes: seq<seq<Record>>, now: int)
        returns (after: Store, created: nat)
      ensures after == AddAll(store, ScopeSamples(c, now, scopes), now)
      ensures created == |Fresh(store, ScopeSamples(c, now, scopes), now)|
    {
      after, created := store, 0;
      assert scopes[0..] == scopes;
      for i := 0 to |scopes|
        invariant AddAll(after, ScopeSamples(c, now, scopes[i..]), now)
          == AddAll(store, ScopeSamples(c, now, scopes), now)
        invariant created + |Fresh(after, ScopeSamples(c, now, scopes[i..]), now)|
          == |Fresh(store, ScopeSamples(c, now, scopes), now)|
      {
        assert scopes[i..][1..] == scopes[i + 1..];
        AddAllAppend(after, RecordSamples(c, now, scopes[i]), ScopeSamples(c, now, scopes[i + 1..]), now);
        var more;
        after, more := ReadRecords(c, after, scopes[i], now);
        created := created + more;
      }
    }

    /** `ingestOTLP`.  `replaced` says whether the store file could be replaced. */
    method Ingest(batch: Batch, now: int, replaced: bool) returns (created: nat, ok: bool)
      modifies this
      ensures ok == replaced && created == |Created(calendar, old(View()), batch, now)|
      ensures View() == if replaced then Ingested(calendar, old(View()), batch, now) else old(View())
    {
      var store := Forget(View(), Cutoff(calendar, now));
      ghost var start := store;
      created := 0;
      assert batch[0..] == batch;
      for i := 0 to |batch|
        invariant View() == old(View())
        invariant AddAll(store, BatchSamples(calendar, now, batch[i..]), now)
          == AddAll(start, BatchSamples(calendar, now, batch), now)
        invariant created + |Fresh(store, BatchSamples(calendar, now, batch[i..]), now)|
          == |Fresh(start, BatchSamples(calendar, now, batch), now)|
      {
        assert batch[i..][1..] == batch[i + 1..];
        AddAllAppend(store, ScopeSamples(calendar, now, batch[i]), BatchSamples(calendar, now, batch[i + 1..]), now);
        var more;
        store, more := ReadScopes(calendar, store, batch[i], now);
        created := created + more;
      }
      if replaced { days, seen := store.days, store.seen; }
      ok := replaced;
    }
  }

  lemma OneSample(store: Store, x: Option<Sample>, now: int)
    ensures var xs := if x.Some? then [x.value] else [];
      AddAll(store, xs, now) == if x.Some? then Add(store, x.value, now) else store
  {
    if x.Some? { assert [x.value][1..] == []; }
  }
}
