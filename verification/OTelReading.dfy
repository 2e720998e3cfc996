/** How a record is read: which attribute feeds which counter, which day it counts for and what makes two records
    the same, stated on the attribute list. */
module OTelReading {
  import opened Prelude
  import opened CanonicalJson
  import opened CanonicalTheorems
  import opened SignedMessage
  import opened Server
  import opened OTel
  import opened OTelTheorems

  const LIMIT := 0x1_0000_0000_0000_0000

  // ------------------------------------------------------------ numbers

  /** The text stands for this count: decimal digits, cut off at the largest 64-bit number; any other text is 0. */
  ghost predicate TextShows(s: string, n: nat) {
    if s != "" && forall i :: 0 <= i < |s| ==> '0' <= s[i] <= '9'
    then n == (if NatValue(s) < LIMIT then NatValue(s) else LIMIT - 1)
    else n == 0
  }

  /** A text, a whole or fractional number, or a flag read as a count. */
  ghost predicate ValueShows(v: Value, n: nat) {
    match v
    case Text(s) => TextShows(s, n)
    case Number(r) => if r > 0.0 then n as real <= r < n as real + 1.0 else n == 0
    case Flag(_) => n == 0
  }

  /** The first of the four kinds of value that is there decides. */
  ghost predicate Shows(value: map<string, Value>, n: nat) {
    if "stringValue" in value then ValueShows(value["stringValue"], n)
    else if "intValue" in value then ValueShows(value["intValue"], n)
    else if "doubleValue" in value then ValueShows(value["doubleValue"], n)
    else if "boolValue" in value then ValueShows(value["boolValue"], n)
    else n == 0
  }

  lemma DigitsAll(s: string)
    ensures AllDigits(s) <==> s != "" && forall i :: 0 <= i < |s| ==> '0' <= s[i] <= '9'
  {
  }

  lemma ShowsRead(value: map<string, Value>, n: nat)
    requires Shows(value, n)
    ensures AsUint(OtelValue(value)) == n
  {
    var v := OtelValue(value);
    if v.Some? && v.value.Text? { DigitsAll(v.value.s); }
  }

  /** A count written in decimal shows itself, as text and as a number. */
  lemma DecimalShows(n: nat, value: map<string, Value>)
    requires n < LIMIT && "stringValue" !in value && "intValue" in value
    requires value["intValue"] == Text(Decimal(n)) || (value["intValue"].Number? && value["intValue"].r == n as real)
    ensures Shows(value, n)
  {
    DigitsValue(n);
  }

  // ------------------------------------------------------------ attributes

  ghost predicate DistinctKeys(items: seq<Attribute>) {
    forall i, j :: 0 <= i < j < |items| ==> items[i].key != items[j].key
  }

  /** The attribute `key` is there and shows `n`, or it is missing and `n` is 0. */
  ghost predicate Gives(items: seq<Attribute>, key: string, n: nat) {
    || (exists i :: 0 <= i < |items| && items[i].key == key && Shows(items[i].value, n))
    || (n == 0 && forall i :: 0 <= i < |items| ==> items[i].key != key)
  }

  /** The first of the four kinds of value that is there is this text. */
  ghost predicate IsText(value: map<string, Value>, text: string) {
    if "stringValue" in value then value["stringValue"] == Text(text)
    else if "intValue" in value then value["intValue"] == Text(text)
    else if "doubleValue" in value then value["doubleValue"] == Text(text)
    else "boolValue" in value && value["boolValue"] == Text(text)
  }

  ghost predicate Says(items: seq<Attribute>, key: string, text: string) {
    exists i :: 0 <= i < |items| && items[i].key == key && IsText(items[i].value, text)
  }

  lemma {:induction false} AttributesListed(items: seq<Attribute>, key: string)
    requires DistinctKeys(items) && key != ""
    ensures key in AttributesOf(items) <==> exists i :: 0 <= i < |items| && items[i].key == key
    ensures forall i :: 0 <= i < |items| && items[i].key == key ==>
      key in AttributesOf(items) && AttributesOf(items)[key] == OtelValue(items[i].value)
  {
    if items != [] {
      var n := |items| - 1;
      var front := items[..n];
      AttributesListed(front, key);
      assert forall i :: 0 <= i < n ==> front[i] == items[i];
    }
  }

  lemma GivesField(items: seq<Attribute>, key: string, n: nat)
    requires DistinctKeys(items) && key != "" && Gives(items, key, n)
    ensures Field(AttributesOf(items), key) == n
  {
    AttributesListed(items, key);
    if i :| 0 <= i < |items| && items[i].key == key && Shows(items[i].value, n) { ShowsRead(items[i].value, n); }
  }

  lemma SaysField(items: seq<Attribute>, key: string, text: string)
    requires DistinctKeys(items) && key != ""
    ensures Says(items, key, text) <==> key in AttributesOf(items) && AttributesOf(items)[key] == Some(Text(text))
  {
    AttributesListed(items, key);
    if key in AttributesOf(items) {
      var i :| 0 <= i < |items| && items[i].key == key;
      assert forall j :: 0 <= j < |items| && items[j].key == key ==> j == i;
    }
  }

  // ------------------------------------------------------------ one record

  /** The counts that a record carries. */
  datatype Counts = Counts(input: nat, cached: nat, output: nat, reasoning: nat, tool: nat)

  ghost predicate Carries(items: seq<Attribute>, n: Counts) {
    && Gives(items, "input_token_count", n.input) && Gives(items, "cached_token_count", n.cached)
    && Gives(items, "output_token_count", n.output) && Gives(items, "reasoning_token_count", n.reasoning)
    && Gives(items, "tool_token_count", n.tool)
  }

  ghost predicate IsCompletion(items: seq<Attribute>) {
    Says(items, "event.name", "codex.sse_event") && Says(items, "event.kind", "response.completed")
  }

  /** The tool count, or input and output together if there is none. */
  function TotalOf(n: Counts): nat { if n.tool == 0 then (n.input + n.output) % LIMIT else n.tool }

  /** The record's own time if it is a positive 64-bit number, perhaps with a plus sign, and else the time of
      arrival. */
  ghost predicate HappenedAt(nanos: string, now: int, at: int) {
    var digits := if "+" <= nanos then nanos[1..] else nanos;
    if digits != "" && (forall i :: 0 <= i < |digits| ==> '0' <= digits[i] <= '9')
       && 0 < NatValue(digits) < 0x8000_0000_0000_0000
    then at == NatValue(digits)
    else at == now
  }

  function IdentityText(r: Record, n: Counts): string {
    r.nanos + "|" + r.traceId + "|" + r.spanId + "|" + Decimal(n.input) + "|" + Decimal(n.cached) + "|"
    + Decimal(n.output) + "|" + Decimal(n.reasoning)
  }

  /** The day's row with the counts added, each modulo 2^64. */
  function Plussed(day: UsageDay, date: string, n: Counts): UsageDay {
    UsageDay(date, (day.input + n.input) % LIMIT, (day.cached + n.cached) % LIMIT, (day.output + n.output) % LIMIT,
             (day.reasoning + n.reasoning) % LIMIT, (day.total + TotalOf(n)) % LIMIT)
  }

  lemma SampleRead(c: Calendar, now: int, r: Record, n: Counts, at: int)
    requires DistinctKeys(r.attributes) && IsCompletion(r.attributes) && Carries(r.attributes, n)
    requires HappenedAt(r.nanos, now, at)
    ensures SampleOf(c, now, r)
      == if TotalOf(n) == 0 then None
         else Some(Sample(c.sha(IdentityText(r, n)), c.dayOf(at), n.input, n.cached, n.output, n.reasoning, TotalOf(n)))
  {
    var items := r.attributes;
    SaysField(items, "event.name", "codex.sse_event");
    SaysField(items, "event.kind", "response.completed");
    CountsRead(items, n);
    ClockRead(r.nanos, now, at);
    SampleFrom(c, now, r, AttributesOf(items), n, at);
  }

  lemma SampleFrom(c: Calendar, now: int, r: Record, a: Attributes, n: Counts, at: int)
    requires a == AttributesOf(r.attributes)
    requires "event.name" in a && a["event.name"] == Some(Text("codex.sse_event"))
    requires "event.kind" in a && a["event.kind"] == Some(Text("response.completed"))
    requires Field(a, "input_token_count") == n.input && Field(a, "cached_token_count") == n.cached
    requires Field(a, "output_token_count") == n.output && Field(a, "reasoning_token_count") == n.reasoning
    requires Field(a, "tool_token_count") == n.tool
    requires var p := ParsePositive(r.nanos); at == if p.Some? then p.value else now
    ensures SampleOf(c, now, r)
      == if TotalOf(n) == 0 then None
         else Some(Sample(c.sha(IdentityText(r, n)), c.dayOf(at), n.input, n.cached, n.output, n.reasoning, TotalOf(n)))
  {
  }

  lemma CountsRead(items: seq<Attribute>, n: Counts)
    requires DistinctKeys(items) && Carries(items, n)
    ensures var a := AttributesOf(items);
      && Field(a, "input_token_count") == n.input && Field(a, "cached_token_count") == n.cached
      && Field(a, "output_token_count") == n.output && Field(a, "reasoning_token_count") == n.reasoning
      && Field(a, "tool_token_count") == n.tool
  {
    GivesField(items, "input_token_count", n.input);
    GivesField(items, "cached_token_count", n.cached);
    GivesField(items, "output_token_count", n.output);
    GivesField(items, "reasoning_token_count", n.reasoning);
    GivesField(items, "tool_token_count", n.tool);
  }

  lemma ClockRead(nanos: string, now: int, at: int)
    requires HappenedAt(nanos, now, at)
    ensures var p := ParsePositive(nanos); at == if p.Some? then p.value else now
  {
    DigitsAll(if "+" <= nanos then nanos[1..] else nanos);
  }

  /** A completed response with some total counts on its day, each attribute for its own counter, unless its
      identity was seen within the retention. */
  lemma RecordCounted(c: Calendar, store: Store, r: Record, now: int, n: Counts, at: int, after: Store)
    requires after == Ingested(c, store, [[[r]]], now)
    requires DistinctKeys(r.attributes) && IsCompletion(r.attributes) && Carries(r.attributes, n)
    requires HappenedAt(r.nanos, now, at) && TotalOf(n) > 0
    ensures var id, day := c.sha(IdentityText(r, n)), c.dayOf(at);
      var known := id in store.seen && store.seen[id] >= now / 1_000_000_000 - c.retention;
      var before := if day in store.days then store.days[day] else UsageDay(day, 0, 0, 0, 0, 0);
      && (!known ==> after.days == store.days[day := Plussed(before, day, n)])
      && (!known ==> id in after.seen && after.seen[id] == now / 1_000_000_000)
      && (known ==> after.days == store.days && id in after.seen && after.seen[id] == store.seen[id])
  {
    SampleRead(c, now, r, n, at);
    var x := Sample(c.sha(IdentityText(r, n)), c.dayOf(at), n.input, n.cached, n.output, n.reasoning, TotalOf(n));
    OneAdded(c, store, now, r, x);
    AddedOnce(c, store, x, now, n, after);
  }

  lemma AddedOnce(c: Calendar, store: Store, x: Sample, now: int, n: Counts, after: Store)
    requires after == Add(Purged(store, Cutoff(c, now)), x, now)
    requires x.input == n.input && x.cached == n.cached && x.output == n.output && x.reasoning == n.reasoning
    requires x.total == TotalOf(n)
    ensures var known := x.id in store.seen && store.seen[x.id] >= now / 1_000_000_000 - c.retention;
      var before := if x.day in store.days then store.days[x.day] else UsageDay(x.day, 0, 0, 0, 0, 0);
      && (!known ==> after.days == store.days[x.day := Plussed(before, x.day, n)])
      && (!known ==> x.id in after.seen && after.seen[x.id] == now / 1_000_000_000)
      && (known ==> after.days == store.days && x.id in after.seen && after.seen[x.id] == store.seen[x.id])
  {
  }

  /** Any other record counts nothing. */
  lemma RecordIgnored(c: Calendar, store: Store, r: Record, now: int)
    requires DistinctKeys(r.attributes)
    requires !IsCompletion(r.attributes) || exists n :: Carries(r.attributes, n) && TotalOf(n) == 0
    ensures Ingested(c, store, [[[r]]], now).days == store.days
  {
    if IsCompletion(r.attributes) {
      var n :| Carries(r.attributes, n) && TotalOf(n) == 0;
      SomeClock(r.nanos, now);
      var at :| HappenedAt(r.nanos, now, at);
      SampleRead(c, now, r, n, at);
    } else {
      NoCompletion(c, r, now);
    }
    OneRecord(c, now, r);
  }

  lemma SomeClock(nanos: string, now: int)
    ensures exists at :: HappenedAt(nanos, now, at)
  {
    var digits := if "+" <= nanos then nanos[1..] else nanos;
    if digits != "" && forall i :: 0 <= i < |digits| ==> '0' <= digits[i] <= '9' {
      assert HappenedAt(nanos, now, NatValue(digits)) || HappenedAt(nanos, now, now);
    } else {
      assert HappenedAt(nanos, now, now);
    }
  }

  lemma NoCompletion(c: Calendar, r: Record, now: int)
    requires DistinctKeys(r.attributes) && !IsCompletion(r.attributes)
    ensures SampleOf(c, now, r).None?
  {
    SaysField(r.attributes, "event.name", "codex.sse_event");
    SaysField(r.attributes, "event.kind", "response.completed");
  }

  // ------------------------------------------------------------ identity

  lemma {:induction false} FirstBar(a: string, x: string, b: string, y: string)
    requires '|' !in a && '|' !in b && a + "|" + x == b + "|" + y
    ensures a == b && x == y
  {
    BarHead(a, x);
    BarHead(b, y);
    if a == "" || b == "" {
      assert ("|" + x)[1..] == x && ("|" + y)[1..] == y;
    } else {
      var s, t := a + "|" + x, b + "|" + y;
      assert s[1..] == a[1..] + "|" + x && t[1..] == b[1..] + "|" + y;
      FirstBar(a[1..], x, b[1..], y);
      assert a == [a[0]] + a[1..] && b == [b[0]] + b[1..];
    }
  }

  lemma BarHead(a: string, x: string)
    ensures (a + "|" + x)[0] == if a == "" then '|' else a[0]
    ensures a == "" ==> a + "|" + x == "|" + x
  {
  }

  /** Two completed responses are the same to the collector exactly if time, trace, span and the four counts
      agree, when the three texts hold no bar; the tool count does not matter. */
  lemma SameRecordExactly(c: Calendar, r: Record, n: Counts, q: Record, m: Counts)
    requires CollisionFree(c.sha)
    requires '|' !in r.nanos && '|' !in r.traceId && '|' !in r.spanId
    requires '|' !in q.nanos && '|' !in q.traceId && '|' !in q.spanId
    ensures c.sha(IdentityText(r, n)) == c.sha(IdentityText(q, m)) <==>
      && r.nanos == q.nanos && r.traceId == q.traceId && r.spanId == q.spanId
      && n.input == m.input && n.cached == m.cached && n.output == m.output && n.reasoning == m.reasoning
  {
    assert SameDigest(c.sha, IdentityText(r, n), IdentityText(q, m)) <==> IdentityText(r, n) == IdentityText(q, m);
    if IdentityText(r, n) == IdentityText(q, m) {
      IdentityFixesCounts(r, n.input, n.cached, n.output, n.reasoning, q, m.input, m.cached, m.output, m.reasoning);
      SplitIdentity(r, n, Tail(n));
      SplitIdentity(q, m, Tail(m));
      SameHead(r, q, Tail(n), IdentityText(r, n), IdentityText(q, m));
    }
  }

  function Tail(n: Counts): string {
    "|" + Decimal(n.input) + "|" + Decimal(n.cached) + "|" + Decimal(n.output) + "|" + Decimal(n.reasoning)
  }

  lemma SplitIdentity(r: Record, n: Counts, tail: string)
    requires tail == Tail(n)
    ensures IdentityText(r, n) == r.nanos + "|" + (r.traceId + "|" + (r.spanId + tail))
  {
    JoinSeven(r.nanos, r.traceId, r.spanId, Decimal(n.input), Decimal(n.cached), Decimal(n.output),
              Decimal(n.reasoning));
  }

  lemma JoinSeven(a: string, b: string, s: string, i: string, k: string, o: string, e: string)
    ensures a + "|" + b + "|" + s + "|" + i + "|" + k + "|" + o + "|" + e
      == a + "|" + (b + "|" + (s + ("|" + i + "|" + k + "|" + o + "|" + e)))
  {
  }

  lemma SameHead(r: Record, q: Record, tail: string, s: string, t: string)
    requires '|' !in r.nanos && '|' !in r.traceId && '|' !in r.spanId
    requires '|' !in q.nanos && '|' !in q.traceId && '|' !in q.spanId
    requires s == r.nanos + "|" + (r.traceId + "|" + (r.spanId + tail))
    requires t == q.nanos + "|" + (q.traceId + "|" + (q.spanId + tail))
    requires s == t
    ensures r.nanos == q.nanos && r.traceId == q.traceId && r.spanId == q.spanId
  {
    FirstBar(r.nanos, r.traceId + "|" + (r.spanId + tail), q.nanos, q.traceId + "|" + (q.spanId + tail));
    FirstBar(r.traceId, r.spanId + tail, q.traceId, q.spanId + tail);
    assert |r.spanId| == |q.spanId|;
    assert (r.spanId + tail)[..|r.spanId|] == r.spanId && (q.spanId + tail)[..|q.spanId|] == q.spanId;
  }
}
