/** Conservation, idempotence and commutation of the OTLP collector. */
module OTelTheorems {
  import opened Prelude
  import opened CanonicalJson
  import opened SignedMessage
  import opened Server
  import opened OTel

  // ------------------------------------------------------------ runs

  /** A batch that arrives at `now`; it counts only if the store file was replaced. */
  datatype Delivery = Delivery(batch: Batch, now: int, stored: bool)

  /** A sample that was counted, and the second when it was. */
  datatype Entry = Entry(sample: Sample, at: int)

  function Entries(xs: seq<Sample>, at: int): seq<Entry> {
    seq(|xs|, i requires 0 <= i < |xs| => Entry(xs[i], at))
  }

  function After(c: Calendar, store: Store, d: Delivery): Store {
    if d.stored then Ingested(c, store, d.batch, d.now) else store
  }

  function RunStore(c: Calendar, store: Store, ds: seq<Delivery>): Store
    decreases |ds|
  {
    if ds == [] then store else RunStore(c, After(c, store, ds[0]), ds[1..])
  }

  /** What a delivery adds to the ledger. */
  function Counted(c: Calendar, store: Store, d: Delivery): seq<Entry> {
    if d.stored then Entries(Created(c, store, d.batch, d.now), d.now / NANOS) else []
  }

  /** Everything that was counted, in order. */
  function Ledger(c: Calendar, store: Store, ds: seq<Delivery>): seq<Entry>
    decreases |ds|
  {
    if ds == [] then []
    else
      Counted(c, store, ds[0]) + Ledger(c, After(c, store, ds[0]), ds[1..])
  }

  // ------------------------------------------------------------ conservation

  datatype Counter = InputTokens | CachedTokens | OutputTokens | ReasoningTokens | TotalTokens

  function Part(x: Sample, k: Counter): nat {
    match k
    case InputTokens => x.input
    case CachedTokens => x.cached
    case OutputTokens => x.output
    case ReasoningTokens => x.reasoning
    case TotalTokens => x.total
  }

  function Reading(days: map<string, UsageDay>, day: string, k: Counter): nat {
    if day !in days then 0
    else
      match k
      case InputTokens => days[day].input
      case CachedTokens => days[day].cached
      case OutputTokens => days[day].output
      case ReasoningTokens => days[day].reasoning
      case TotalTokens => days[day].total
  }

  /** The plain sum of one counter over the entries of one day. */
  function Total(ledger: seq<Entry>, day: string, k: Counter): nat
    decreases |ledger|
  {
    if ledger == [] then 0
    else (if ledger[0].sample.day == day then Part(ledger[0].sample, k) else 0) + Total(ledger[1..], day, k)
  }

  lemma {:induction false} TotalAppend(a: seq<Entry>, b: seq<Entry>, day: string, k: Counter)
    ensures Total(a + b, day, k) == Total(a, day, k) + Total(b, day, k)
    decreases |a|
  {
    if a == [] {
      assert a + b == b;
    } else {
      assert (a + b)[0] == a[0] && (a + b)[1..] == a[1..] + b;
      TotalAppend(a[1..], b, day, k);
    }
  }

  /** What 64-bit arithmetic leaves of a number. */
  function Wrap(n: nat): (r: nat)
    ensures r < UINT64
    decreases n
  {
    if n < UINT64 then n else Wrap(n - UINT64)
  }

  lemma {:induction false} WrapIsModulo(n: nat)
    ensures Wrap(n) == n % UINT64
    decreases n
  {
    if n >= UINT64 { WrapIsModulo(n - UINT64); }
  }

  /** `b` is `a + n` in 64-bit arithmetic. */
  predicate Wraps(a: nat, n: nat, b: nat) { b == Wrap(a + n) }

  lemma WrapsAdd(a: nat, n: nat, b: nat, m: nat, c: nat)
    requires Wraps(a, n, b) && Wraps(b, m, c)
    ensures Wraps(a, n + m, c)
  {
    WrapIsModulo(a + n);
    WrapIsModulo(b + m);
    WrapIsModulo(a + (n + m));
  }

  lemma AccumulateReading(days: map<string, UsageDay>, x: Sample, day: string, k: Counter)
    ensures x.day == day ==> Wraps(Reading(days, day, k), Part(x, k), Reading(Accumulate(days, x), day, k))
    ensures x.day != day ==> Reading(Accumulate(days, x), day, k) == Reading(days, day, k)
  {
    WrapIsModulo(Reading(days, day, k) + Part(x, k));
  }

  lemma FreshStep(store: Store, xs: seq<Sample>, now: int)
    requires xs != []
    ensures Fresh(store, xs, now)
      == if xs[0].id in store.seen then Fresh(store, xs[1..], now)
        else [xs[0]] + Fresh(Add(store, xs[0], now), xs[1..], now)
  {
  }

  lemma EntriesStep(x: Sample, rest: seq<Sample>, at: int, day: string, k: Counter)
    ensures Entries([x] + rest, at) == [Entry(x, at)] + Entries(rest, at)
    ensures Total(Entries([x] + rest, at), day, k)
      == (if x.day == day then Part(x, k) else 0) + Total(Entries(rest, at), day, k)
  {
    assert Entries([x] + rest, at)[1..] == Entries(rest, at);
  }

  lemma {:induction false} SamplesConserved(store: Store, xs: seq<Sample>, now: int, at: int, day: string, k: Counter)
    requires Reading(store.days, day, k) < UINT64
    ensures Wraps(Reading(store.days, day, k), Total(Entries(Fresh(store, xs, now), at), day, k),
                  Reading(AddAll(store, xs, now).days, day, k))
    decreases |xs|
  {
    if xs != [] {
      FreshStep(store, xs, now);
      if xs[0].id in store.seen {
        SamplesConserved(store, xs[1..], now, at, day, k);
      } else {
        var next := Add(store, xs[0], now);
        var rest := Fresh(next, xs[1..], now);
        AccumulateReading(store.days, xs[0], day, k);
        EntriesStep(xs[0], rest, at, day, k);
        SamplesConserved(next, xs[1..], now, at, day, k);
        if xs[0].day == day {
          WrapsAdd(Reading(store.days, day, k), Part(xs[0], k), Reading(next.days, day, k),
                   Total(Entries(rest, at), day, k),
                   Reading(AddAll(next, xs[1..], now).days, day, k));
        }
      }
    }
  }

  lemma DeliveryConserved(c: Calendar, store: Store, d: Delivery, day: string, k: Counter)
    requires Reading(store.days, day, k) < UINT64
    ensures Wraps(Reading(store.days, day, k), Total(Counted(c, store, d), day, k),
                  Reading(After(c, store, d).days, day, k))
  {
    if d.stored {
      SamplesConserved(Purged(store, Cutoff(c, d.now)), BatchSamples(c, d.now, d.batch), d.now, d.now / NANOS, day, k);
    }
  }

  lemma Chained(before: nat, head: seq<Entry>, middle: nat, rest: seq<Entry>, after: nat, day: string, k: Counter)
    requires Wraps(before, Total(head, day, k), middle) && Wraps(middle, Total(rest, day, k), after)
    ensures Wraps(before, Total(head + rest, day, k), after)
  {
    TotalAppend(head, rest, day, k);
    WrapsAdd(before, Total(head, day, k), middle, Total(rest, day, k), after);
  }

  lemma LedgerStep(c: Calendar, store: Store, ds: seq<Delivery>)
    requires ds != []
    ensures Ledger(c, store, ds) == Counted(c, store, ds[0]) + Ledger(c, After(c, store, ds[0]), ds[1..])
  {
  }

  lemma {:induction false} RunConserved(c: Calendar, store: Store, ds: seq<Delivery>, day: string, k: Counter,
                                        ledger: seq<Entry>)
    requires Reading(store.days, day, k) < UINT64 && ledger == Ledger(c, store, ds)
    ensures Wraps(Reading(store.days, day, k), Total(ledger, day, k), Reading(RunStore(c, store, ds).days, day, k))
    decreases |ds|
  {
    if ds != [] {
      var next, head := After(c, store, ds[0]), Counted(c, store, ds[0]);
      var rest := Ledger(c, next, ds[1..]);
      LedgerStep(c, store, ds);
      DeliveryConserved(c, store, ds[0], day, k);
      RunConserved(c, next, ds[1..], day, k, rest);
      Chained(Reading(store.days, day, k), head, Reading(next.days, day, k), rest,
              Reading(RunStore(c, next, ds[1..]).days, day, k), day, k);
    }
  }

  /** Over any sequence of batches, losses of the store file included, every counter of every day is the sum
      of what was counted, modulo 2^64. */
  lemma Conservation(c: Calendar, ds: seq<Delivery>, day: string, k: Counter)
    ensures Reading(RunStore(c, Store(map[], map[]), ds).days, day, k)
      == Total(Ledger(c, Store(map[], map[]), ds), day, k) % UINT64
  {
    RunConserved(c, Store(map[], map[]), ds, day, k, Ledger(c, Store(map[], map[]), ds));
    WrapIsModulo(Total(Ledger(c, Store(map[], map[]), ds), day, k));
  }

  // ------------------------------------------------------------ counted once

  /** The clock does not go back. */
  ghost predicate Monotone(ds: seq<Delivery>, t: int)
    decreases |ds|
  {
    ds == [] || (t <= ds[0].now && Monotone(ds[1..], ds[0].now))
  }

  /** Two entries with one identity are more than the retention apart. */
  ghost predicate Spaced(c: Calendar, ledger: seq<Entry>) {
    forall i, j :: 0 <= i < j < |ledger| && ledger[i].sample.id == ledger[j].sample.id ==>
      ledger[j].at - ledger[i].at > c.retention
  }

  /** Counted identities are remembered unless they are too old at second `now`. */
  ghost predicate Remembered(c: Calendar, store: Store, ledger: seq<Entry>, now: int) {
    forall e :: e in ledger ==>
      e.at <= now && (e.at < now - c.retention || (e.sample.id in store.seen && store.seen[e.sample.id] >= e.at))
  }

  lemma PurgeRemembers(c: Calendar, store: Store, ledger: seq<Entry>, t: int, now: int)
    requires Remembered(c, store, ledger, t) && t <= now / NANOS
    ensures Remembered(c, Purged(store, Cutoff(c, now)), ledger, now / NANOS)
  {
  }

  lemma AddRemembers(c: Calendar, store: Store, ledger: seq<Entry>, x: Sample, now: int)
    requires Remembered(c, store, ledger, now / NANOS) && Spaced(c, ledger) && x.id !in store.seen
    ensures Remembered(c, Add(store, x, now), ledger + [Entry(x, now / NANOS)], now / NANOS)
    ensures Spaced(c, ledger + [Entry(x, now / NANOS)])
  {
    var longer := ledger + [Entry(x, now / NANOS)];
    forall i | 0 <= i < |ledger| && ledger[i].sample.id == x.id ensures now / NANOS - ledger[i].at > c.retention {
      assert ledger[i] in ledger;
    }
  }

  lemma EntriesCons(ledger: seq<Entry>, x: Sample, rest: seq<Sample>, at: int)
    ensures ledger + Entries([x] + rest, at) == ledger + [Entry(x, at)] + Entries(rest, at)
  {
    assert Entries([x] + rest, at) == [Entry(x, at)] + Entries(rest, at);
  }

  lemma {:induction false} SamplesSpaced(c: Calendar, store: Store, ledger: seq<Entry>, xs: seq<Sample>, now: int,
                                         whole: seq<Entry>)
    requires Remembered(c, store, ledger, now / NANOS) && Spaced(c, ledger)
    requires whole == ledger + Entries(Fresh(store, xs, now), now / NANOS)
    ensures Remembered(c, AddAll(store, xs, now), whole, now / NANOS) && Spaced(c, whole)
    decreases |xs|
  {
    if xs == [] {
      assert whole == ledger;
    } else {
      FreshStep(store, xs, now);
      if xs[0].id in store.seen {
        SamplesSpaced(c, store, ledger, xs[1..], now, whole);
      } else {
        AddRemembers(c, store, ledger, xs[0], now);
        EntriesCons(ledger, xs[0], Fresh(Add(store, xs[0], now), xs[1..], now), now / NANOS);
        SamplesSpaced(c, Add(store, xs[0], now), ledger + [Entry(xs[0], now / NANOS)], xs[1..], now, whole);
      }
    }
  }

  lemma DeliverySpaced(c: Calendar, store: Store, ledger: seq<Entry>, d: Delivery, t: int, longer: seq<Entry>)
    requires Remembered(c, store, ledger, t / NANOS) && Spaced(c, ledger) && t <= d.now
    requires longer == ledger + Counted(c, store, d)
    ensures Remembered(c, After(c, store, d), longer, d.now / NANOS) && Spaced(c, longer)
  {
    if d.stored {
      PurgeRemembers(c, store, ledger, t / NANOS, d.now);
      SamplesSpaced(c, Purged(store, Cutoff(c, d.now)), ledger, BatchSamples(c, d.now, d.batch), d.now, longer);
    } else {
      assert longer == ledger;
    }
  }

  lemma {:induction false} RunSpaced(c: Calendar, store: Store, ledger: seq<Entry>, ds: seq<Delivery>, t: int,
                                     whole: seq<Entry>)
    requires Remembered(c, store, ledger, t / NANOS) && Spaced(c, ledger) && Monotone(ds, t)
    requires whole == ledger + Ledger(c, store, ds)
    ensures Spaced(c, whole)
    decreases |ds|
  {
    if ds == [] {
      assert whole == ledger;
    } else {
      var longer := ledger + Counted(c, store, ds[0]);
      LedgerStep(c, store, ds);
      Regroup(ledger, Counted(c, store, ds[0]), Ledger(c, After(c, store, ds[0]), ds[1..]));
      DeliverySpaced(c, store, ledger, ds[0], t, longer);
      RunSpaced(c, After(c, store, ds[0]), longer, ds[1..], ds[0].now, whole);
    }
  }

  lemma LedgerSpaced(c: Calendar, ds: seq<Delivery>, t: int, l: seq<Entry>)
    requires Monotone(ds, t) && l == Ledger(c, Store(map[], map[]), ds)
    ensures Spaced(c, l)
  {
    assert [] + l == l;
    RunSpaced(c, Store(map[], map[]), [], ds, t, l);
  }

  /** Within the retention no identity is counted twice. */
  lemma CountedOnce(c: Calendar, ds: seq<Delivery>, t: int, l: seq<Entry>, i: nat, j: nat)
    requires Monotone(ds, t) && l == Ledger(c, Store(map[], map[]), ds)
    requires i < j < |l| && l[j].at - l[i].at <= c.retention
    ensures l[i].sample.id != l[j].sample.id
  {
    LedgerSpaced(c, ds, t, l);
  }

  // ------------------------------------------------------------ idempotence

  ghost function Ids(xs: seq<Sample>): set<string> {
    set x | x in xs :: x.id
  }

  lemma IdsAppend(a: seq<Sample>, b: seq<Sample>)
    ensures Ids(a + b) == Ids(a) + Ids(b)
  {
  }

  lemma {:induction false} AllSeen(store: Store, xs: seq<Sample>, now: int)
    ensures AddAll(store, xs, now).seen.Keys == store.seen.Keys + Ids(xs)
    ensures forall id :: id in AddAll(store, xs, now).seen ==>
      AddAll(store, xs, now).seen[id] == if id in store.seen then store.seen[id] else now / NANOS
    decreases |xs|
  {
    if xs != [] {
      AllSeen(Add(store, xs[0], now), xs[1..], now);
      IdsAppend([xs[0]], xs[1..]);
      assert xs == [xs[0]] + xs[1..];
    }
  }

  /** Nothing new is counted exactly when every identity is known. */
  lemma {:induction false} NothingFresh(store: Store, xs: seq<Sample>, now: int)
    ensures Fresh(store, xs, now) == [] <==> Ids(xs) <= store.seen.Keys
    ensures Fresh(store, xs, now) == [] ==> AddAll(store, xs, now) == store
    decreases |xs|
  {
    if xs != [] {
      NothingFresh(Add(store, xs[0], now), xs[1..], now);
      FreshStep(store, xs, now);
      IdsAppend([xs[0]], xs[1..]);
      assert xs == [xs[0]] + xs[1..];
      assert xs[0].id in Ids(xs);
    }
  }

  /** The identities of a batch do not depend on when it arrives. */
  lemma {:induction false} RecordIds(c: Calendar, now: int, later: int, records: seq<Record>)
    ensures Ids(RecordSamples(c, now, records)) == Ids(RecordSamples(c, later, records))
    decreases |records|
  {
    if records != [] {
      RecordIds(c, now, later, records[1..]);
      var x, y := SampleOf(c, now, records[0]), SampleOf(c, later, records[0]);
      assert x.Some? <==> y.Some?;
      if x.Some? {
        assert x.value.id == y.value.id;
        assert Ids([x.value]) == {x.value.id} == Ids([y.value]);
        IdsAppend([x.value], RecordSamples(c, now, records[1..]));
        IdsAppend([y.value], RecordSamples(c, later, records[1..]));
      } else {
        assert [] + RecordSamples(c, now, records[1..]) == RecordSamples(c, now, records[1..]);
        assert [] + RecordSamples(c, later, records[1..]) == RecordSamples(c, later, records[1..]);
      }
    }
  }

  lemma {:induction false} ScopeIds(c: Calendar, now: int, later: int, scopes: seq<seq<Record>>)
    ensures Ids(ScopeSamples(c, now, scopes)) == Ids(ScopeSamples(c, later, scopes))
    decreases |scopes|
  {
    if scopes != [] {
      RecordIds(c, now, later, scopes[0]);
      ScopeIds(c, now, later, scopes[1..]);
      IdsAppend(RecordSamples(c, now, scopes[0]), ScopeSamples(c, now, scopes[1..]));
      IdsAppend(RecordSamples(c, later, scopes[0]), ScopeSamples(c, later, scopes[1..]));
    }
  }

  lemma {:induction false} BatchIds(c: Calendar, now: int, later: int, batch: Batch)
    ensures Ids(BatchSamples(c, now, batch)) == Ids(BatchSamples(c, later, batch))
    decreases |batch|
  {
    if batch != [] {
      ScopeIds(c, now, later, batch[0]);
      BatchIds(c, now, later, batch[1..]);
      IdsAppend(ScopeSamples(c, now, batch[0]), BatchSamples(c, now, batch[1..]));
      IdsAppend(ScopeSamples(c, later, batch[0]), BatchSamples(c, later, batch[1..]));
    }
  }

  /** A batch that arrives again counts nothing exactly when none of its identities has been forgotten,
      and then it changes no counter. */
  lemma Reingested(c: Calendar, store: Store, batch: Batch, now: int, s: Store, later: int)
    requires s == Ingested(c, store, batch, now)
    ensures Created(c, s, batch, later) == []
      <==> forall id :: id in Ids(BatchSamples(c, now, batch)) ==> id in s.seen && s.seen[id] >= Cutoff(c, later)
    ensures Created(c, s, batch, later) == [] ==> Ingested(c, s, batch, later).days == s.days
  {
    NothingFresh(Purged(s, Cutoff(c, later)), BatchSamples(c, later, batch), later);
    BatchIds(c, now, later, batch);
  }

  /** In particular a batch of new records may be repeated freely within the retention. */
  lemma RepeatInTime(c: Calendar, store: Store, batch: Batch, now: int, s: Store, later: int)
    requires s == Ingested(c, store, batch, now)
    requires Ids(BatchSamples(c, now, batch)) !! Purged(store, Cutoff(c, now)).seen.Keys
    requires later / NANOS - now / NANOS <= c.retention
    ensures Created(c, s, batch, later) == [] && Ingested(c, s, batch, later).days == s.days
  {
    Reingested(c, store, batch, now, s, later);
    AllSeen(Purged(store, Cutoff(c, now)), BatchSamples(c, now, batch), now);
  }

  /** A batch of one record. */
  function One(r: Record): Batch { [[[r]]] }

  lemma OneRecord(c: Calendar, now: int, r: Record)
    ensures BatchSamples(c, now, One(r)) == if SampleOf(c, now, r).Some? then [SampleOf(c, now, r).value] else []
  {
    var records, scopes, batch := [r], [[r]], One(r);
    assert records[1..] == [] && scopes[1..] == [] && batch[1..] == [];
    assert RecordSamples(c, now, records[1..]) == [];
    var samples := RecordSamples(c, now, records);
    var x := SampleOf(c, now, records[0]);
    assert samples == (if x.Some? then [x.value] else []) + [];
    assert samples == if SampleOf(c, now, r).Some? then [SampleOf(c, now, r).value] else [];
    assert ScopeSamples(c, now, scopes) == samples + [];
    assert BatchSamples(c, now, batch) == samples + [] + [];
  }

  lemma OneAdded(c: Calendar, store: Store, now: int, r: Record, x: Sample)
    requires SampleOf(c, now, r) == Some(x)
    ensures Ingested(c, store, One(r), now) == Add(Purged(store, Cutoff(c, now)), x, now)
    ensures Created(c, store, One(r), now) == if x.id in Purged(store, Cutoff(c, now)).seen then [] else [x]
  {
    var p, xs := Purged(store, Cutoff(c, now)), [x];
    OneRecord(c, now, r);
    assert xs[1..] == [];
    assert AddAll(Add(p, x, now), xs[1..], now) == Add(p, x, now);
    assert AddAll(p, xs, now) == Add(p, x, now);
    FreshStep(p, xs, now);
  }

  lemma SameId(c: Calendar, now: int, later: int, r: Record)
    requires SampleOf(c, now, r).Some?
    ensures SampleOf(c, later, r).Some?
    ensures SampleOf(c, later, r).value == SampleOf(c, now, r).value.(day := SampleOf(c, later, r).value.day)
  {
  }

  /** A repeat keeps the second at which the identity was first seen. */
  lemma RepeatKeepsTime(c: Calendar, s: Store, r: Record, first: int, x: Sample, now: int)
    requires SampleOf(c, first, r) == Some(x) && x.id in s.seen && s.seen[x.id] >= Cutoff(c, now)
    ensures Created(c, s, One(r), now) == []
    ensures x.id in Ingested(c, s, One(r), now).seen && Ingested(c, s, One(r), now).seen[x.id] == s.seen[x.id]
  {
    SameId(c, first, now, r);
    OneAdded(c, s, now, r, SampleOf(c, now, r).value);
  }

  lemma ForgottenCounts(c: Calendar, s: Store, r: Record, first: int, x: Sample, now: int)
    requires SampleOf(c, first, r) == Some(x) && x.id in s.seen && s.seen[x.id] < Cutoff(c, now)
    ensures |Created(c, s, One(r), now)| == 1
  {
    SameId(c, first, now, r);
    OneAdded(c, s, now, r, SampleOf(c, now, r).value);
  }

  lemma FirstSeen(c: Calendar, store: Store, r: Record, now: int, x: Sample)
    requires SampleOf(c, now, r) == Some(x) && x.id !in store.seen
    ensures x.id in Ingested(c, store, One(r), now).seen && Ingested(c, store, One(r), now).seen[x.id] == now / NANOS
  {
    OneAdded(c, store, now, r, x);
  }

  /** A repeat does not renew the memory of an identity: a record that was counted and then repeated at the end of
      the retention counts again one second later. */
  lemma RepeatForgotten(c: Calendar, store: Store, r: Record, x: Sample, now: int, end: int, past: int,
                        s: Store, again: Store)
    requires SampleOf(c, now, r) == Some(x) && x.id !in store.seen
    requires end / NANOS == now / NANOS + c.retention && past / NANOS == end / NANOS + 1
    requires s == Ingested(c, store, One(r), now) && again == Ingested(c, s, One(r), end)
    ensures Created(c, s, One(r), end) == []
    ensures |Created(c, again, One(r), past)| == 1
  {
    FirstSeen(c, store, r, now, x);
    RepeatKeepsTime(c, s, r, now, x, end);
    ForgottenCounts(c, again, r, now, x, past);
  }

  // ------------------------------------------------------------ what an identity fixes

  lemma NoBar(n: nat)
    ensures '|' !in Decimal(n)
  {
    assert forall c :: c in Digits(n) ==> IsDigit(c);
  }

  lemma LastBar(a: string, x: string, b: string, y: string)
    requires '|' !in x && '|' !in y && a + "|" + x == b + "|" + y
    ensures a == b && x == y
  {
    var s := a + "|" + x;
    assert s[|a|] == '|' && s[|b|] == '|';
    forall k | |a| < k < |s| ensures s[k] != '|' {
      assert s[k] == x[k - |a| - 1];
    }
    forall k | |b| < k < |s| ensures s[k] != '|' {
      assert s[k] == y[k - |b| - 1];
    }
    assert |a| == |b|;
    assert s[..|a|] == a && s[..|b|] == b;
    assert s[|a| + 1..] == x && s[|b| + 1..] == y;
  }

  lemma LastNumber(a: string, n: nat, b: string, m: nat)
    requires a + "|" + Decimal(n) == b + "|" + Decimal(m)
    ensures a == b && n == m
  {
    NoBar(n);
    NoBar(m);
    LastBar(a, Decimal(n), b, Decimal(m));
    DecimalInjective(n, m);
  }

  /** The four counts are part of the identity; the total and the day are not. */
  lemma IdentityFixesCounts(r: Record, i: nat, c: nat, o: nat, e: nat, r': Record, i': nat, c': nat, o': nat, e': nat)
    requires Identity(r, i, c, o, e) == Identity(r', i', c', o', e')
    ensures i == i' && c == c' && o == o' && e == e'
  {
    var p0, q0 := r.nanos + "|" + r.traceId + "|" + r.spanId, r'.nanos + "|" + r'.traceId + "|" + r'.spanId;
    var p1, q1 := p0 + "|" + Decimal(i), q0 + "|" + Decimal(i');
    var p2, q2 := p1 + "|" + Decimal(c), q1 + "|" + Decimal(c');
    var p3, q3 := p2 + "|" + Decimal(o), q2 + "|" + Decimal(o');
    LastNumber(p3, e, q3, e');
    LastNumber(p2, o, q2, o');
    LastNumber(p1, c, q1, c');
    LastNumber(p0, i, q0, i');
  }

  /** `x` is the sample of some record at some time. */
  ghost predicate Genuine(c: Calendar, x: Sample) {
    exists r: Record, now: int :: SampleOf(c, now, r) == Some(x)
  }

  lemma SampleGenuine(c: Calendar, now: int, r: Record)
    ensures SampleOf(c, now, r).Some? ==> Genuine(c, SampleOf(c, now, r).value)
  {
    if SampleOf(c, now, r).Some? { assert SampleOf(c, now, r) == Some(SampleOf(c, now, r).value); }
  }

  lemma SampleParts(c: Calendar, now: int, r: Record, x: Sample)
    requires SampleOf(c, now, r) == Some(x)
    ensures 0 < x.total < UINT64 && x.id == c.sha(Identity(r, x.input, x.cached, x.output, x.reasoning))
  {
  }

  ghost predicate AllGenuine(c: Calendar, xs: seq<Sample>) { forall x :: x in xs ==> Genuine(c, x) }

  lemma {:induction false} RecordsGenuine(c: Calendar, now: int, records: seq<Record>)
    ensures AllGenuine(c, RecordSamples(c, now, records))
    decreases |records|
  {
    if records != [] {
      SampleGenuine(c, now, records[0]);
      RecordsGenuine(c, now, records[1..]);
    }
  }

  lemma {:induction false} ScopesGenuine(c: Calendar, now: int, scopes: seq<seq<Record>>)
    ensures AllGenuine(c, ScopeSamples(c, now, scopes))
    decreases |scopes|
  {
    if scopes != [] {
      RecordsGenuine(c, now, scopes[0]);
      ScopesGenuine(c, now, scopes[1..]);
    }
  }

  lemma {:induction false} BatchGenuine(c: Calendar, now: int, batch: Batch)
    ensures AllGenuine(c, BatchSamples(c, now, batch))
    decreases |batch|
  {
    if batch != [] {
      ScopesGenuine(c, now, batch[0]);
      BatchGenuine(c, now, batch[1..]);
    }
  }

  lemma SameCounts(c: Calendar, x: Sample, y: Sample)
    requires CollisionFree(c.sha) && Genuine(c, x) && Genuine(c, y) && x.id == y.id
    ensures x.input == y.input && x.cached == y.cached && x.output == y.output && x.reasoning == y.reasoning
  {
    var r: Record, now: int :| SampleOf(c, now, r) == Some(x);
    var r': Record, now': int :| SampleOf(c, now', r') == Some(y);
    SampleParts(c, now, r, x);
    SampleParts(c, now', r', y);
    assert SameDigest(c.sha, Identity(r, x.input, x.cached, x.output, x.reasoning),
                      Identity(r', y.input, y.cached, y.output, y.reasoning));
    IdentityFixesCounts(r, x.input, x.cached, x.output, x.reasoning, r', y.input, y.cached, y.output, y.reasoning);
  }

  // ------------------------------------------------------------ commutation

  /** Equal identities come with equal days and totals. */
  ghost predicate Conform(xs: seq<Sample>, ys: seq<Sample>) {
    forall x, y :: x in xs && y in ys && x.id == y.id ==> x.day == y.day && x.total == y.total
  }

  ghost predicate Agree(xs: seq<Sample>, ys: seq<Sample>) {
    forall x, y :: x in xs && y in ys && x.id == y.id ==> x == y
  }

  predicate SameCore(a: Store, b: Store) { a.days == b.days && a.seen.Keys == b.seen.Keys }

  lemma PlusSwap(a: nat, x: nat, y: nat)
    ensures Plus(Plus(a, x), y) == Plus(Plus(a, y), x)
  {
  }

  lemma AccumulateSwap(days: map<string, UsageDay>, x: Sample, y: Sample)
    ensures Accumulate(Accumulate(days, x), y) == Accumulate(Accumulate(days, y), x)
  {
    if x.day == y.day {
      var u := if x.day in days then days[x.day] else UsageDay(x.day, 0, 0, 0, 0, 0);
      PlusSwap(u.input, x.input, y.input);
      PlusSwap(u.cached, x.cached, y.cached);
      PlusSwap(u.output, x.output, y.output);
      PlusSwap(u.reasoning, x.reasoning, y.reasoning);
      PlusSwap(u.total, x.total, y.total);
    }
  }

  lemma AddSwap(store: Store, x: Sample, y: Sample, now: int)
    requires x.id == y.id ==> x == y
    ensures SameCore(Add(Add(store, x, now), y, now), Add(Add(store, y, now), x, now))
  {
    AccumulateSwap(store.days, x, y);
  }

  /** When samples are added does not matter for the counters. */
  lemma {:induction false} AddAllCongruent(a: Store, b: Store, xs: seq<Sample>, now: int, later: int)
    requires SameCore(a, b)
    ensures SameCore(AddAll(a, xs, now), AddAll(b, xs, later))
    decreases |xs|
  {
    if xs != [] {
      AddAllCongruent(Add(a, xs[0], now), Add(b, xs[0], later), xs[1..], now, later);
    }
  }

  lemma {:induction false} AddPast(store: Store, x: Sample, ys: seq<Sample>, now: int)
    requires Agree([x], ys)
    ensures SameCore(AddAll(Add(store, x, now), ys, now), Add(AddAll(store, ys, now), x, now))
    decreases |ys|
  {
    if ys != [] {
      assert x in [x] && ys[0] in ys;
      AddSwap(store, x, ys[0], now);
      AddAllCongruent(Add(Add(store, x, now), ys[0], now), Add(Add(store, ys[0], now), x, now), ys[1..], now, now);
      AddPast(Add(store, ys[0], now), x, ys[1..], now);
    }
  }

  lemma {:induction false} AllSwap(store: Store, xs: seq<Sample>, ys: seq<Sample>, now: int)
    requires Agree(xs, ys)
    ensures SameCore(AddAll(AddAll(store, xs, now), ys, now), AddAll(AddAll(store, ys, now), xs, now))
    decreases |xs|
  {
    if xs != [] {
      assert Agree([xs[0]], ys);
      AllSwap(Add(store, xs[0], now), xs[1..], ys, now);
      AddPast(store, xs[0], ys, now);
      AddAllCongruent(AddAll(Add(store, xs[0], now), ys, now), Add(AddAll(store, ys, now), xs[0], now), xs[1..],
                      now, now);
    }
  }

  lemma ConformAgree(c: Calendar, xs: seq<Sample>, ys: seq<Sample>)
    requires CollisionFree(c.sha) && AllGenuine(c, xs) && AllGenuine(c, ys) && Conform(xs, ys)
    ensures Agree(xs, ys)
  {
    forall x, y | x in xs && y in ys && x.id == y.id ensures x == y {
      SameCounts(c, x, y);
    }
  }

  /** The same samples but for their days. */
  ghost predicate Redated(xs: seq<Sample>, ys: seq<Sample>) {
    |xs| == |ys| && forall i :: 0 <= i < |xs| ==> ys[i] == xs[i].(day := ys[i].day)
  }

  lemma RedatedAppend(a: seq<Sample>, b: seq<Sample>, a': seq<Sample>, b': seq<Sample>)
    requires Redated(a, a') && Redated(b, b')
    ensures Redated(a + b, a' + b')
  {
  }

  lemma {:induction false} RecordsRedated(c: Calendar, now: int, later: int, records: seq<Record>)
    ensures Redated(RecordSamples(c, now, records), RecordSamples(c, later, records))
    decreases |records|
  {
    if records != [] {
      RecordsRedated(c, now, later, records[1..]);
      var x, y := SampleOf(c, now, records[0]), SampleOf(c, later, records[0]);
      RedatedAppend(if x.Some? then [x.value] else [], RecordSamples(c, now, records[1..]),
                    if y.Some? then [y.value] else [], RecordSamples(c, later, records[1..]));
    }
  }

  lemma {:induction false} ScopesRedated(c: Calendar, now: int, later: int, scopes: seq<seq<Record>>)
    ensures Redated(ScopeSamples(c, now, scopes), ScopeSamples(c, later, scopes))
    decreases |scopes|
  {
    if scopes != [] {
      RecordsRedated(c, now, later, scopes[0]);
      ScopesRedated(c, now, later, scopes[1..]);
      RedatedAppend(RecordSamples(c, now, scopes[0]), ScopeSamples(c, now, scopes[1..]),
                    RecordSamples(c, later, scopes[0]), ScopeSamples(c, later, scopes[1..]));
    }
  }

  lemma {:induction false} BatchRedated(c: Calendar, now: int, later: int, batch: Batch)
    ensures Redated(BatchSamples(c, now, batch), BatchSamples(c, later, batch))
    decreases |batch|
  {
    if batch != [] {
      ScopesRedated(c, now, later, batch[0]);
      BatchRedated(c, now, later, batch[1..]);
      RedatedAppend(ScopeSamples(c, now, batch[0]), BatchSamples(c, now, batch[1..]),
                    ScopeSamples(c, later, batch[0]), BatchSamples(c, later, batch[1..]));
    }
  }

  lemma SameDays(xs: seq<Sample>, ys: seq<Sample>)
    requires Redated(xs, ys) && Conform(xs, ys)
    ensures xs == ys
  {
    forall i | 0 <= i < |xs| ensures xs[i] == ys[i] {
      assert xs[i] in xs && ys[i] in ys;
    }
  }

  /** Nothing that is remembered at `now`, and nothing counted then, is forgotten by `later`. */
  ghost predicate NoneExpires(c: Calendar, store: Store, now: int, later: int) {
    && now / NANOS >= Cutoff(c, later)
    && forall id :: id in store.seen && store.seen[id] >= Cutoff(c, now) ==> store.seen[id] >= Cutoff(c, later)
  }

  lemma KeptMeanwhile(c: Calendar, store: Store, xs: seq<Sample>, now: int, later: int)
    requires NoneExpires(c, store, now, later)
    ensures var s := AddAll(Purged(store, Cutoff(c, now)), xs, now); Purged(s, Cutoff(c, later)) == s
  {
    AllSeen(Purged(store, Cutoff(c, now)), xs, now);
  }

  lemma TwoArrivals(c: Calendar, store: Store, a: Batch, b: Batch, now: int, later: int)
    requires NoneExpires(c, store, now, later)
    ensures Ingested(c, Ingested(c, store, a, now), b, later)
      == AddAll(AddAll(Purged(store, Cutoff(c, now)), BatchSamples(c, now, a), now), BatchSamples(c, later, b), later)
  {
    KeptMeanwhile(c, store, BatchSamples(c, now, a), now, later);
  }

  /** Two batches that arrive at two times give the same counters in either order, if no identity expires in
      between and equal identities come with equal days and totals, whichever batch and time they come from. */
  lemma BatchesCommute(c: Calendar, store: Store, a: Batch, b: Batch, now: int, later: int)
    requires CollisionFree(c.sha) && NoneExpires(c, store, now, later)
    requires Conform(BatchSamples(c, now, a) + BatchSamples(c, now, b),
                     BatchSamples(c, later, a) + BatchSamples(c, later, b))
    ensures SameCore(Ingested(c, Ingested(c, store, a, now), b, later),
                     Ingested(c, Ingested(c, store, b, now), a, later))
  {
    var xs, ys, s := BatchSamples(c, now, a), BatchSamples(c, now, b), Purged(store, Cutoff(c, now));
    var xs', ys' := BatchSamples(c, later, a), BatchSamples(c, later, b);
    BatchRedated(c, now, later, a);
    BatchRedated(c, now, later, b);
    assert Conform(xs, xs') && Conform(ys, ys') && Conform(xs, ys') by { ConformParts(xs, ys, xs', ys'); }
    SameDays(xs, xs');
    SameDays(ys, ys');
    BatchGenuine(c, now, a);
    BatchGenuine(c, now, b);
    ConformAgree(c, xs, ys);
    TwoArrivals(c, store, a, b, now, later);
    TwoArrivals(c, store, b, a, now, later);
    SwapTimes(s, xs, ys, now, later);
  }

  lemma ConformParts(xs: seq<Sample>, ys: seq<Sample>, xs': seq<Sample>, ys': seq<Sample>)
    requires Conform(xs + ys, xs' + ys')
    ensures Conform(xs, xs') && Conform(ys, ys') && Conform(xs, ys')
  {
    forall x, y | x in xs + ys && y in xs' + ys' && x.id == y.id ensures x.day == y.day && x.total == y.total {
    }
  }

  lemma SwapTimes(s: Store, xs: seq<Sample>, ys: seq<Sample>, now: int, later: int)
    requires Agree(xs, ys)
    ensures SameCore(AddAll(AddAll(s, xs, now), ys, later), AddAll(AddAll(s, ys, now), xs, later))
  {
    AllSwap(s, xs, ys, now);
    AddAllCongruent(AddAll(s, xs, now), AddAll(s, xs, now), ys, now, later);
    AddAllCongruent(AddAll(s, ys, now), AddAll(s, ys, now), xs, now, later);
  }

  lemma PlusInjective(a: nat, x: nat, y: nat)
    requires a < UINT64 && x < UINT64 && y < UINT64 && Plus(a, x) == Plus(a, y)
    ensures x == y
  {
  }

  lemma PlusMoves(a: nat, x: nat)
    requires a < UINT64 && 0 < x < UINT64
    ensures Plus(a, x) != a
  {
  }

  /** Two samples of one identity move the counters alike exactly if their days and totals agree. */
  lemma CountedAlike(c: Calendar, days: map<string, UsageDay>, x: Sample, y: Sample)
    requires CollisionFree(c.sha) && Genuine(c, x) && Genuine(c, y) && x.id == y.id
    requires Reading(days, x.day, TotalTokens) < UINT64 && 0 < x.total < UINT64 && y.total < UINT64
    ensures Accumulate(days, x) == Accumulate(days, y) <==> x.day == y.day && x.total == y.total
  {
    SameCounts(c, x, y);
    var p, q := Accumulate(days, x), Accumulate(days, y);
    var t := Reading(days, x.day, TotalTokens);
    PlusMoves(t, x.total);
    assert p[x.day].total == Plus(t, x.total);
    assert x.day != y.day ==> (x.day in q <==> x.day in days) && (x.day in q ==> q[x.day].total == t);
    if p == q { PlusInjective(t, x.total, y.total); }
  }

  /** Of two records with one identity only the first to arrive counts. */
  lemma FirstCounts(c: Calendar, store: Store, r: Record, q: Record, now: int, later: int, x: Sample, y: Sample)
    requires SampleOf(c, now, r) == Some(x) && SampleOf(c, later, q) == Some(y) && x.id == y.id && x.id !in store.seen
    requires now / NANOS >= Cutoff(c, later)
    ensures Ingested(c, Ingested(c, store, One(r), now), One(q), later).days == Accumulate(store.days, x)
  {
    OneAdded(c, store, now, r, x);
    OneAdded(c, Ingested(c, store, One(r), now), later, q, y);
  }

  /** Of two records with one identity the order of arrival is immaterial exactly when the one that arrives first
      has the same day and total in both orders.  With `r == q` and two times this is a record without a time
      of its own, delivered before or after midnight. */
  lemma OrderMatters(c: Calendar, store: Store, r: Record, q: Record, now: int, later: int, now': int, later': int,
                     x: Sample, y: Sample)
    requires CollisionFree(c.sha) && x.id !in store.seen && Reading(store.days, x.day, TotalTokens) < UINT64
    requires SampleOf(c, now, r) == Some(x) && SampleOf(c, now', q) == Some(y) && x.id == y.id
    requires now / NANOS >= Cutoff(c, later) && now' / NANOS >= Cutoff(c, later')
    ensures Ingested(c, Ingested(c, store, One(r), now), One(q), later).days
         == Ingested(c, Ingested(c, store, One(q), now'), One(r), later').days
      <==> x.day == y.day && x.total == y.total
  {
    SameId(c, now, later', r);
    SameId(c, now', later, q);
    FirstCounts(c, store, r, q, now, later, x, SampleOf(c, later, q).value);
    FirstCounts(c, store, q, r, now', later', y, SampleOf(c, later', r).value);
    SampleGenuine(c, now, r);
    SampleGenuine(c, now', q);
    SampleParts(c, now, r, x);
    SampleParts(c, now', q, y);
    CountedAlike(c, store.days, x, y);
  }

  /** A completed response that reports nothing but its tool tokens. */
  function ToolRecord(tokens: JsonNumber): Record {
    Record("1", "trace", "span",
           [Attribute("event.name", map["stringValue" := Text("codex.sse_event")]),
            Attribute("event.kind", map["stringValue" := Text("response.completed")]),
            Attribute("tool_token_count", map["doubleValue" := Number(tokens)])])
  }

  lemma ToolAttributes(tokens: JsonNumber)
    ensures AttributesOf(ToolRecord(tokens).attributes)
      == map["event.name" := Some(Text("codex.sse_event")), "event.kind" := Some(Text("response.completed")),
             "tool_token_count" := Some(Number(tokens))]
  {
    var l := ToolRecord(tokens).attributes;
    assert |"stringValue"| == 11 && |"intValue"| == 8 && |"doubleValue"| == 11 && "stringValue"[0] != "doubleValue"[0];
    assert l[..2][..1] == l[..1] && l[..1][..0] == [];
    assert AttributesOf(l[..1]) == map["event.name" := Some(Text("codex.sse_event"))];
    assert AttributesOf(l[..2])
        == map["event.name" := Some(Text("codex.sse_event")), "event.kind" := Some(Text("response.completed"))];
  }

  lemma ToolSample(c: Calendar, now: int, tokens: JsonNumber)
    requires tokens >= 1.0
    ensures SampleOf(c, now, ToolRecord(tokens)).Some?
    ensures var x := SampleOf(c, now, ToolRecord(tokens)).value;
      x.total == tokens.Floor && x.id == c.sha(Identity(ToolRecord(tokens), 0, 0, 0, 0))
  {
    ToolAttributes(tokens);
    ToolKeys();
  }

  lemma ToolKeys()
    ensures "input_token_count" !in {"event.name", "event.kind", "tool_token_count"}
    ensures "cached_token_count" !in {"event.name", "event.kind", "tool_token_count"}
    ensures "output_token_count" !in {"event.name", "event.kind", "tool_token_count"}
    ensures "reasoning_token_count" !in {"event.name", "event.kind", "tool_token_count"}
  {
    assert |"input_token_count"| == 17 && |"cached_token_count"| == 18 && |"output_token_count"| == 18;
    assert |"reasoning_token_count"| == 21 && |"event.name"| == 10 && |"event.kind"| == 10
      && |"tool_token_count"| == 16;
  }

  /** Two records that differ only in their tool tokens have one identity, and the first to arrive decides. */
  lemma TotalsDisagree(c: Calendar, store: Store, now: int)
    requires CollisionFree(c.sha) && c.retention >= 0
    requires SampleOf(c, now, ToolRecord(1.0)).Some? ==> SampleOf(c, now, ToolRecord(1.0)).value.id !in store.seen
    requires forall day :: Reading(store.days, day, TotalTokens) < UINT64
    ensures Ingested(c, Ingested(c, store, One(ToolRecord(1.0)), now), One(ToolRecord(2.0)), now).days
         != Ingested(c, Ingested(c, store, One(ToolRecord(2.0)), now), One(ToolRecord(1.0)), now).days
  {
    var r, q := ToolRecord(1.0), ToolRecord(2.0);
    ToolSample(c, now, 1.0);
    ToolSample(c, now, 2.0);
    assert 1.0.Floor == 1 && 2.0.Floor == 2;
    OrderMatters(c, store, r, q, now, now, now, now, SampleOf(c, now, r).value, SampleOf(c, now, q).value);
  }

  // ------------------------------------------------------------ the store only grows

  /** Every day is filed under its own date. */
  ghost predicate Keyed(days: map<string, UsageDay>) { forall date :: date in days ==> days[date].date == date }

  lemma {:induction false} DaysGrow(store: Store, xs: seq<Sample>, now: int)
    ensures store.days.Keys <= AddAll(store, xs, now).days.Keys
    ensures Keyed(store.days) ==> Keyed(AddAll(store, xs, now).days)
    decreases |xs|
  {
    if xs != [] { DaysGrow(Add(store, xs[0], now), xs[1..], now); }
  }
}
