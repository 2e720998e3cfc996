/** Small vocabulary shared by every module: options, the byte order used by
    Go's sort.Strings and Python's sort_keys, and sorted enumerations of sets. */
module Prelude {

  datatype Option<+T> = None | Some(value: T)

  lemma Regroup<T>(a: seq<T>, b: seq<T>, c: seq<T>)
    ensures a + (b + c) == a + b + c
  {
  }

  /** Lexicographic order on code points.  It coincides with the order of the
      UTF-8 encodings, which is what Go compares. */
  predicate LexLeq(a: string, b: string) {
    a == [] || (b != [] && (a[0] < b[0] || (a[0] == b[0] && LexLeq(a[1..], b[1..]))))
  }

  lemma {:induction false} LexTotal(a: string, b: string)
    ensures LexLeq(a, b) || LexLeq(b, a)
  {
    if a != [] && b != [] && a[0] == b[0] {
      LexTotal(a[1..], b[1..]);
    }
  }

  lemma {:induction false} LexAntisymmetric(a: string, b: string)
    requires LexLeq(a, b) && LexLeq(b, a)
    ensures a == b
  {
    if a != [] && b != [] {
      LexAntisymmetric(a[1..], b[1..]);
    }
  }

  lemma {:induction false} LexTransitive(a: string, b: string, c: string)
    requires LexLeq(a, b) && LexLeq(b, c)
    ensures LexLeq(a, c)
  {
    if a != [] && a[0] == b[0] && b[0] == c[0] {
      LexTransitive(a[1..], b[1..], c[1..]);
    }
  }

  /** `LexLess(a, b)` is the strict order used by the sorts. */
  predicate LexLess(a: string, b: string) {
    a != b && LexLeq(a, b)
  }

  /** `a` comes before `b`, and position `k` shows it: they agree up to there, and there `a` ends or has the
      smaller character. */
  predicate Precedes(a: string, b: string, k: nat) {
    && k <= |a| && k < |b| && a[..k] == b[..k]
    && (k == |a| || a[k] < b[k])
  }

  ghost predicate ComesBefore(a: string, b: string) { exists k: nat :: Precedes(a, b, k) }

  lemma {:induction false} LexShown(a: string, b: string) returns (k: nat)
    requires LexLess(a, b)
    ensures Precedes(a, b, k)
  {
    if a == [] || a[0] < b[0] {
      k := 0;
    } else {
      var n := LexShown(a[1..], b[1..]);
      k := n + 1;
      assert a[..k] == [a[0]] + a[1..][..n] && b[..k] == [b[0]] + b[1..][..n];
    }
  }

  lemma {:induction false} PrecedesLess(a: string, b: string, k: nat)
    requires Precedes(a, b, k)
    ensures LexLess(a, b)
  {
    if k > 0 {
      assert a[0] == a[..k][0] && b[0] == b[..k][0];
      assert a[1..][..k - 1] == a[..k][1..] && b[1..][..k - 1] == b[..k][1..];
      PrecedesLess(a[1..], b[1..], k - 1);
    }
  }

  /** The order of the sorts is the one of dictionaries: a text comes before its own extensions, and otherwise
      the first difference decides. */
  lemma LexExactly(a: string, b: string)
    ensures LexLess(a, b) <==> ComesBefore(a, b)
  {
    if LexLess(a, b) { var k := LexShown(a, b); }
    if k: nat :| Precedes(a, b, k) { PrecedesLess(a, b, k); }
  }

  ghost predicate Ascending(keys: seq<string>) {
    forall i, j :: 0 <= i < j < |keys| ==> LexLess(keys[i], keys[j])
  }

  /** `xs` lists every element of `s` exactly once, in some order. */
  ghost predicate Enumerates<T(!new)>(xs: seq<T>, s: set<T>) {
    && (forall i, j :: 0 <= i < j < |xs| ==> xs[i] != xs[j])
    && (forall x :: x in xs <==> x in s)
  }

  /** The order in which keys are collected is irrelevant once they are sorted. */
  lemma {:induction false} AscendingUnique(a: seq<string>, b: seq<string>)
    requires Ascending(a) && Ascending(b)
    requires forall x :: x in a <==> x in b
    ensures a == b
  {
    if a == [] {
      assert forall k :: 0 <= k < |b| ==> b[k] in b;
    } else {
      assert a[0] in b && b[0] in a;
      var i :| 0 <= i < |b| && b[i] == a[0];
      var j :| 0 <= j < |a| && a[j] == b[0];
      if i != 0 {
        assert LexLess(b[0], a[0]);
        assert j != 0 && LexLess(a[0], b[0]);
        LexAntisymmetric(a[0], b[0]);
        assert false;
      }
      forall x ensures x in a[1..] <==> x in b[1..] {
        if x in a[1..] {
          var k :| 1 <= k < |a| && a[k] == x;
          assert x != a[0];
          assert x in b;
        }
        if x in b[1..] {
          var k :| 1 <= k < |b| && b[k] == x;
          assert x != b[0];
          assert x in a;
        }
      }
      AscendingUnique(a[1..], b[1..]);
    }
  }

  ghost predicate IsLeast(m: string, s: set<string>) {
    m in s && forall x :: x in s ==> LexLeq(m, x)
  }

  lemma LeastOfTwo(m: string, y: string, rest: set<string>) returns (least: string)
    requires IsLeast(m, rest)
    ensures IsLeast(least, rest + {y})
  {
    LexTotal(m, y);
    LexTotal(y, y);
    least := if LexLeq(y, m) then y else m;
    forall x | x in rest ensures LexLeq(least, x) {
      if least == y { LexTransitive(y, m, x); }
    }
  }

  lemma {:induction false} LeastExists(s: set<string>) returns (least: string)
    requires s != {}
    ensures IsLeast(least, s)
  {
    var y :| y in s;
    if s - {y} == {} {
      LexTotal(y, y);
      assert s == {y};
      least := y;
    } else {
      var m := LeastExists(s - {y});
      least := LeastOfTwo(m, y, s - {y});
      assert s - {y} + {y} == s;
    }
  }

  lemma SomeLeast(s: set<string>)
    requires s != {}
    ensures exists m :: IsLeast(m, s)
  {
    var m := LeastExists(s);
  }

  /** The ascending enumeration of a finite set of keys. */
  ghost function Sorted(s: set<string>): (r: seq<string>)
    ensures Ascending(r)
    ensures forall x :: x in r <==> x in s
  {
    if s == {} then [] else
      SomeLeast(s);
      var m :| IsLeast(m, s);
      [m] + Sorted(s - {m})
  }

  /** Map keys in an arbitrary order, as Go ranges over them. */
  method Shuffle<V>(m: map<string, V>) returns (keys: seq<string>)
    ensures Enumerates(keys, m.Keys)
  {
    keys := [];
    var rest := m.Keys;
    while rest != {}
      invariant rest <= m.Keys
      invariant Enumerates(keys, m.Keys - rest)
      decreases |rest|
    {
      var k :| k in rest;
      keys, rest := keys + [k], rest - {k};
    }
  }

  /** Where `key` goes in an ascending sequence. */
  method Position(r: seq<string>, key: string) returns (at: nat)
    requires Ascending(r) && key !in r
    ensures at <= |r|
    ensures forall k :: 0 <= k < at ==> LexLess(r[k], key)
    ensures forall k :: at <= k < |r| ==> LexLess(key, r[k])
  {
    at := 0;
    while at < |r| && LexLeq(r[at], key)
      invariant 0 <= at <= |r|
      invariant forall k :: 0 <= k < at ==> LexLess(r[k], key)
    {
      at := at + 1;
    }
    forall k | at <= k < |r| ensures LexLess(key, r[k]) {
      LexTotal(r[at], key);
      if k > at { LexTransitive(key, r[at], r[k]); }
    }
  }

  lemma Inserted(r: seq<string>, key: string, at: nat)
    requires Ascending(r) && at <= |r|
    requires forall k :: 0 <= k < at ==> LexLess(r[k], key)
    requires forall k :: at <= k < |r| ==> LexLess(key, r[k])
    ensures Ascending(r[..at] + [key] + r[at..])
    ensures forall x :: x in r[..at] + [key] + r[at..] <==> x in r || x == key
  {
    assert r == r[..at] + r[at..];
    forall x ensures x in r[..at] + [key] + r[at..] <==> x in r || x == key {
      assert x in r[..at] + [key] + r[at..] <==> x in r[..at] || x == key || x in r[at..];
    }
  }

  /** Insertion sort standing for the library call sort.Strings. */
  method SortStrings(keys: seq<string>) returns (r: seq<string>)
    requires forall i, j :: 0 <= i < j < |keys| ==> keys[i] != keys[j]
    ensures Ascending(r)
    ensures forall x :: x in r <==> x in keys
    ensures forall i, j :: 0 <= i < j < |r| ==> ComesBefore(r[i], r[j])
  {
    r := [];
    for i := 0 to |keys|
      invariant Ascending(r)
      invariant forall x :: x in r <==> x in keys[..i]
    {
      var at := Position(r, keys[i]);
      Inserted(r, keys[i], at);
      r := r[..at] + [keys[i]] + r[at..];
      assert keys[..i + 1] == keys[..i] + [keys[i]];
    }
    assert keys[..|keys|] == keys;
    forall i, j | 0 <= i < j < |r| ensures ComesBefore(r[i], r[j]) {
      LexExactly(r[i], r[j]);
    }
  }

  predicate OneLine(s: string) { '\n' !in s }

  predicate IsPrefix<T(==)>(a: seq<T>, b: seq<T>) {
    |a| <= |b| && b[..|a|] == a
  }
}
