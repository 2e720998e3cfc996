/** The sliding-window limit on API requests: a queue of accepted times for each client. */
module RateLimit {
  import opened Prelude

  const WINDOW := 60.0
  const LIMIT := 300

  type Windows = map<string, seq<real>>

  function WindowOf(windows: Windows, key: string): seq<real> {
    if key in windows then windows[key] else []
  }

  /** Drops the leading times before `cut`. */
  function Trim(q: seq<real>, cut: real): seq<real> {
    if q == [] || q[0] >= cut then q else Trim(q[1..], cut)
  }

  predicate Admits(windows: Windows, key: string, now: real) {
    |Trim(WindowOf(windows, key), now - WINDOW)| < LIMIT
  }

  function Next(windows: Windows, key: string, now: real): Windows {
    var q := Trim(WindowOf(windows, key), now - WINDOW);
    windows[key := if |q| < LIMIT then q + [now] else q]
  }

  class Limiter {
    var windows: Windows

    constructor ()
      ensures windows == map[]
    {
      windows := map[];
    }

    method Request(key: string, now: real) returns (ok: bool)
      modifies this
      ensures ok == Admits(old(windows), key, now)
      ensures windows == Next(old(windows), key, now)
    {
      var q := if key in windows then windows[key] else [];
      ghost var all := q;
      while q != [] && q[0] < now - WINDOW
        invariant Trim(q, now - WINDOW) == Trim(all, now - WINDOW)
        decreases |q|
      {
        q := q[1..];
      }
      if |q| >= LIMIT {
        windows := windows[key := q];
        return false;
      }
      q := q + [now];
      windows := windows[key := q];
      return true;
    }
  }

  // ------------------------------------------------------------ runs

  datatype Arrival = Arrival(key: string, now: real)

  function RunWindows(windows: Windows, run: seq<Arrival>): Windows
    decreases |run|
  {
    if run == [] then windows else RunWindows(Next(windows, run[0].key, run[0].now), run[1..])
  }

  /** What one request adds to the accepted times of `key`. */
  function Counted(windows: Windows, a: Arrival, key: string): seq<real> {
    if a.key == key && Admits(windows, key, a.now) then [a.now] else []
  }

  /** The times at which requests of one client were accepted. */
  function Accepted(windows: Windows, run: seq<Arrival>, key: string): seq<real>
    decreases |run|
  {
    if run == [] then []
    else Counted(windows, run[0], key) + Accepted(Next(windows, run[0].key, run[0].now), run[1..], key)
  }

  ghost predicate Monotone(run: seq<Arrival>, t: real)
    decreases |run|
  {
    run == [] || (t <= run[0].now && Monotone(run[1..], run[0].now))
  }

  ghost predicate Ordered(l: seq<real>) {
    forall i, j :: 0 <= i < j < |l| ==> l[i] <= l[j]
  }

  /** Any 301 accepted requests in a row take more than a minute. */
  ghost predicate Spread(l: seq<real>) {
    forall i, j :: 0 <= i && i + LIMIT <= j < |l| ==> l[j] > l[i] + WINDOW
  }

  /** The queue is the part of the accepted times that may still matter at time `t`. */
  ghost predicate Tracks(q: seq<real>, l: seq<real>, t: real) {
    && |q| <= LIMIT && |q| <= |l| && q == l[|l| - |q|..]
    && (forall i :: 0 <= i < |l| ==> l[i] <= t)
    && (forall i :: 0 <= i < |l| - |q| ==> l[i] < t - WINDOW)
  }

  ghost predicate Since(q: seq<real>, cut: real) {
    forall i :: 0 <= i < |q| ==> q[i] >= cut
  }

  lemma {:induction false} TrimTracks(q: seq<real>, l: seq<real>, t: real)
    requires Tracks(q, l, t) && Ordered(l)
    ensures Tracks(Trim(q, t - WINDOW), l, t) && Since(Trim(q, t - WINDOW), t - WINDOW)
    decreases |q|
  {
    if q != [] && q[0] < t - WINDOW {
      assert q[1..] == l[|l| - |q[1..]|..];
      TrimTracks(q[1..], l, t);
    } else if q != [] {
      forall i | 0 <= i < |q| ensures q[i] >= t - WINDOW {
        assert q[i] == l[|l| - |q| + i] && q[0] == l[|l| - |q|];
      }
    }
  }

  lemma AcceptTracks(q: seq<real>, l: seq<real>, now: real)
    requires Tracks(q, l, now) && Ordered(l) && Spread(l) && |q| < LIMIT
    ensures Tracks(q + [now], l + [now], now) && Ordered(l + [now]) && Spread(l + [now])
  {
    var longer := l + [now];
    assert q + [now] == longer[|longer| - |q + [now]|..];
  }

  /** `l` lists the accepted times of `key` up to `t`, and the windows agree with it. */
  ghost predicate Sound(windows: Windows, key: string, l: seq<real>, t: real) {
    Tracks(WindowOf(windows, key), l, t) && Ordered(l) && Spread(l)
  }

  lemma OwnRequest(windows: Windows, key: string, l: seq<real>, t: real, now: real)
    requires Sound(windows, key, l, t) && t <= now
    ensures Sound(Next(windows, key, now), key, if Admits(windows, key, now) then l + [now] else l, now)
  {
    var q := WindowOf(windows, key);
    assert Tracks(q, l, now);
    TrimTracks(q, l, now);
    if Admits(windows, key, now) { AcceptTracks(Trim(q, now - WINDOW), l, now); }
  }

  lemma StepSound(windows: Windows, key: string, l: seq<real>, t: real, a: Arrival, longer: seq<real>)
    requires Sound(windows, key, l, t) && t <= a.now && longer == l + Counted(windows, a, key)
    ensures Sound(Next(windows, a.key, a.now), key, longer, a.now)
  {
    assert l + [] == l;
    if a.key == key {
      OwnRequest(windows, key, l, t, a.now);
    } else {
      assert WindowOf(Next(windows, a.key, a.now), key) == WindowOf(windows, key);
    }
  }

  lemma AcceptedStep(windows: Windows, run: seq<Arrival>, key: string)
    requires run != []
    ensures Accepted(windows, run, key)
      == Counted(windows, run[0], key) + Accepted(Next(windows, run[0].key, run[0].now), run[1..], key)
  {
  }

  function LastTime(run: seq<Arrival>, t: real): real {
    if run == [] then t else run[|run| - 1].now
  }

  lemma {:induction false} RunSound(windows: Windows, run: seq<Arrival>, key: string, l: seq<real>, t: real,
                                    whole: seq<real>)
    requires Sound(windows, key, l, t) && Monotone(run, t) && whole == l + Accepted(windows, run, key)
    ensures Sound(RunWindows(windows, run), key, whole, LastTime(run, t))
    decreases |run|
  {
    if run == [] {
      assert whole == l;
    } else {
      var longer := l + Counted(windows, run[0], key);
      StepSound(windows, key, l, t, run[0], longer);
      AcceptedStep(windows, run, key);
      Regroup(l, Counted(windows, run[0], key), Accepted(Next(windows, run[0].key, run[0].now), run[1..], key));
      RunSound(Next(windows, run[0].key, run[0].now), run[1..], key, longer, run[0].now, whole);
    }
  }

  lemma StartSound(run: seq<Arrival>, key: string, t: real, l: seq<real>)
    requires Monotone(run, t) && l == Accepted(map[], run, key)
    ensures Sound(RunWindows(map[], run), key, l, LastTime(run, t))
  {
    assert Sound(map[], key, [], t);
    assert l == [] + l;
    RunSound(map[], run, key, [], t, l);
  }

  // ------------------------------------------------------------ the limit

  /** How many accepted times lie in the closed interval from `t` to `u`. */
  function Within(l: seq<real>, t: real, u: real): nat {
    if l == [] then 0
    else Within(l[..|l| - 1], t, u) + (if t <= l[|l| - 1] <= u then 1 else 0)
  }

  lemma {:induction false} WithinFrom(l: seq<real>, t: real, u: real, k: nat)
    requires k <= |l| && forall i :: 0 <= i < k ==> !(t <= l[i] <= u)
    ensures Within(l, t, u) <= |l| - k
    ensures (forall i :: k <= i < |l| ==> t <= l[i] <= u) ==> Within(l, t, u) == |l| - k
    decreases |l|
  {
    if l != [] {
      var front := l[..|l| - 1];
      WithinFrom(front, t, u, if k < |l| then k else k - 1);
    }
  }

  lemma {:induction false} SpreadLimit(l: seq<real>, t: real)
    requires Spread(l)
    ensures Within(l, t, t + WINDOW) <= LIMIT
    decreases |l|
  {
    if |l| > LIMIT {
      var last := l[|l| - 1];
      if t <= last <= t + WINDOW {
        WithinFrom(l, t, t + WINDOW, |l| - LIMIT);
      } else {
        SpreadLimit(l[..|l| - 1], t);
      }
    } else {
      WithinFrom(l, t, t + WINDOW, 0);
    }
  }

  /** Over any run with a clock that does not go back, no client has more than 300 accepted requests in any
      closed interval of 60 seconds. */
  lemma AtMostLimit(run: seq<Arrival>, key: string, start: real, l: seq<real>, t: real)
    requires Monotone(run, start) && l == Accepted(map[], run, key)
    ensures Within(l, t, t + 60.0) <= 300
  {
    StartSound(run, key, start, l);
    SpreadLimit(l, t);
  }

  lemma TrackedSize(q: seq<real>, l: seq<real>, now: real)
    requires Tracks(q, l, now) && Since(q, now - WINDOW)
    ensures Within(l, now - WINDOW, now) == |q|
  {
    var from := |l| - |q|;
    forall i | from <= i < |l| ensures l[i] >= now - WINDOW {
      assert l[i] == q[i - from];
    }
    WithinFrom(l, now - WINDOW, now, from);
  }

  /** A request is refused exactly when 300 were accepted for its client in the last 60 seconds. */
  lemma RefusedExactly(run: seq<Arrival>, key: string, start: real, l: seq<real>, now: real)
    requires Monotone(run, start) && l == Accepted(map[], run, key) && LastTime(run, start) <= now
    ensures !Admits(RunWindows(map[], run), key, now) <==> Within(l, now - 60.0, now) == 300
  {
    StartSound(run, key, start, l);
    var q := WindowOf(RunWindows(map[], run), key);
    assert Tracks(q, l, now);
    TrimTracks(q, l, now);
    TrackedSize(Trim(q, now - WINDOW), l, now);
  }
}
