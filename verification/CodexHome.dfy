/** Local discovery of the Codex home: de-duplication, pinning and the stable choice. */
module CodexHome {
  import opened Prelude
  import Telemetry

  datatype Candidate = Candidate(path: string, source: string)

  /** What a directory holds.  `latest` is 0 when there are no logs. */
  datatype Summary = Summary(logs: nat, latest: nat, config: bool)

  /** `abs` is filepath.Abs with filepath.Clean, `key` is pathKey, and `look` finds a readable directory. */
  datatype Files = Files(abs: string -> string, key: string -> string, look: string -> Option<Summary>)

  datatype Resolution = Resolution(path: string, source: string, logs: nat, latest: nat)

  const CONFIGURED := "configured"

  /** `inspectCodexHome`. */
  function Inspect(fs: Files, c: Candidate): Option<Resolution> {
    var path := fs.abs(c.path);
    match fs.look(path)
    case None => None
    case Some(s) => if s.logs == 0 && !s.config then None else Some(Resolution(path, c.source, s.logs, s.latest))
  }

  predicate IsBlankPath(path: string) { Telemetry.Trim(path) == "" }

  /** The valid candidates; of those with one key only the first is inspected. */
  function Valid(fs: Files, all: seq<Candidate>, seen: set<string>): seq<Resolution>
    decreases |all|
  {
    if all == [] then []
    else if IsBlankPath(all[0].path) || fs.key(all[0].path) in seen then Valid(fs, all[1..], seen)
    else
      var inspected := Inspect(fs, all[0]);
      (if inspected.Some? then [inspected.value] else []) + Valid(fs, all[1..], seen + {fs.key(all[0].path)})
  }

  /** The order of the sort. */
  predicate Before(a: Resolution, b: Resolution) {
    if (a.logs > 0) != (b.logs > 0) then a.logs > 0
    else if a.latest != b.latest then a.latest > b.latest
    else a.source == CONFIGURED
  }

  /** The first of the best. */
  function Best(valid: seq<Resolution>): (r: Resolution)
    requires valid != []
    ensures r in valid
  {
    if |valid| == 1 then valid[0]
    else
      var best, last := Best(valid[..|valid| - 1]), valid[|valid| - 1];
      if Before(last, best) then last else best
  }

  predicate IsPinned(r: Resolution) { r.source == CONFIGURED && r.logs > 0 }

  /** The first pinned home, if any. */
  function Pinned(valid: seq<Resolution>): Option<Resolution> {
    if valid == [] then None else if IsPinned(valid[0]) then Some(valid[0]) else Pinned(valid[1..])
  }

  function AllCandidates(configured: string, candidates: seq<Candidate>): seq<Candidate> {
    [Candidate(configured, CONFIGURED)] + candidates
  }

  /** `resolveCodexHome`. */
  function Resolve(fs: Files, configured: string, candidates: seq<Candidate>): Resolution {
    var valid := Valid(fs, AllCandidates(configured, candidates), {});
    if valid == [] then Resolution(fs.abs(configured), CONFIGURED, 0, 0)
    else
      match Pinned(valid)
      case Some(r) => r
      case None => Best(valid)
  }

  // ------------------------------------------------------------ the code

  method CollectValid(fs: Files, all: seq<Candidate>) returns (valid: seq<Resolution>)
    ensures valid == Valid(fs, all, {})
  {
    valid := [];
    var seen: set<string> := {};
    assert all[0..] == all;
    for i := 0 to |all|
      invariant valid + Valid(fs, all[i..], seen) == Valid(fs, all, {})
    {
      ValidFrom(fs, all, i, seen);
      if IsBlankPath(all[i].path) { continue; }
      var key := fs.key(all[i].path);
      if key in seen { continue; }
      seen := seen + {key};
      var inspected := Inspect(fs, all[i]);
      ghost var one := if inspected.Some? then [inspected.value] else [];
      Regroup(valid, one, Valid(fs, all[i + 1..], seen));
      Nothing(valid);
      if inspected.Some? { valid := valid + [inspected.value]; }
    }
  }

  lemma Nothing<T>(a: seq<T>)
    ensures a + [] == a
  {
  }

  lemma ValidFrom(fs: Files, all: seq<Candidate>, i: nat, seen: set<string>)
    requires i < |all|
    ensures Valid(fs, all[i..], seen)
      == if IsBlankPath(all[i].path) || fs.key(all[i].path) in seen then Valid(fs, all[i + 1..], seen)
         else (if Inspect(fs, all[i]).Some? then [Inspect(fs, all[i]).value] else [])
              + Valid(fs, all[i + 1..], seen + {fs.key(all[i].path)})
  {
    assert all[i..][1..] == all[i + 1..];
  }

  /** The sort's order between homes that are not both the configured one. */
  predicate Outranks(a: Resolution, b: Resolution) {
    if (a.logs > 0) != (b.logs > 0) then a.logs > 0
    else if a.latest != b.latest then a.latest > b.latest
    else a.source == CONFIGURED && b.source != CONFIGURED
  }

  ghost predicate Ranked(homes: seq<Resolution>) {
    forall i, j :: 0 <= i < j < |homes| ==> !Outranks(homes[j], homes[i])
  }

  predicate Ties(a: Resolution, b: Resolution) { !Outranks(a, b) && !Outranks(b, a) }

  /** The homes that rank with `r`, in their order. */
  function Peers(homes: seq<Resolution>, r: Resolution): seq<Resolution> {
    if homes == [] then []
    else Peers(homes[..|homes| - 1], r) + (if Ties(homes[|homes| - 1], r) then [homes[|homes| - 1]] else [])
  }

  /** Sorting kept the order among homes of one rank. */
  ghost predicate Stable(homes: seq<Resolution>, sorted: seq<Resolution>) {
    forall r :: Peers(sorted, r) == Peers(homes, r)
  }

  lemma {:induction false} PeersAppend(a: seq<Resolution>, b: seq<Resolution>, r: Resolution)
    ensures Peers(a + b, r) == Peers(a, r) + Peers(b, r)
    decreases |b|
  {
    if b == [] {
      assert a + b == a;
    } else {
      var front := b[..|b| - 1];
      assert (a + b)[..|a + b| - 1] == a + front && (a + b)[|a + b| - 1] == b[|b| - 1];
      PeersAppend(a, front, r);
    }
  }

  lemma {:induction false} NoPeers(homes: seq<Resolution>, r: Resolution)
    requires forall k :: 0 <= k < |homes| ==> !Ties(homes[k], r)
    ensures Peers(homes, r) == []
  {
    if homes != [] { NoPeers(homes[..|homes| - 1], r); }
  }

  lemma OnePeer(home: Resolution, r: Resolution)
    ensures Peers([home], r) == if Ties(home, r) then [home] else []
  {
    assert [home][..0] == [];
  }

  lemma OutrankedNoTie(home: Resolution, x: Resolution, r: Resolution)
    requires Outranks(home, x) && Ties(home, r)
    ensures !Ties(x, r)
  {
  }

  lemma SwapEmpty<T>(a: seq<T>, b: seq<T>, c: seq<T>)
    requires b == [] || c == []
    ensures a + b + c == a + c + b
  {
  }

  lemma ThreePeers(a: seq<Resolution>, b: seq<Resolution>, c: seq<Resolution>, r: Resolution)
    ensures Peers(a + b + c, r) == Peers(a, r) + Peers(b, r) + Peers(c, r)
    ensures Peers(a + c, r) == Peers(a, r) + Peers(c, r)
  {
    PeersAppend(a + b, c, r);
    PeersAppend(a, b, r);
    PeersAppend(a, c, r);
  }

  /** A home that moves left past homes it outranks stays behind its peers. */
  lemma InsertedStable(left: seq<Resolution>, home: Resolution, right: seq<Resolution>)
    requires forall k :: 0 <= k < |right| ==> Outranks(home, right[k])
    ensures AddsPeer(left + right, left + [home] + right, home)
  {
    forall r ensures Peers(left + [home] + right, r) == Peers(left + right, r) + Peers([home], r) {
      ThreePeers(left, [home], right, r);
      RightPeers(right, home, r);
      SwapEmpty(Peers(left, r), Peers([home], r), Peers(right, r));
    }
  }

  lemma RightPeers(right: seq<Resolution>, home: Resolution, r: Resolution)
    requires forall k :: 0 <= k < |right| ==> Outranks(home, right[k])
    ensures Peers([home], r) == [] || Peers(right, r) == []
  {
    OnePeer(home, r);
    if Ties(home, r) {
      forall k | 0 <= k < |right| ensures !Ties(right[k], r) {
        OutrankedNoTie(home, right[k], r);
      }
      NoPeers(right, r);
    }
  }

  /** `longer` has `home` behind its peers in `sorted`. */
  ghost predicate AddsPeer(sorted: seq<Resolution>, longer: seq<Resolution>, home: Resolution) {
    forall r :: Peers(longer, r) == Peers(sorted, r) + Peers([home], r)
  }

  lemma StableNext(homes: seq<Resolution>, sorted: seq<Resolution>, longer: seq<Resolution>, home: Resolution)
    requires Stable(homes, sorted) && AddsPeer(sorted, longer, home)
    ensures Stable(homes + [home], longer)
  {
    forall r ensures Peers(longer, r) == Peers(homes + [home], r) {
      PeersAppend(homes, [home], r);
    }
  }

  ghost predicate OneConfigured(homes: seq<Resolution>) {
    forall i, j :: 0 <= i < j < |homes| ==> homes[i].source != CONFIGURED || homes[j].source != CONFIGURED
  }

  /** How far the sort has come. */
  ghost predicate SortedSoFar(homes: seq<Resolution>, sorted: seq<Resolution>)
    requires homes != []
  {
    && |sorted| == |homes| && multiset(sorted) == multiset(homes) && Ranked(sorted)
    && sorted[0] == Best(homes) && Stable(homes, sorted)
  }

  lemma BestNext(homes: seq<Resolution>, home: Resolution)
    requires homes != []
    ensures Best(homes + [home]) == if Before(home, Best(homes)) then home else Best(homes)
  {
    assert (homes + [home])[..|homes|] == homes;
  }

  lemma SortedNext(homes: seq<Resolution>, sorted: seq<Resolution>, home: Resolution, longer: seq<Resolution>)
    requires homes != [] && SortedSoFar(homes, sorted)
    requires |longer| == |sorted| + 1 && multiset(longer) == multiset(sorted) + multiset{home} && Ranked(longer)
    requires longer[0] == (if Before(home, sorted[0]) then home else sorted[0]) && AddsPeer(sorted, longer, home)
    ensures SortedSoFar(homes + [home], longer)
  {
    BestNext(homes, home);
    StableNext(homes, sorted, longer, home);
  }

  lemma OtherSources(homes: seq<Resolution>, sorted: seq<Resolution>, i: nat)
    requires OneConfigured(homes) && 0 < i < |homes| && multiset(sorted) == multiset(homes[..i])
    ensures forall r :: r in sorted ==> r.source != CONFIGURED || homes[i].source != CONFIGURED
  {
    forall r | r in sorted ensures r.source != CONFIGURED || homes[i].source != CONFIGURED {
      assert r in multiset(sorted);
      assert r in homes[..i];
    }
  }

  /** The stable sort: each home moves left past the ones it comes before. */
  method SortHomes(valid: seq<Resolution>) returns (sorted: seq<Resolution>)
    requires valid != [] && OneConfigured(valid)
    ensures |sorted| == |valid| && multiset(sorted) == multiset(valid) && Ranked(sorted) && Stable(valid, sorted)
    ensures sorted[0] == Best(valid)
  {
    sorted := [valid[0]];
    assert valid[..1] == [valid[0]];
    for i := 1 to |valid|
      invariant SortedSoFar(valid[..i], sorted)
    {
      OtherSources(valid, sorted, i);
      ghost var before := sorted;
      sorted := InsertHome(sorted, valid[i]);
      SortedNext(valid[..i], before, valid[i], sorted);
      assert valid[..i + 1] == valid[..i] + [valid[i]];
    }
    assert valid[..|valid|] == valid;
  }

  method InsertHome(sorted: seq<Resolution>, home: Resolution) returns (longer: seq<Resolution>)
    requires sorted != [] && Ranked(sorted)
    requires forall r :: r in sorted ==> r.source != CONFIGURED || home.source != CONFIGURED
    ensures |longer| == |sorted| + 1 && multiset(longer) == multiset(sorted) + multiset{home} && Ranked(longer)
    ensures forall r :: r in longer ==> r in sorted || r == home
    ensures longer[0] == if Before(home, sorted[0]) then home else sorted[0]
    ensures AddsPeer(sorted, longer, home)
  {
    var j := |sorted|;
    while j > 0 && Before(home, sorted[j - 1])
      invariant 0 <= j <= |sorted|
      invariant forall k :: j <= k < |sorted| ==> Outranks(home, sorted[k])
    {
      j := j - 1;
      assert sorted[j] in sorted;
    }
    longer := sorted[..j] + [home] + sorted[j..];
    if j > 0 { assert sorted[j - 1] in sorted; }
    InsertedBag(sorted, home, j);
    InsertedRanked(sorted, home, j);
    InsertedFirst(sorted, home, j);
    InsertedStable(sorted[..j], home, sorted[j..]);
  }

  lemma InsertedFirst(sorted: seq<Resolution>, home: Resolution, j: nat)
    requires sorted != [] && j <= |sorted| && (sorted[0].source != CONFIGURED || home.source != CONFIGURED)
    requires Outranks(home, sorted[0]) <==> j == 0
    ensures (sorted[..j] + [home] + sorted[j..])[0] == if Before(home, sorted[0]) then home else sorted[0]
  {
  }

  lemma InsertedBag(sorted: seq<Resolution>, home: Resolution, j: nat)
    requires j <= |sorted|
    ensures multiset(sorted[..j] + [home] + sorted[j..]) == multiset(sorted) + multiset{home}
    ensures forall r :: r in sorted[..j] + [home] + sorted[j..] ==> r in sorted || r == home
    ensures sorted == sorted[..j] + sorted[j..]
  {
    assert sorted == sorted[..j] + sorted[j..];
  }

  lemma OutranksThrough(a: Resolution, b: Resolution, c: Resolution)
    requires !Outranks(b, a) && !Outranks(c, b)
    ensures !Outranks(c, a)
  {
  }

  lemma InsertedRanked(sorted: seq<Resolution>, home: Resolution, j: nat)
    requires Ranked(sorted) && j <= |sorted|
    requires j > 0 ==> !Outranks(home, sorted[j - 1])
    requires forall k :: j <= k < |sorted| ==> Outranks(home, sorted[k])
    ensures Ranked(sorted[..j] + [home] + sorted[j..])
    ensures j > 0 ==> !Outranks(home, sorted[0])
  {
    forall k | 0 <= k < j ensures !Outranks(home, sorted[k]) {
      if k < j - 1 { OutranksThrough(sorted[k], sorted[j - 1], home); }
    }
  }

  method FindPinned(valid: seq<Resolution>) returns (pinned: Option<Resolution>)
    ensures pinned == Pinned(valid)
  {
    assert valid[0..] == valid;
    for i := 0 to |valid|
      invariant Pinned(valid[i..]) == Pinned(valid)
    {
      assert valid[i..][1..] == valid[i + 1..];
      if valid[i].source == CONFIGURED && valid[i].logs > 0 { return Some(valid[i]); }
    }
    return None;
  }

  lemma {:induction false} NoneConfigured(fs: Files, all: seq<Candidate>, seen: set<string>)
    requires forall c :: c in all ==> c.source != CONFIGURED
    ensures forall r :: r in Valid(fs, all, seen) ==> r.source != CONFIGURED
    decreases |all|
  {
    if all != [] {
      NoneConfigured(fs, all[1..], seen);
      NoneConfigured(fs, all[1..], seen + {fs.key(all[0].path)});
    }
  }

  lemma ConfiguredFirst(fs: Files, configured: string, candidates: seq<Candidate>)
    requires forall c :: c in candidates ==> c.source != CONFIGURED
    ensures OneConfigured(Valid(fs, AllCandidates(configured, candidates), {}))
  {
    var all := AllCandidates(configured, candidates);
    assert all[1..] == candidates;
    NoneConfigured(fs, candidates, {});
    NoneConfigured(fs, candidates, {} + {fs.key(configured)});
    var valid := Valid(fs, all, {});
    forall j | 0 < j < |valid| ensures valid[j].source != CONFIGURED {
      if IsBlankPath(configured) {
        assert valid[j] in Valid(fs, candidates, {});
      } else {
        assert valid[j] in Valid(fs, candidates, {} + {fs.key(configured)});
      }
    }
  }

  /** `resolveCodexHome`.  No candidate of the platform calls itself configured. */
  method ResolveCodexHome(fs: Files, configured: string, candidates: seq<Candidate>) returns (r: Resolution)
    requires forall c :: c in candidates ==> c.source != CONFIGURED
    ensures r == Resolve(fs, configured, candidates)
  {
    var valid := CollectValid(fs, AllCandidates(configured, candidates));
    if |valid| == 0 { return Resolution(fs.abs(configured), CONFIGURED, 0, 0); }
    var pinned := FindPinned(valid);
    if pinned.Some? { return pinned.value; }
    ConfiguredFirst(fs, configured, candidates);
    valid := SortHomes(valid);
    return valid[0];
  }

  const FIVE_MINUTES := 300

  /** The part of the client that follows the Codex home. */
  class HomeFollower {
    var codexHome: string
    var expectedHash: string
    var auto: bool
    var lastRead: Option<int>

    constructor (codexHome: string)
      ensures this.codexHome == codexHome && !auto && lastRead == None
    {
      this.codexHome := codexHome;
      expectedHash, auto, lastRead := "", false, None;
    }

    /** `refreshCodexHome` at second `now`.  `hash` is the fingerprint of the telemetry configuration of the
        new home, if it could be written; `dirty` says whether the configuration has to be saved. */
    method Refresh(fs: Files, candidates: seq<Candidate>, now: int, hash: Option<string>) returns (dirty: bool)
      requires forall c :: c in candidates ==> c.source != CONFIGURED
      modifies this
      ensures old(lastRead).Some? && now - old(lastRead).value < 300 ==>
        !dirty && codexHome == old(codexHome) && lastRead == old(lastRead)
      ensures old(lastRead).None? || now - old(lastRead).value >= 300 ==>
        && lastRead == Some(now) && codexHome == Followed(fs, old(codexHome), candidates)
        && (dirty <==> Moves(fs, old(codexHome), candidates))
      ensures dirty ==> auto && expectedHash == if hash.Some? then hash.value else old(expectedHash)
      ensures !dirty ==> auto == old(auto) && expectedHash == old(expectedHash)
    {
      if lastRead.Some? && now - lastRead.value < FIVE_MINUTES { return false; }
      lastRead := Some(now);
      var resolution := ResolveCodexHome(fs, codexHome, candidates);
      if resolution.path == "" || fs.key(resolution.path) == fs.key(codexHome) { return false; }
      codexHome := resolution.path;
      if hash.Some? { expectedHash := hash.value; }
      auto := true;
      return true;
    }
  }

  /** Whether a refresh switches to another home. */
  predicate Moves(fs: Files, home: string, candidates: seq<Candidate>) {
    var path := Resolve(fs, home, candidates).path;
    path != "" && fs.key(path) != fs.key(home)
  }

  /** The home after a refresh. */
  function Followed(fs: Files, home: string, candidates: seq<Candidate>): string {
    if Moves(fs, home, candidates) then Resolve(fs, home, candidates).path else home
  }

  // ------------------------------------------------------------ the choice

  /** Absolute paths are fixed and never blank, and a directory without logs has no latest log. */
  ghost predicate Tidy(fs: Files) {
    && (forall p {:trigger fs.abs(p)} :: fs.abs(fs.abs(p)) == fs.abs(p) && !IsBlankPath(fs.abs(p)))
    && (forall p {:trigger fs.look(p)} :: fs.look(p).Some? && fs.look(p).value.logs == 0 ==>
        fs.look(p).value.latest == 0)
  }

  lemma {:induction false} BestOutranked(valid: seq<Resolution>)
    requires valid != []
    ensures forall r :: r in valid ==> !Outranks(r, Best(valid))
  {
    if |valid| > 1 {
      BestOutranked(valid[..|valid| - 1]);
      assert valid == valid[..|valid| - 1] + [valid[|valid| - 1]];
    }
  }

  lemma {:induction false} PinnedFound(valid: seq<Resolution>)
    ensures Pinned(valid).Some? ==> Pinned(valid).value in valid && IsPinned(Pinned(valid).value)
    ensures Pinned(valid).None? ==> forall r :: r in valid ==> !IsPinned(r)
  {
    if valid != [] { PinnedFound(valid[1..]); }
  }

  /** A configured home that has logs is never replaced. */
  lemma PinnedStays(fs: Files, configured: string, candidates: seq<Candidate>)
    requires !IsBlankPath(configured) && fs.look(fs.abs(configured)).Some?
    requires fs.look(fs.abs(configured)).value.logs > 0
    ensures Resolve(fs, configured, candidates).path == fs.abs(configured)
  {
    assert AllCandidates(configured, candidates)[1..] == candidates;
  }

  /** Otherwise the choice has logs whenever any valid candidate does, and no valid candidate of the same kind
      has a later log. */
  lemma BestChosen(fs: Files, configured: string, candidates: seq<Candidate>, r: Resolution)
    requires r in Valid(fs, AllCandidates(configured, candidates), {})
    ensures var chosen := Resolve(fs, configured, candidates);
      IsPinned(chosen) || ((r.logs > 0 ==> chosen.logs > 0)
                           && ((r.logs > 0) == (chosen.logs > 0) ==> r.latest <= chosen.latest))
  {
    var valid := Valid(fs, AllCandidates(configured, candidates), {});
    PinnedFound(valid);
    BestOutranked(valid);
  }

  // ------------------------------------------------------------ resolving again

  /** Paths with one key name one directory. */
  ghost predicate KeysName(fs: Files) {
    forall p, q {:trigger fs.key(p), fs.key(q)} :: fs.key(p) == fs.key(q) ==> fs.look(fs.abs(p)) == fs.look(fs.abs(q))
  }

  /** A candidate that could be chosen. */
  predicate Usable(fs: Files, c: Candidate) { !IsBlankPath(c.path) && Inspect(fs, c).Some? }

  lemma {:induction false} ValidComesFrom(fs: Files, all: seq<Candidate>, seen: set<string>, r: Resolution)
      returns (c: Candidate)
    requires r in Valid(fs, all, seen)
    ensures c in all && Usable(fs, c) && Inspect(fs, c) == Some(r)
    decreases |all|
  {
    if IsBlankPath(all[0].path) || fs.key(all[0].path) in seen {
      c := ValidComesFrom(fs, all[1..], seen, r);
    } else if Inspect(fs, all[0]) == Some(r) {
      c := all[0];
    } else {
      c := ValidComesFrom(fs, all[1..], seen + {fs.key(all[0].path)}, r);
    }
  }

  /** Some valid home stands for the directory of `c`. */
  ghost predicate StandsFor(fs: Files, valid: seq<Resolution>, c: Candidate) {
    exists r :: r in valid && Inspect(fs, c).Some? && r.logs == Inspect(fs, c).value.logs
      && r.latest == Inspect(fs, c).value.latest
  }

  lemma SameDirectory(fs: Files, a: Candidate, b: Candidate)
    requires KeysName(fs) && fs.key(a.path) == fs.key(b.path) && Inspect(fs, b).Some?
    ensures Inspect(fs, a).Some?
    ensures Inspect(fs, a).value.logs == Inspect(fs, b).value.logs
      && Inspect(fs, a).value.latest == Inspect(fs, b).value.latest
  {
  }

  lemma {:induction false} Represented(fs: Files, all: seq<Candidate>, seen: set<string>, c: Candidate)
    requires KeysName(fs) && c in all && Usable(fs, c) && fs.key(c.path) !in seen
    ensures StandsFor(fs, Valid(fs, all, seen), c)
    decreases |all|
  {
    var first, valid := all[0], Valid(fs, all, seen);
    if IsBlankPath(first.path) || fs.key(first.path) in seen {
      Represented(fs, all[1..], seen, c);
    } else if fs.key(first.path) == fs.key(c.path) {
      SameDirectory(fs, first, c);
      assert Inspect(fs, first).value in valid;
    } else {
      Represented(fs, all[1..], seen + {fs.key(first.path)}, c);
      var r :| r in Valid(fs, all[1..], seen + {fs.key(first.path)}) && r.logs == Inspect(fs, c).value.logs
          && r.latest == Inspect(fs, c).value.latest;
      assert r in valid;
    }
  }

  /** What the first resolution found limits every candidate. */
  /** No directory among the candidates that can be read and holds logs or a configuration beats the choice. */
  lemma BestOfAll(fs: Files, configured: string, candidates: seq<Candidate>, c: Candidate, s: Summary)
    requires KeysName(fs) && (c in candidates || c == Candidate(configured, CONFIGURED)) && !IsBlankPath(c.path)
    requires fs.look(fs.abs(c.path)) == Some(s) && (s.logs > 0 || s.config)
    ensures var chosen := Resolve(fs, configured, candidates);
      (chosen.source == CONFIGURED && chosen.logs > 0)
      || ((s.logs > 0 ==> chosen.logs > 0) && ((s.logs > 0) == (chosen.logs > 0) ==> s.latest <= chosen.latest))
  {
    var all := AllCandidates(configured, candidates);
    assert c in all;
    Represented(fs, all, {}, c);
    var r :| r in Valid(fs, all, {}) && r.logs == s.logs && r.latest == s.latest;
    BestChosen(fs, configured, candidates, r);
  }

  lemma NothingBetter(fs: Files, configured: string, candidates: seq<Candidate>, c: Candidate, first: Resolution)
    requires KeysName(fs) && first == Resolve(fs, configured, candidates) && c in candidates && Usable(fs, c)
    ensures Valid(fs, AllCandidates(configured, candidates), {}) != []
    ensures IsPinned(first) || (Inspect(fs, c).value.logs > 0 ==> first.logs > 0)
  {
    var all := AllCandidates(configured, candidates);
    assert c in all;
    Represented(fs, all, {}, c);
    var r :| r in Valid(fs, all, {}) && r.logs == Inspect(fs, c).value.logs && r.latest == Inspect(fs, c).value.latest;
    BestChosen(fs, configured, candidates, r);
  }

  lemma ChosenInspected(fs: Files, configured: string, candidates: seq<Candidate>, r: Resolution)
    requires Tidy(fs) && r == Resolve(fs, configured, candidates)
    requires Valid(fs, AllCandidates(configured, candidates), {}) != []
    ensures Inspect(fs, Candidate(r.path, CONFIGURED)) == Some(Resolution(r.path, CONFIGURED, r.logs, r.latest))
  {
    var all := AllCandidates(configured, candidates);
    PinnedFound(Valid(fs, all, {}));
    var c := ValidComesFrom(fs, all, {}, r);
    assert fs.abs(fs.abs(c.path)) == fs.abs(c.path);
  }

  lemma ResolvedPath(fs: Files, configured: string, candidates: seq<Candidate>, r: Resolution)
    requires Tidy(fs) && r == Resolve(fs, configured, candidates)
    ensures fs.abs(r.path) == r.path && !IsBlankPath(r.path)
  {
    var all := AllCandidates(configured, candidates);
    if Valid(fs, all, {}) == [] {
      assert fs.abs(fs.abs(configured)) == fs.abs(configured);
    } else {
      PinnedFound(Valid(fs, all, {}));
      var c := ValidComesFrom(fs, all, {}, r);
      assert fs.abs(fs.abs(c.path)) == fs.abs(c.path);
    }
  }

  /** With no logs anywhere the configured home, being first, wins. */
  lemma {:induction false} FirstOfEquals(valid: seq<Resolution>)
    requires valid != [] && valid[0].source == CONFIGURED
    requires forall i :: 0 < i < |valid| ==> valid[i].source != CONFIGURED
    requires forall r :: r in valid ==> r.logs == 0 && r.latest == 0
    ensures Pinned(valid).None? && Best(valid) == valid[0]
  {
    PinnedFound(valid);
    if |valid| > 1 { FirstOfEquals(valid[..|valid| - 1]); }
  }

  lemma UnpinnedAgain(fs: Files, configured: string, candidates: seq<Candidate>, r: Resolution)
    requires Tidy(fs) && KeysName(fs) && (forall c :: c in candidates ==> c.source != CONFIGURED)
    requires r == Resolve(fs, configured, candidates) && r.logs == 0 && fs.abs(r.path) == r.path && !IsBlankPath(r.path)
    requires Inspect(fs, Candidate(r.path, CONFIGURED)).Some?
      && Inspect(fs, Candidate(r.path, CONFIGURED)).value.logs == 0
    ensures Resolve(fs, r.path, candidates).path == r.path
  {
    var all := AllCandidates(r.path, candidates);
    var valid := Valid(fs, all, {});
    assert all[1..] == candidates;
    forall x | x in valid ensures x.logs == 0 && x.latest == 0 {
      var c := ValidComesFrom(fs, all, {}, x);
      if c in candidates { NothingBetter(fs, configured, candidates, c, r); }
      assert fs.look(fs.abs(c.path)).Some?;
    }
    ConfiguredRest(fs, r.path, candidates);
    FirstOfEquals(valid);
  }

  lemma ConfiguredRest(fs: Files, configured: string, candidates: seq<Candidate>)
    requires (forall c :: c in candidates ==> c.source != CONFIGURED) && Usable(fs, Candidate(configured, CONFIGURED))
    ensures var valid := Valid(fs, AllCandidates(configured, candidates), {});
      && valid != [] && valid[0] == Inspect(fs, Candidate(configured, CONFIGURED)).value
      && forall i :: 0 < i < |valid| ==> valid[i].source != CONFIGURED
  {
    assert AllCandidates(configured, candidates)[1..] == candidates;
    var rest := Valid(fs, candidates, {} + {fs.key(configured)});
    NoneConfigured(fs, candidates, {} + {fs.key(configured)});
    forall i | 0 <= i < |rest| ensures rest[i].source != CONFIGURED {
      assert rest[i] in rest;
    }
  }

  lemma NothingAgain(fs: Files, configured: string, candidates: seq<Candidate>, r: Resolution)
    requires Tidy(fs) && KeysName(fs) && r == Resolve(fs, configured, candidates) && fs.abs(r.path) == r.path
    requires Inspect(fs, Candidate(r.path, CONFIGURED)).None?
    ensures Resolve(fs, r.path, candidates).path == r.path
  {
    var all := AllCandidates(configured, candidates);
    if Valid(fs, all, {}) != [] { ChosenInspected(fs, configured, candidates, r); }
    var again := AllCandidates(r.path, candidates);
    if Valid(fs, again, {}) != [] {
      var c := ValidComesFrom(fs, again, {}, Valid(fs, again, {})[0]);
      NothingBetter(fs, configured, candidates, c, r);
    }
  }

  /** Resolving again from the chosen path returns that path. */
  lemma ResolvesToItself(fs: Files, configured: string, candidates: seq<Candidate>, r: Resolution)
    requires Tidy(fs) && KeysName(fs) && (forall c :: c in candidates ==> c.source != CONFIGURED)
    requires r == Resolve(fs, configured, candidates)
    ensures Resolve(fs, r.path, candidates).path == r.path
  {
    var seen := Inspect(fs, Candidate(r.path, CONFIGURED));
    ResolvedPath(fs, configured, candidates, r);
    if seen.None? {
      NothingAgain(fs, configured, candidates, r);
    } else if seen.value.logs > 0 {
      PinnedStays(fs, r.path, candidates);
    } else {
      if Valid(fs, AllCandidates(configured, candidates), {}) != [] { ChosenInspected(fs, configured, candidates, r); }
      UnpinnedAgain(fs, configured, candidates, r);
    }
  }

  /** Following the home never oscillates: a second refresh stays where the first one went. */
  lemma FollowsOnce(fs: Files, home: string, candidates: seq<Candidate>)
    requires Tidy(fs) && KeysName(fs) && (forall c :: c in candidates ==> c.source != CONFIGURED)
    ensures !Moves(fs, Followed(fs, home, candidates), candidates)
  {
    ResolvesToItself(fs, home, candidates, Resolve(fs, home, candidates));
  }
}
