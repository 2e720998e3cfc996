/** When honest log activity raises no alarm.  Go ranges over a map in the move search, so the
    statement speaks of every outcome that search can have. */
module CleanScans {
  import opened Prelude
  import opened SignedMessage
  import opened IntegrityScan
  import opened ScanTheorems

  ghost predicate LogPaths(logs: Home) {
    forall p :: p in logs ==> IsLog(p)
  }

  /** Honest activity between two scans: archived files stay as they are, active files grow in place
      or move to a new archive path, as `moved` says. */
  ghost predicate HonestChange(logs: Home, now: Home, moved: map<string, string>) {
    && LogPaths(logs) && LogPaths(now)
    && (forall p :: p in logs && p in now ==> Continues(p, logs[p], now[p]))
    && (forall p :: p in logs && p !in now ==> p in moved)
    && (forall p :: p in moved ==> p in logs && !IsArchived(p) && p !in now)
    && (forall p :: p in moved ==> moved[p] in now && IsArchived(moved[p]) && moved[p] !in logs)
    && (forall p :: p in moved ==> IsPrefix(logs[p].content, now[moved[p]].content))
    && (forall p, q :: p in moved && q in moved && p != q ==> moved[p] != moved[q])
  }

  /** Random identifiers do not repeat. */
  ghost predicate FreshDraws(draw: string -> string, files: Checkpoints, now: Home) {
    && (forall p, q :: p in now && q in now && p !in files && q !in files && p != q ==> draw(p) != draw(q))
    && (forall p, q :: p in now && p !in files && q in files ==> draw(p) != files[q].opaqueId)
  }

  /** No alarm, and identifiers follow their files and stay distinct. */
  ghost predicate Faithful(sha: string -> string, draw: string -> string, files: Checkpoints, now: Home,
                           moved: map<string, string>, claims: Claims)
  {
    && (forall p :: p in files ==> Verdict(sha, files, now, claims, p).None?)
    && (forall p :: p in moved && p in files ==> IdOf(files, claims, draw, moved[p]) == files[p].opaqueId)
    && (forall p, q :: p in now && q in now && p != q ==> IdOf(files, claims, draw, p) != IdOf(files, claims, draw, q))
  }

  /** Archive path `a` could be mistaken for active file `o`: it begins with o's old content, yet `o`
      did not move to `a` nor to an archive path examined before `a`. */
  ghost predicate Impostor(logs: Home, now: Home, moved: map<string, string>, a: string, o: string) {
    && a in now && a !in logs && IsArchived(a)
    && o in logs && !IsArchived(o) && IsPrefix(logs[o].content, now[a].content)
    && !(o in moved && (moved[o] == a || LexLess(moved[o], a)))
  }

  ghost predicate NoImpostor(logs: Home, now: Home, moved: map<string, string>) {
    forall a, o :: !Impostor(logs, now, moved, a, o)
  }

  /** The setting of the theorem: checkpoints of an earlier scan, honest activity, fresh identifiers. */
  ghost predicate Setting(sha: string -> string, draw: string -> string, files: Checkpoints, logs: Home, now: Home,
                          moved: map<string, string>)
  {
    && CollisionFree(sha) && Reflects(sha, files, logs) && DistinctIds(files)
    && HonestChange(logs, now, moved) && FreshDraws(draw, files, now)
  }

  lemma MatchExact(sha: string -> string, draw: string -> string, files: Checkpoints, logs: Home, now: Home,
                   moved: map<string, string>, a: string, o: string)
    requires Setting(sha, draw, files, logs, now, moved) && a in now && o in files
    ensures Matches(sha, files[o], now[a]) <==> !IsArchived(o) && IsPrefix(logs[o].content, now[a].content)
  {
    InspectExact(sha, files[o].opaqueId, o, logs[o], now[a]);
  }

  /** A path still present is never taken by the time an archive path is examined. */
  lemma PresentNotTaken(logs: Home, now: Home, files: Checkpoints, claims: Claims, a: string, o: string)
    requires LogPaths(now) && IsArchived(a) && !IsArchived(o)
    requires Taken(files, now, claims, a, o)
    ensures exists b :: b in claims && LexLess(b, a) && claims[b] == o
  {
    if o in now { ArchivesFirst(a, o); }
  }

  // ------------------------------------------------------------ sufficiency

  /** The claims among `seen` are exactly the moves into `seen`. */
  ghost predicate FollowsMoves(moved: map<string, string>, claims: Claims, seen: seq<string>) {
    && (forall a :: a in seen && a in claims ==> claims[a] in moved && moved[claims[a]] == a)
    && (forall p :: p in moved && moved[p] in seen ==> moved[p] in claims && claims[moved[p]] == p)
  }

  /** A claimed path was claimed for the file that moved there. */
  lemma ForcedClaim(sha: string -> string, draw: string -> string, files: Checkpoints, logs: Home, now: Home,
                    moved: map<string, string>, claims: Claims, keys: seq<string>, i: nat)
    requires Setting(sha, draw, files, logs, now, moved) && NoImpostor(logs, now, moved)
    requires Possible(sha, files, now, claims)
    requires Ascending(keys) && (forall k :: k in keys <==> k in now) && i < |keys|
    requires FollowsMoves(moved, claims, keys[..i])
    requires keys[i] in claims
    ensures claims[keys[i]] in moved && moved[claims[keys[i]]] == keys[i]
  {
    var a, o := keys[i], claims[keys[i]];
    assert GoodClaim(sha, files, now, claims, a);
    MatchExact(sha, draw, files, logs, now, moved, a, o);
    assert !Impostor(logs, now, moved, a, o);
    Earlier(keys, i);
  }

  /** The path that a file moved to is claimed for it. */
  lemma ForcedMove(sha: string -> string, draw: string -> string, files: Checkpoints, logs: Home, now: Home,
                   moved: map<string, string>, claims: Claims, keys: seq<string>, i: nat, p: string)
    requires Setting(sha, draw, files, logs, now, moved) && NoImpostor(logs, now, moved)
    requires Possible(sha, files, now, claims)
    requires Ascending(keys) && (forall k :: k in keys <==> k in now) && i < |keys|
    requires FollowsMoves(moved, claims, keys[..i])
    requires p in moved && moved[p] == keys[i]
    ensures keys[i] in claims && claims[keys[i]] == p
  {
    var a := keys[i];
    if a in claims {
      ForcedClaim(sha, draw, files, logs, now, moved, claims, keys, i);
    } else {
      assert Newcomer(files, now, a) && Unmatched(sha, files, now, claims, a);
      MatchExact(sha, draw, files, logs, now, moved, a, p);
      PresentNotTaken(logs, now, files, claims, a, p);
      var b :| b in claims && LexLess(b, a) && claims[b] == p;
      assert GoodClaim(sha, files, now, claims, b);
      Earlier(keys, i);
    }
  }

  lemma ForcedHere(sha: string -> string, draw: string -> string, files: Checkpoints, logs: Home, now: Home,
                   moved: map<string, string>, claims: Claims, keys: seq<string>, i: nat)
    requires Setting(sha, draw, files, logs, now, moved) && NoImpostor(logs, now, moved)
    requires Possible(sha, files, now, claims)
    requires Ascending(keys) && (forall k :: k in keys <==> k in now) && i < |keys|
    requires FollowsMoves(moved, claims, keys[..i])
    ensures keys[i] in claims ==> claims[keys[i]] in moved && moved[claims[keys[i]]] == keys[i]
    ensures forall p :: p in moved && moved[p] == keys[i] ==> keys[i] in claims && claims[keys[i]] == p
  {
    if keys[i] in claims {
      ForcedClaim(sha, draw, files, logs, now, moved, claims, keys, i);
    }
    forall p | p in moved && moved[p] == keys[i] ensures keys[i] in claims && claims[keys[i]] == p {
      ForcedMove(sha, draw, files, logs, now, moved, claims, keys, i, p);
    }
  }

  lemma FollowsNone(moved: map<string, string>, claims: Claims)
    ensures FollowsMoves(moved, claims, [])
  {
  }

  lemma FollowsNext(moved: map<string, string>, claims: Claims, keys: seq<string>, i: nat)
    requires i < |keys| && FollowsMoves(moved, claims, keys[..i])
    requires keys[i] in claims ==> claims[keys[i]] in moved && moved[claims[keys[i]]] == keys[i]
    requires forall p :: p in moved && moved[p] == keys[i] ==> keys[i] in claims && claims[keys[i]] == p
    ensures FollowsMoves(moved, claims, keys[..i + 1])
  {
    assert keys[..i + 1] == keys[..i] + [keys[i]];
  }

  lemma {:induction false} FollowsAll(moved: map<string, string>, claims: Claims, keys: seq<string>, i: nat)
    requires i <= |keys|
    requires forall j :: 0 <= j < |keys| && FollowsMoves(moved, claims, keys[..j]) ==>
      FollowsMoves(moved, claims, keys[..j + 1])
    ensures FollowsMoves(moved, claims, keys[..i])
  {
    if i == 0 {
      FollowsNone(moved, claims);
      assert keys[..0] == [];
    } else {
      FollowsAll(moved, claims, keys, i - 1);
    }
  }

  /** Without impostors the search has no choice. */
  lemma Forced(sha: string -> string, draw: string -> string, files: Checkpoints, logs: Home, now: Home,
               moved: map<string, string>, claims: Claims)
    requires Setting(sha, draw, files, logs, now, moved) && NoImpostor(logs, now, moved)
    requires Possible(sha, files, now, claims)
    ensures ClaimsAreMoves(moved, claims)
  {
    var keys := Sorted(now.Keys);
    forall i | 0 <= i < |keys| && FollowsMoves(moved, claims, keys[..i])
      ensures FollowsMoves(moved, claims, keys[..i + 1])
    {
      ForcedHere(sha, draw, files, logs, now, moved, claims, keys, i);
      FollowsNext(moved, claims, keys, i);
    }
    FollowsAll(moved, claims, keys, |keys|);
    assert keys[..|keys|] == keys;
    forall a | a in claims ensures a in keys {
      assert GoodClaim(sha, files, now, claims, a);
    }
  }

  /** The claims are exactly the moves. */
  ghost predicate ClaimsAreMoves(moved: map<string, string>, claims: Claims) {
    && (forall a :: a in claims ==> claims[a] in moved && moved[claims[a]] == a)
    && (forall p :: p in moved ==> moved[p] in claims && claims[moved[p]] == p)
  }

  lemma MovesRaiseNothing(sha: string -> string, files: Checkpoints, logs: Home, now: Home,
                          moved: map<string, string>, claims: Claims, p: string)
    requires CollisionFree(sha) && Reflects(sha, files, logs) && HonestChange(logs, now, moved)
    requires ClaimsAreMoves(moved, claims) && p in files
    ensures Verdict(sha, files, now, claims, p).None?
  {
    if p in now {
      InspectExact(sha, files[p].opaqueId, p, logs[p], now[p]);
    } else {
      assert claims[moved[p]] == p;
    }
  }

  lemma MovesKeepIdsApart(sha: string -> string, draw: string -> string, files: Checkpoints, logs: Home, now: Home,
                          moved: map<string, string>, claims: Claims, p: string, q: string)
    requires Reflects(sha, files, logs) && DistinctIds(files) && HonestChange(logs, now, moved)
    requires FreshDraws(draw, files, now) && ClaimsAreMoves(moved, claims)
    requires p in now && q in now && p != q
    ensures IdOf(files, claims, draw, p) != IdOf(files, claims, draw, q)
  {
  }

  lemma MovesAreFaithful(sha: string -> string, draw: string -> string, files: Checkpoints, logs: Home, now: Home,
                         moved: map<string, string>, claims: Claims)
    requires Setting(sha, draw, files, logs, now, moved) && ClaimsAreMoves(moved, claims)
    ensures Faithful(sha, draw, files, now, moved, claims)
  {
    forall p | p in files ensures Verdict(sha, files, now, claims, p).None? {
      MovesRaiseNothing(sha, files, logs, now, moved, claims, p);
    }
    forall p, q | p in now && q in now && p != q
      ensures IdOf(files, claims, draw, p) != IdOf(files, claims, draw, q)
    {
      MovesKeepIdsApart(sha, draw, files, logs, now, moved, claims, p, q);
    }
  }

  // ------------------------------------------------------------ necessity

  /** Every partial outcome of the search can be completed. */
  lemma {:induction false} Completion(sha: string -> string, files: Checkpoints, now: Home, claims: Claims,
                                      keys: seq<string>, i: nat) returns (full: Claims)
    requires Ascending(keys) && (forall k :: k in keys <==> k in now) && i <= |keys|
    requires PossibleUpTo(sha, files, now, claims, SeenKeys(keys[..i]))
    ensures Possible(sha, files, now, full)
    ensures forall a :: a in claims ==> a in full && full[a] == claims[a]
    decreases |keys| - i
  {
    if i == |keys| {
      assert keys[..i] == keys && SeenKeys(keys) == now.Keys;
      full := claims;
    } else if Newcomer(files, now, keys[i]) && !Unmatched(sha, files, now, claims, keys[i]) {
      var o :| o in files && Matches(sha, files[o], now[keys[i]]) && !Taken(files, now, claims, keys[i], o);
      ClaimPossible(sha, files, now, claims, keys, i, o);
      SeenNext(keys, i);
      full := Completion(sha, files, now, claims[keys[i] := o], keys, i + 1);
    } else {
      StayPossible(sha, files, now, claims, keys, i);
      full := Completion(sha, files, now, claims, keys, i + 1);
    }
  }

  /** An outcome restricted to the smaller paths is an outcome for those paths. */
  lemma RestrictPossible(sha: string -> string, files: Checkpoints, now: Home, claims: Claims,
                         keys: seq<string>, i: nat)
      returns (part: Claims)
    requires Ascending(keys) && (forall k :: k in keys <==> k in now) && i < |keys|
    requires Possible(sha, files, now, claims)
    ensures PossibleUpTo(sha, files, now, part, SeenKeys(keys[..i]))
    ensures forall a :: a in part <==> a in claims && LexLess(a, keys[i])
    ensures forall a :: a in part ==> part[a] == claims[a]
  {
    part := map a | a in claims && LexLess(a, keys[i]) :: claims[a];
    Earlier(keys, i);
    forall a, o | a in now && LexLess(a, keys[i])
      ensures Taken(files, now, part, a, o) <==> Taken(files, now, claims, a, o)
    {
      if b :| b in claims && LexLess(b, a) && claims[b] == o {
        LexTransitive(b, a, keys[i]);
        if b == keys[i] { LexAntisymmetric(a, b); }
        assert b in part && part[b] == o;
      }
    }
    forall a | a in part ensures a in SeenKeys(keys[..i]) && GoodClaim(sha, files, now, part, a) {
      assert GoodClaim(sha, files, now, claims, a);
      assert a in keys;
    }
    forall a | a in SeenKeys(keys[..i]) && Newcomer(files, now, a) && a !in part
      ensures Unmatched(sha, files, now, part, a)
    {
      assert Unmatched(sha, files, now, claims, a);
    }
  }

  /** In a faithful outcome only the rightful archive path carries o's identifier. */
  lemma FaithfulClaim(sha: string -> string, draw: string -> string, files: Checkpoints, logs: Home, now: Home,
                      moved: map<string, string>, claims: Claims, a: string)
    requires Setting(sha, draw, files, logs, now, moved)
    requires Possible(sha, files, now, claims) && Faithful(sha, draw, files, now, moved, claims) && a in claims
    ensures claims[a] in moved && moved[claims[a]] == a
  {
    var o := claims[a];
    assert GoodClaim(sha, files, now, claims, a);
    assert IdOf(files, claims, draw, a) == files[o].opaqueId;
    assert IdOf(files, claims, draw, o) == files[o].opaqueId;
    assert o !in now;
  }

  lemma ImpostorMisleads(sha: string -> string, draw: string -> string, files: Checkpoints, logs: Home, now: Home,
                         moved: map<string, string>, a: string, o: string) returns (bad: Claims)
    requires Setting(sha, draw, files, logs, now, moved) && Impostor(logs, now, moved, a, o)
    ensures Possible(sha, files, now, bad) && !Faithful(sha, draw, files, now, moved, bad)
  {
    var keys := Sorted(now.Keys);
    assert a in keys;
    var i :| 0 <= i < |keys| && keys[i] == a;
    assert SeenKeys(keys[..0]) == {};
    var any := Completion(sha, files, now, map[], keys, 0);
    if !Faithful(sha, draw, files, now, moved, any) { return any; }
    var part := RestrictPossible(sha, files, now, any, keys, i);
    MatchExact(sha, draw, files, logs, now, moved, a, o);
    if Taken(files, now, part, a, o) {
      PresentNotTaken(logs, now, files, part, a, o);
      var b :| b in part && LexLess(b, a) && part[b] == o;
      FaithfulClaim(sha, draw, files, logs, now, moved, any, b);
      assert false;
    }
    ClaimPossible(sha, files, now, part, keys, i, o);
    SeenNext(keys, i);
    bad := Completion(sha, files, now, part[a := o], keys, i + 1);
    if Faithful(sha, draw, files, now, moved, bad) {
      FaithfulClaim(sha, draw, files, logs, now, moved, bad, a);
      assert false;
    }
  }

  /** Honest activity is reported without alarm, with every identifier following its file, under every
      iteration order of the checkpoint map, if and only if no new archive file can be mistaken
      for another active log. */
  lemma CleanExactly(sha: string -> string, draw: string -> string, files: Checkpoints, logs: Home, now: Home,
                     moved: map<string, string>)
    requires Setting(sha, draw, files, logs, now, moved)
    ensures (forall claims :: Possible(sha, files, now, claims) ==> Faithful(sha, draw, files, now, moved, claims))
      <==> NoImpostor(logs, now, moved)
  {
    if NoImpostor(logs, now, moved) {
      forall claims | Possible(sha, files, now, claims) ensures Faithful(sha, draw, files, now, moved, claims) {
        Forced(sha, draw, files, logs, now, moved, claims);
        MovesAreFaithful(sha, draw, files, logs, now, moved, claims);
      }
    } else {
      var a, o :| Impostor(logs, now, moved, a, o);
      var bad := ImpostorMisleads(sha, draw, files, logs, now, moved, a, o);
    }
  }

  /** The report of such a scan. */
  lemma CleanReport(sha: string -> string, draw: string -> string, before: ScanState, logs: Home, home: Home,
                    moved: map<string, string>, claims: Claims, after: ScanState, r: Report)
    requires Setting(sha, draw, before.files, logs, Discover(home), moved)
    requires NoImpostor(logs, Discover(home), moved)
    requires Scanned(sha, draw, before, home, claims, after, r)
    ensures r.findings == [] && r.status == "OK"
    ensures DistinctIds(after.files)
    ensures forall p :: p in logs ==>
      var q := if p in moved then moved[p] else p;
      q in after.files && after.files[q].opaqueId == before.files[p].opaqueId
  {
    CleanExactly(sha, draw, before.files, logs, Discover(home), moved);
    assert Faithful(sha, draw, before.files, Discover(home), moved, claims);
    QuietExact(r.findings, sha, before.files, Discover(home), claims);
  }
}
