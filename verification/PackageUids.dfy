/** Resolving packages to UIDs: asking one source after the other, or all of them. */
module PackageUids {
  import opened Basics

  /** A probed source: what it lists, empty when it could not be read. */
  datatype Catalog = Catalog(source: string, uids: map<string, int>)

  datatype Resolution = Resolution(source: string, uids: seq<int>, unresolved: seq<string>)

  const PER_USER := 100000

  /** What is asked for: the packages by name, and which listed packages are taken. */
  datatype Query = Query(requested: seq<string>, matches: string -> bool, users: seq<int>)

  /** The remainder that takes the dividend's sign. */
  function Rem(a: int, b: int): int
    requires b > 0
  {
    if a >= 0 then a % b else -((-a) % b)
  }

  function UidOf(user: int, listed: int): int {
    user * PER_USER + Rem(listed, PER_USER)
  }

  /** The UIDs that a catalog gives for a query: one for each matched package and user. */
  ghost predicate HasUid(c: Catalog, q: Query, uid: int) {
    exists package, i :: package in c.uids && q.matches(package) && 0 <= i < |q.users| && uid == UidOf(q.users[i], c.uids[package])
  }

  ghost predicate Increasing(s: seq<int>) {
    forall i, j :: 0 <= i < j < |s| ==> s[i] < s[j]
  }

  /** The requested packages that the catalog does not list or that are not taken. */
  function Unresolved(requested: seq<string>, c: Catalog, matches: string -> bool): seq<string> {
    if requested == [] then []
    else
      var front, last := Unresolved(requested[..|requested| - 1], c, matches), requested[|requested| - 1];
      if last in c.uids && matches(last) then front else front + [last]
  }

  ghost predicate Resolves(c: Catalog, q: Query, r: Resolution) {
    && r.source == c.source && r.unresolved == Unresolved(q.requested, c, q.matches)
    && Increasing(r.uids) && forall uid :: uid in r.uids <==> HasUid(c, q, uid)
  }

  /** A catalog resolves a query in one way only. */
  lemma ResolutionIsUnique(c: Catalog, q: Query, a: Resolution, b: Resolution)
    requires Resolves(c, q, a) && Resolves(c, q, b)
    ensures a == b
  {
    hide HasUid, Unresolved;
    IncreasingUnique(a.uids, b.uids);
  }

  lemma {:induction false} IncreasingUnique(a: seq<int>, b: seq<int>)
    requires Increasing(a) && Increasing(b) && forall x :: x in a <==> x in b
    ensures a == b
  {
    if a == [] {
      HeadIsIn(b);
    } else {
      assert a[0] in a;
      assert b[0] in b;
      assert a[0] == b[0];
      RestIsAbove(a);
      RestIsAbove(b);
      IncreasingUnique(a[1..], b[1..]);
    }
  }

  lemma HeadIsIn(s: seq<int>)
    ensures s != [] ==> s[0] in s
  {
  }

  lemma RestIsAbove(a: seq<int>)
    requires Increasing(a) && a != []
    ensures Increasing(a[1..]) && forall x :: x in a[1..] <==> x in a && x != a[0]
  {
    assert a == [a[0]] + a[1..];
    forall x | x in a[1..] ensures x != a[0] {
      var k :| 0 <= k < |a| - 1 && a[1..][k] == x;
      assert a[k + 1] == x;
    }
  }

  function Inserted(s: seq<int>, x: int): seq<int> {
    if s == [] || x < s[0] then [x] + s else if x == s[0] then s else [s[0]] + Inserted(s[1..], x)
  }

  lemma {:induction false} InsertedKeeps(s: seq<int>, x: int)
    requires Increasing(s)
    ensures Increasing(Inserted(s, x))
    ensures forall y :: y in Inserted(s, x) <==> y in s || y == x
  {
    if s != [] {
      assert s == [s[0]] + s[1..];
      if x > s[0] {
        InsertedKeeps(s[1..], x);
        var r := Inserted(s[1..], x);
        forall j | 0 <= j < |r| ensures s[0] < r[j] {
          assert r[j] in r;
          if r[j] in s[1..] {
            var k :| 0 <= k < |s| - 1 && s[1..][k] == r[j];
            assert s[k + 1] == r[j];
          }
        }
      }
    }
  }

  /** The UIDs of the packages in `done`. */
  ghost predicate Covers(uids: seq<int>, c: Catalog, q: Query, done: set<string>) {
    Increasing(uids) &&
    forall uid :: uid in uids <==>
      exists package, i :: package in done && package in c.uids && q.matches(package) && 0 <= i < |q.users|
                           && uid == UidOf(q.users[i], c.uids[package])
  }

  method AddPackage(uids: seq<int>, c: Catalog, q: Query, package: string, ghost done: set<string>) returns (more: seq<int>)
    requires package in c.uids && q.matches(package) && Covers(uids, c, q, done)
    ensures Covers(more, c, q, done + {package})
  {
    hide UidOf;
    more := uids;
    var listed := c.uids[package];
    for n := 0 to |q.users|
      invariant Increasing(more)
      invariant forall uid :: uid in more <==> uid in uids || exists i :: 0 <= i < n && uid == UidOf(q.users[i], listed)
    {
      InsertedKeeps(more, UidOf(q.users[n], listed));
      more := Inserted(more, UidOf(q.users[n], listed));
    }
    forall uid ensures uid in more <==>
      exists p, i :: p in done + {package} && p in c.uids && q.matches(p) && 0 <= i < |q.users| && uid == UidOf(q.users[i], c.uids[p])
    {
      if uid in uids {
        var p, i :| p in done && p in c.uids && q.matches(p) && 0 <= i < |q.users| && uid == UidOf(q.users[i], c.uids[p]);
        assert p in done + {package};
      } else if i :| 0 <= i < |q.users| && uid == UidOf(q.users[i], listed) {
        assert package in done + {package};
      }
    }
  }

  lemma NothingDone(c: Catalog, q: Query)
    ensures Covers([], c, q, {})
  {
  }

  lemma NotMatched(uids: seq<int>, c: Catalog, q: Query, package: string, done: set<string>)
    requires !q.matches(package) && Covers(uids, c, q, done)
    ensures Covers(uids, c, q, done + {package})
  {
    hide UidOf;
    forall uid | uid in uids
      ensures exists p, i :: p in done + {package} && p in c.uids && q.matches(p) && 0 <= i < |q.users| && uid == UidOf(q.users[i], c.uids[p])
    {
      var p, i :| p in done && p in c.uids && q.matches(p) && 0 <= i < |q.users| && uid == UidOf(q.users[i], c.uids[p]);
      assert p in done + {package};
    }
  }

  method CollectUids(c: Catalog, q: Query) returns (uids: seq<int>)
    ensures Covers(uids, c, q, c.uids.Keys)
  {
    hide UidOf, Covers;
    uids := [];
    var left, done := c.uids.Keys, {};
    NothingDone(c, q);
    while left != {}
      invariant left + done == c.uids.Keys && left * done == {}
      invariant Covers(uids, c, q, done)
      decreases |left|
    {
      var package :| package in left;
      if q.matches(package) {
        uids := AddPackage(uids, c, q, package, done);
      } else {
        NotMatched(uids, c, q, package, done);
      }
      left, done := left - {package}, done + {package};
    }
    assert done == c.uids.Keys;
  }

  method CollectUnresolved(c: Catalog, q: Query) returns (unresolved: seq<string>)
    ensures unresolved == Unresolved(q.requested, c, q.matches)
  {
    unresolved := [];
    for n := 0 to |q.requested|
      invariant unresolved == Unresolved(q.requested[..n], c, q.matches)
    {
      assert q.requested[..n + 1][..n] == q.requested[..n];
      var package := q.requested[n];
      if !(package in c.uids && q.matches(package)) {
        unresolved := unresolved + [package];
      }
    }
    assert q.requested[..|q.requested|] == q.requested;
  }

  /** Strictly increasing UIDs, one for each user and matched package and no others, and the requested
      packages that were not found, in the order of the request. */
  method ResolveFromCatalog(c: Catalog, q: Query) returns (r: Resolution)
    ensures Resolves(c, q, r)
  {
    hide Covers, HasUid, Unresolved, Increasing;
    var uids := CollectUids(c, q);
    var unresolved := CollectUnresolved(c, q);
    AllDone(uids, c, q);
    r := Resolution(c.source, uids, unresolved);
  }

  lemma AllDone(uids: seq<int>, c: Catalog, q: Query)
    requires Covers(uids, c, q, c.uids.Keys)
    ensures Increasing(uids) && forall uid :: uid in uids <==> HasUid(c, q, uid)
  {
    hide UidOf;
    forall uid ensures uid in uids <==> HasUid(c, q, uid) {
      if uid in uids {
        var p, i :| p in c.uids.Keys && p in c.uids && q.matches(p) && 0 <= i < |q.users| && uid == UidOf(q.users[i], c.uids[p]);
      }
      if HasUid(c, q, uid) {
        var p, i :| p in c.uids && q.matches(p) && 0 <= i < |q.users| && uid == UidOf(q.users[i], c.uids[p]);
        assert p in c.uids.Keys;
      }
    }
  }

  // Choosing among sources. `all` holds the resolution of each source, or none for an empty one.

  type Candidates = seq<Option<Resolution>>

  function Score(r: Resolution, requested: nat): int {
    if requested == 0 then |r.uids| else requested - |r.unresolved|
  }

  predicate Better(r: Resolution, best: Resolution, requested: nat) {
    |r.unresolved| < |best.unresolved| || (|r.unresolved| == |best.unresolved| && Score(r, requested) > Score(best, requested))
  }

  /** The choice among all the sources. */
  function Best(all: Candidates, requested: nat): Option<Resolution> {
    if all == [] then None
    else
      var front, last := Best(all[..|all| - 1], requested), all[|all| - 1];
      if last.None? then front
      else if front.None? || Better(last.value, front.value, requested) then last
      else front
  }

  /** Nothing more to wish for: every request resolved, or nothing requested by name. */
  predicate Complete(r: Option<Resolution>, requested: nat) {
    r.Some? && (requested == 0 || r.value.unresolved == [])
  }

  /** How many sources are asked when asking stops at the first complete one. */
  function Asked(all: Candidates, requested: nat): (n: nat)
    ensures n <= |all|
    ensures forall i :: 0 <= i < n - 1 ==> !Complete(all[i], requested)
    ensures (n > 0 && Complete(all[n - 1], requested)) || (n == |all| && (n > 0 ==> !Complete(all[n - 1], requested)))
  {
    if all == [] then 0 else if Complete(all[0], requested) then 1 else 1 + Asked(all[1..], requested)
  }

  ghost predicate AllResolve(catalogs: seq<Catalog>, q: Query, all: Candidates) {
    |all| == |catalogs| && forall i :: 0 <= i < |all| ==>
      (if catalogs[i].uids == map[] then all[i] == None else all[i].Some? && Resolves(catalogs[i], q, all[i].value))
  }

  ghost predicate AtMost(all: Candidates, requested: nat) {
    forall i :: 0 <= i < |all| && all[i].Some? ==> |all[i].value.unresolved| <= requested
  }

  lemma {:induction false} UnresolvedAtMost(requested: seq<string>, c: Catalog, matches: string -> bool)
    ensures |Unresolved(requested, c, matches)| <= |requested|
  {
    if requested != [] { UnresolvedAtMost(requested[..|requested| - 1], c, matches); }
  }

  lemma ResolvedAtMost(catalogs: seq<Catalog>, q: Query, all: Candidates)
    requires AllResolve(catalogs, q, all)
    ensures AtMost(all, |q.requested|)
  {
    hide Unresolved, HasUid, Increasing;
    forall i | 0 <= i < |all| && all[i].Some? ensures |all[i].value.unresolved| <= |q.requested| {
      UnresolvedAtMost(q.requested, catalogs[i], q.matches);
    }
  }

  lemma BestWithOneMore(all: Candidates, next: Option<Resolution>, requested: nat)
    ensures var best := Best(all, requested);
            Best(all + [next], requested)
              == if next.Some? && (best.None? || Better(next.value, best.value, requested)) then next else best
  {
    assert (all + [next])[..|all|] == all;
  }

  lemma ResolveWithOneMore(catalogs: seq<Catalog>, q: Query, all: Candidates, next: Option<Resolution>)
    requires |all| < |catalogs| && AllResolve(catalogs[..|all|], q, all)
    requires if catalogs[|all|].uids == map[] then next == None else next.Some? && Resolves(catalogs[|all|], q, next.value)
    ensures AllResolve(catalogs[..|all| + 1], q, all + [next])
  {
    hide Resolves;
  }

  /** The loop over the sources, with or without stopping early; the best so far is carried along. */
  method ResolveFromSources(catalogs: seq<Catalog>, q: Query, probeAll: bool) returns (best: Option<Resolution>, asked: nat, ghost all: Candidates)
    ensures asked <= |catalogs| && AllResolve(catalogs[..asked], q, all)
    ensures best == Best(all, |q.requested|)
    ensures probeAll ==> asked == |catalogs|
    ensures !probeAll ==> forall i :: 0 <= i < asked - 1 ==> !Complete(all[i], |q.requested|)
    ensures !probeAll && asked < |catalogs| ==> asked > 0 && Complete(all[asked - 1], |q.requested|)
  {
    hide Resolves, Best, Better;
    best, asked, all := None, 0, [];
    NoneToAsk(|q.requested|);
    while asked < |catalogs|
      invariant asked == |all| <= |catalogs| && AllResolve(catalogs[..asked], q, all)
      invariant best == Best(all, |q.requested|)
      invariant !probeAll ==> forall i :: 0 <= i < asked ==> !Complete(all[i], |q.requested|)
      decreases |catalogs| - asked
    {
      var catalog := catalogs[asked];
      if catalog.uids == map[] {
        BestWithOneMore(all, None, |q.requested|);
        ResolveWithOneMore(catalogs, q, all, None);
        asked, all := asked + 1, all + [None];
      } else {
        var candidate := ResolveFromCatalog(catalog, q);
        BestWithOneMore(all, Some(candidate), |q.requested|);
        ResolveWithOneMore(catalogs, q, all, Some(candidate));
        asked, all := asked + 1, all + [Some(candidate)];
        if best.None? || Better(candidate, best.value, |q.requested|) {
          best := Some(candidate);
        }
        if !probeAll && (|q.requested| == 0 || candidate.unresolved == []) {
          break;
        }
      }
    }
  }

  lemma NoneToAsk(requested: nat)
    ensures Best([], requested) == None
  {
  }

  // The theorem.

  lemma {:induction false} BestIsThere(all: Candidates, requested: nat)
    ensures Best(all, requested).None? <==> forall i :: 0 <= i < |all| ==> all[i].None?
    ensures Best(all, requested).Some? ==> Best(all, requested) in all
  {
    if all != [] {
      var n := |all| - 1;
      BestIsThere(all[..n], requested);
      assert all == all[..n] + [all[n]];
    }
  }

  /** First in order of merit: nobody is better, and everybody before it is worse. */
  ghost predicate FirstFewest(all: Candidates, i: nat) {
    && i < |all| && all[i].Some?
    && (forall j :: 0 <= j < |all| && all[j].Some? ==> |all[i].value.unresolved| <= |all[j].value.unresolved|)
    && (forall j :: 0 <= j < i && all[j].Some? ==> |all[i].value.unresolved| < |all[j].value.unresolved|)
  }

  /** With packages requested by name, the choice is the first source with the fewest unresolved ones. */
  lemma {:induction false} BestIsFirstFewest(all: Candidates, requested: nat) returns (i: nat)
    requires requested > 0 && Best(all, requested).Some?
    ensures FirstFewest(all, i) && Best(all, requested) == all[i]
  {
    var n := |all| - 1;
    BestIsThere(all[..n], requested);
    assert forall j :: 0 <= j < n ==> all[..n][j] == all[j];
    if Best(all[..n], requested).Some? {
      i := BestIsFirstFewest(all[..n], requested);
      if all[n].Some? && Better(all[n].value, all[i].value, requested) { i := n; }
    } else {
      i := n;
    }
  }

  /** With nothing requested by name, the choice is the first source with the most UIDs. */
  lemma {:induction false} BestIsMost(all: Candidates)
    requires forall j :: 0 <= j < |all| && all[j].Some? ==> all[j].value.unresolved == []
    ensures Best(all, 0).Some? ==> forall j :: 0 <= j < |all| && all[j].Some? ==> |all[j].value.uids| <= |Best(all, 0).value.uids|
  {
    if all != [] {
      var n := |all| - 1;
      assert forall j :: 0 <= j < n ==> all[..n][j] == all[j];
      BestIsMost(all[..n]);
      BestIsThere(all[..n], 0);
      if Best(all[..n], 0).Some? { assert Best(all[..n], 0) in all[..n]; }
    }
  }

  /** A complete candidate that stands first among the complete ones is not overtaken. */
  lemma {:induction false} CompleteStays(all: Candidates, n: nat, requested: nat)
    requires requested > 0 && 0 < n <= |all| && Complete(all[n - 1], requested)
    requires forall i :: 0 <= i < n - 1 ==> !Complete(all[i], requested)
    ensures Best(all, requested) == all[n - 1]
  {
    var m := |all| - 1;
    if n == |all| {
      BestIsThere(all[..m], requested);
      if Best(all[..m], requested).Some? {
        var i :| 0 <= i < m && all[..m][i] == Best(all[..m], requested);
        assert all[i] == Best(all[..m], requested);
      }
    } else {
      assert all[..m][n - 1] == all[n - 1];
      CompleteStays(all[..m], n, requested);
    }
  }

  lemma {:induction false} FirstCandidate(all: Candidates, n: nat)
    requires 0 < n <= |all| && all[n - 1].Some? && forall i :: 0 <= i < n - 1 ==> all[i].None?
    ensures Best(all[..n], 0) == all[n - 1]
  {
    BestIsThere(all[..n][..n - 1], 0);
    assert forall i :: 0 <= i < n - 1 ==> all[..n][..n - 1][i] == all[i];
  }

  /** Two equally large results are the later one's only when it replaced nothing. */
  lemma {:induction false} FirstStays(all: Candidates, n: nat)
    requires 0 < n <= |all| && all[n - 1].Some? && forall i :: 0 <= i < n - 1 ==> all[i].None?
    requires forall j :: 0 <= j < |all| && all[j].Some? ==> all[j].value.unresolved == []
    requires forall j :: 0 <= j < |all| && all[j].Some? ==> |all[j].value.uids| <= |all[n - 1].value.uids|
    ensures Best(all, 0) == all[n - 1]
  {
    var m := |all| - 1;
    if n == |all| {
      assert all[..n] == all;
      FirstCandidate(all, n);
    } else {
      assert forall i :: 0 <= i < m ==> all[..m][i] == all[i];
      FirstStays(all[..m], n);
    }
  }

  /** Asking stops at one place only: the first complete source, or the end of the list. */
  lemma StopIsAsked(all: Candidates, n: nat, requested: nat)
    requires n <= |all| && (forall i :: 0 <= i < n - 1 ==> !Complete(all[i], requested))
    requires n < |all| ==> n > 0 && Complete(all[n - 1], requested)
    ensures n == Asked(all, requested)
  {
  }

  /** The first source that lists anything yields as many UIDs as any other. */
  ghost predicate FirstListedIsLargest(all: Candidates) {
    forall i, j :: 0 <= i < |all| && 0 <= j < |all| && FirstListed(all, i) && all[j].Some? ==> |all[j].value.uids| <= |all[i].value.uids|
  }

  ghost predicate FirstListed(all: Candidates, i: nat)
    requires i < |all|
  {
    all[i].Some? && forall k :: 0 <= k < i ==> all[k].None?
  }

  /** Stopping at the first complete source chooses what asking every source chooses, exactly when
      packages are requested by name or the first source that lists anything yields the most UIDs. */
  lemma LazyIsEagerIff(all: Candidates, requested: nat)
    requires AtMost(all, requested)
    ensures Best(all[..Asked(all, requested)], requested) == Best(all, requested) <==> requested > 0 || FirstListedIsLargest(all)
  {
    hide Best;
    var n := Asked(all, requested);
    if n == |all| && (n == 0 || !Complete(all[n - 1], requested)) {
      assert all[..n] == all;
    } else if requested > 0 {
      assert forall i :: 0 <= i < n ==> all[..n][i] == all[i];
      CompleteStays(all, n, requested);
      CompleteStays(all[..n], n, requested);
    } else {
      UnnamedLazyIsEagerIff(all, n);
    }
  }

  ghost predicate MostAt(all: Candidates, i: nat)
    requires i < |all| && all[i].Some?
  {
    forall j :: 0 <= j < |all| && all[j].Some? ==> |all[j].value.uids| <= |all[i].value.uids|
  }

  lemma ListedAfterFirst(all: Candidates, i: nat, k: nat)
    requires i < |all| && FirstListed(all, i) && k < |all| && all[k].Some?
    ensures i <= k
  {
  }

  lemma LargestIff(all: Candidates, i: nat)
    requires i < |all| && FirstListed(all, i)
    ensures FirstListedIsLargest(all) <==> MostAt(all, i)
  {
    forall k | 0 <= k < |all| && FirstListed(all, k) ensures k == i {
      ListedAfterFirst(all, i, k);
      ListedAfterFirst(all, k, i);
    }
  }

  lemma NamelessResolve(all: Candidates)
    requires AtMost(all, 0)
    ensures forall j :: 0 <= j < |all| && all[j].Some? ==> all[j].value.unresolved == []
  {
  }

  lemma MostIsBest(all: Candidates, i: nat)
    requires AtMost(all, 0) && i < |all| && FirstListed(all, i)
    ensures Best(all, 0) == all[i] <==> MostAt(all, i)
  {
    hide Best, AtMost;
    NamelessResolve(all);
    if MostAt(all, i) {
      FirstStays(all, i + 1);
    } else {
      BestIsMost(all);
    }
  }

  lemma UnnamedLazyIsEagerIff(all: Candidates, n: nat)
    requires AtMost(all, 0) && 0 < n <= |all| && FirstListed(all, n - 1)
    ensures Best(all[..n], 0) == Best(all, 0) <==> FirstListedIsLargest(all)
  {
    hide Best, AtMost, FirstListedIsLargest, MostAt;
    FirstCandidate(all, n);
    LargestIff(all, n - 1);
    MostIsBest(all, n - 1);
  }

  /** Two runs of the loop over the same sources, one of which stops early: what the first has seen
      is the beginning of what the second sees. */
  lemma LazyRunIsPrefix(catalogs: seq<Catalog>, q: Query, lazy: Candidates, all: Candidates, asked: nat)
    requires AllResolve(catalogs, q, all) && asked <= |catalogs| && AllResolve(catalogs[..asked], q, lazy)
    ensures lazy == all[..asked]
  {
    hide Resolves;
    forall i | 0 <= i < asked ensures lazy[i] == all[i] {
      assert catalogs[..asked][i] == catalogs[i];
      if catalogs[i].uids != map[] { ResolutionIsUnique(catalogs[i], q, lazy[i].value, all[i].value); }
    }
  }

  /** The loop that stops early returns what the loop over every source returns, exactly when packages
      are requested by name or the first source that lists anything yields the most UIDs: `lazy` and
      `all` are what the two have seen, and the first has asked `asked` sources. */
  lemma LazyRunIsEagerIff(catalogs: seq<Catalog>, q: Query, lazy: Candidates, all: Candidates, asked: nat)
    requires AllResolve(catalogs, q, all) && asked <= |catalogs| && AllResolve(catalogs[..asked], q, lazy)
    requires forall i :: 0 <= i < asked - 1 ==> !Complete(lazy[i], |q.requested|)
    requires asked < |catalogs| ==> asked > 0 && Complete(lazy[asked - 1], |q.requested|)
    ensures Best(lazy, |q.requested|) == Best(all, |q.requested|) <==> q.requested != [] || FirstListedIsLargest(all)
  {
    hide Resolves, Best, Complete, FirstListedIsLargest, AtMost;
    LazyRunIsPrefix(catalogs, q, lazy, all, asked);
    ResolvedAtMost(catalogs, q, all);
    StopIsAsked(all, asked, |q.requested|);
    LazyIsEagerIff(all, |q.requested|);
  }

  /** Both runs, one after the other. */
  method ResolveBothWays(catalogs: seq<Catalog>, q: Query) returns (lazy: Option<Resolution>, eager: Option<Resolution>, ghost all: Candidates)
    ensures AllResolve(catalogs, q, all) && eager == Best(all, |q.requested|)
    ensures lazy == eager <==> q.requested != [] || FirstListedIsLargest(all)
  {
    hide Resolves, Best, Complete, FirstListedIsLargest;
    var asked, total;
    ghost var seen;
    lazy, asked, seen := ResolveFromSources(catalogs, q, false);
    eager, total, all := ResolveFromSources(catalogs, q, true);
    assert catalogs[..total] == catalogs;
    LazyRunIsEagerIff(catalogs, q, seen, all, asked);
  }
}
