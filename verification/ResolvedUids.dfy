/** What a resolution of packages to UIDs holds, and which source's resolution is chosen. */
module ResolvedUids {
  import opened PackageUids

  /** A package's UID for a user: the user's block of a hundred thousand, and the app's place within it. */
  lemma UidMeans(user: int, listed: int)
    ensures var place := UidOf(user, listed) - user * 100000;
            -100000 < place < 100000 && (listed >= 0 ==> place >= 0) && (listed <= 0 ==> place <= 0)
            && exists block :: listed == block * 100000 + place
  {
    var block := if listed >= 0 then listed / 100000 else -((-listed) / 100000);
    assert listed == block * 100000 + Rem(listed, 100000);
  }

  /** The resolved UIDs increase, and are those of the users' listed packages that are taken, and no others. */
  lemma ResolvedUidsAre(c: Catalog, q: Query, r: Resolution)
    requires Resolves(c, q, r)
    ensures r.source == c.source
    ensures forall i, j :: 0 <= i < j < |r.uids| ==> r.uids[i] < r.uids[j]
    ensures forall uid :: uid in r.uids ==>
              exists package, i :: package in c.uids && q.matches(package) && 0 <= i < |q.users| && uid == UidOf(q.users[i], c.uids[package])
    ensures forall package, i :: package in c.uids && q.matches(package) && 0 <= i < |q.users| ==> UidOf(q.users[i], c.uids[package]) in r.uids
  {
    hide UidOf;
    forall package, i | package in c.uids && q.matches(package) && 0 <= i < |q.users| ensures UidOf(q.users[i], c.uids[package]) in r.uids {
      assert HasUid(c, q, UidOf(q.users[i], c.uids[package]));
    }
  }

  // What stays unresolved.

  predicate Found(c: Catalog, matches: string -> bool, package: string) {
    package in c.uids && matches(package)
  }

  /** How many of the first i requests are not found. */
  function MissingBefore(requested: seq<string>, c: Catalog, matches: string -> bool, i: nat): nat
    requires i <= |requested|
  {
    if i == 0 then 0 else MissingBefore(requested, c, matches, i - 1) + if Found(c, matches, requested[i - 1]) then 0 else 1
  }

  lemma {:induction false} MissingFront(requested: seq<string>, c: Catalog, matches: string -> bool, n: nat, i: nat)
    requires i <= n <= |requested|
    ensures MissingBefore(requested[..n], c, matches, i) == MissingBefore(requested, c, matches, i)
  {
    if i > 0 { MissingFront(requested, c, matches, n, i - 1); }
  }

  lemma {:induction false} MissingCount(requested: seq<string>, c: Catalog, matches: string -> bool)
    ensures |Unresolved(requested, c, matches)| == MissingBefore(requested, c, matches, |requested|)
  {
    if requested != [] {
      MissingCount(requested[..|requested| - 1], c, matches);
      MissingFront(requested, c, matches, |requested| - 1, |requested| - 1);
    }
  }

  /** Every request that is not found stays unresolved, in its turn, and nothing else does. */
  lemma {:induction false} UnresolvedAt(requested: seq<string>, c: Catalog, matches: string -> bool, i: nat)
    requires i < |requested|
    ensures var unresolved := Unresolved(requested, c, matches);
            |unresolved| == MissingBefore(requested, c, matches, |requested|)
            && (!Found(c, matches, requested[i]) ==>
                  MissingBefore(requested, c, matches, i) < |unresolved| && unresolved[MissingBefore(requested, c, matches, i)] == requested[i])
  {
    hide Found;
    var n := |requested| - 1;
    MissingCount(requested, c, matches);
    MissingCount(requested[..n], c, matches);
    MissingFront(requested, c, matches, n, n);
    LastRequest(requested, c, matches);
    if i < n {
      UnresolvedAt(requested[..n], c, matches, i);
      MissingFront(requested, c, matches, n, i);
    }
  }

  lemma LastRequest(requested: seq<string>, c: Catalog, matches: string -> bool)
    requires requested != []
    ensures var n := |requested| - 1;
            Unresolved(requested, c, matches) ==
            Unresolved(requested[..n], c, matches) + if Found(c, matches, requested[n]) then [] else [requested[n]]
  {
  }

  // The choice when nothing is requested by name.

  /** No source lists more, and those before it list less. */
  ghost predicate FirstMost(all: Candidates, i: nat) {
    && i < |all| && all[i].Some?
    && (forall j :: 0 <= j < |all| && all[j].Some? ==> |all[j].value.uids| <= |all[i].value.uids|)
    && (forall j :: 0 <= j < i && all[j].Some? ==> |all[j].value.uids| < |all[i].value.uids|)
  }

  lemma {:induction false} BestIsFirstMost(all: Candidates) returns (i: nat)
    requires Best(all, 0).Some?
    requires forall j :: 0 <= j < |all| && all[j].Some? ==> all[j].value.unresolved == []
    ensures FirstMost(all, i) && Best(all, 0) == all[i]
  {
    var n := |all| - 1;
    BestIsThere(all[..n], 0);
    assert forall j :: 0 <= j < n ==> all[..n][j] == all[j];
    if Best(all[..n], 0).Some? {
      i := BestIsFirstMost(all[..n]);
      if all[n].Some? && |all[n].value.uids| > |all[i].value.uids| { i := n; }
    } else {
      i := n;
    }
  }

  /** With nothing requested by name, asking every source chooses the first of those that list the most. */
  lemma MostUidsChosen(catalogs: seq<Catalog>, q: Query, all: Candidates) returns (i: nat)
    requires AllResolve(catalogs, q, all) && q.requested == [] && Best(all, 0).Some?
    ensures FirstMost(all, i) && Best(all, |q.requested|) == all[i]
  {
    hide Best, Resolves, FirstMost;
    ResolvedAtMost(catalogs, q, all);
    NamelessResolve(all);
    i := BestIsFirstMost(all);
  }

  /** With packages requested by name, it chooses the first of those that leave the fewest unresolved. */
  lemma FewestMissingChosen(catalogs: seq<Catalog>, q: Query, all: Candidates) returns (i: nat)
    requires AllResolve(catalogs, q, all) && q.requested != [] && Best(all, |q.requested|).Some?
    ensures i < |all| && Best(all, |q.requested|) == all[i] && all[i].Some?
    ensures forall j :: 0 <= j < |all| && all[j].Some? ==> |all[i].value.unresolved| <= |all[j].value.unresolved|
    ensures forall j :: 0 <= j < i && all[j].Some? ==> |all[i].value.unresolved| < |all[j].value.unresolved|
  {
    hide Best, Resolves;
    i := BestIsFirstFewest(all, |q.requested|);
  }
}
