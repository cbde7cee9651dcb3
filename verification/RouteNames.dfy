/** Which group a route reaches, told from the names of the groups alone. */
module RouteNames {
  import opened Text
  import opened ProxyNode
  import opened OutboundGraph
  import opened GraphFacts
  import opened GroupNaming
  import opened RouteFacts

  /** No three groups sanitise alike, and no group is called like another one and `-2`. */
  ghost predicate Paired(raws: seq<string>) {
    && (forall i, j, k :: 0 <= i < |raws| && 0 <= j < |raws| && 0 <= k < |raws| && i != j && j != k && i != k && raws[i] == raws[j] ==> raws[j] != raws[k])
    && (forall i, j :: 0 <= i < |raws| && 0 <= j < |raws| ==> raws[i] != raws[j] + "-2")
  }

  /** Another group that sanitises alike comes before this one. */
  ghost predicate Second(names: seq<string>, name: string) {
    exists j :: 0 <= j < |names| && names[j] == name && RawBase(name) in Raws(names)[..j]
  }

  /** The route of group `group` reaches group `name`: that one has a node that renders, sanitises alike,
      and comes second among those that render exactly if the other one does among the usable ones. */
  ghost predicate Reaches(usable: seq<string>, rendered: seq<string>, group: string, name: string) {
    name in rendered && RawBase(name) == RawBase(group) && (Second(rendered, name) <==> Second(usable, group))
  }

  lemma {:induction false} FirstPlace(s: seq<string>, x: string) returns (i: nat)
    requires x in s
    ensures i < |s| && s[i] == x && x !in s[..i]
  {
    if s[0] == x {
      i := 0;
    } else {
      i := FirstPlace(s[1..], x);
      assert s[..i + 1] == [s[0]] + s[1..][..i];
      i := i + 1;
    }
  }

  lemma PairedFront(raws: seq<string>)
    requires raws != [] && Paired(raws)
    ensures Paired(raws[..|raws| - 1])
  {
    assert forall i :: 0 <= i < |raws| - 1 ==> raws[..|raws| - 1][i] == raws[i];
  }

  /** In pairs, the first keeps its raw name and the second gets `-2`. */
  lemma {:induction false} NamedInPairs(raws: seq<string>)
    requires Paired(raws)
    ensures NoClash(raws) && |Named(raws)| == |raws|
    ensures forall i :: 0 <= i < |raws| ==> Named(raws)[i] == if raws[i] in raws[..i] then raws[i] + "-2" else raws[i]
  {
    hide Paired;
    if raws != [] {
      var n := |raws| - 1;
      PairedFront(raws);
      NamedInPairs(raws[..n]);
      LastInPairs(raws);
      forall i | 0 <= i < n ensures raws[..n][i] == raws[i] && raws[..n][..i] == raws[..i] {
      }
    }
  }

  lemma LastInPairs(raws: seq<string>)
    requires raws != [] && Paired(raws) && |Named(raws[..|raws| - 1])| == |raws| - 1
    requires forall i :: 0 <= i < |raws| - 1 ==> Named(raws[..|raws| - 1])[i] == if raws[i] in raws[..i] then raws[i] + "-2" else raws[i]
    ensures var front, last := Named(raws[..|raws| - 1]), raws[|raws| - 1];
            (last in front <==> last in raws[..|raws| - 1]) && last + "-2" !in front
  {
    hide Named;
    var n := |raws| - 1;
    var front, last := Named(raws[..n]), raws[n];
    if last in raws[..n] {
      var i := FirstPlace(raws[..n], last);
      assert raws[..n][..i] == raws[..i] && front[i] == last;
    }
    forall i | 0 <= i < n ensures front[i] != last + "-2" && (front[i] == last ==> raws[..n][i] == last) {
      assert raws[n] != raws[i] + "-2" && raws[i] != raws[n] + "-2";
      if raws[i] in raws[..i] { LastIsNoThird(raws, i); }
    }
  }

  lemma LastIsNoThird(raws: seq<string>, i: nat)
    requires i < |raws| - 1 && Paired(raws) && raws[i] in raws[..i]
    ensures raws[i] + "-2" != raws[|raws| - 1] + "-2"
  {
    var j :| 0 <= j < i && raws[j] == raws[i];
    assert (raws[i] + "-2")[..|raws[i]|] == raws[i];
    assert (raws[|raws| - 1] + "-2")[..|raws[|raws| - 1]|] == raws[|raws| - 1];
  }

  lemma FewerPaired(few: seq<string>, all: seq<string>)
    requires AllDifferent(few) && Paired(Raws(all)) && forall name :: name in few ==> name in all
    ensures Paired(Raws(few))
  {
    hide RawBase;
    forall i | 0 <= i < |few| ensures exists a :: 0 <= a < |all| && all[a] == few[i] && Raws(all)[a] == Raws(few)[i] {
      assert few[i] in few;
      var a :| 0 <= a < |all| && all[a] == few[i];
      assert Raws(all)[a] == Raws(few)[i];
    }
  }

  lemma NamesAndPlans(profiles: seq<NodeProfile>, name: string)
    ensures HasPlan(Plans(profiles), name) <==> name in GroupNames(profiles)
    ensures HasPlan(Plans(profiles), name) ==>
              var i := PlanIndex(Plans(profiles), name); i < |GroupNames(profiles)| && GroupNames(profiles)[i] == name
  {
    hide Plans, GroupNames;
    PlansInStep(profiles);
    IndexOfName(Plans(profiles), name);
    var i := PlanIndex(Plans(profiles), name);
    if i < |Plans(profiles)| { assert Names(Plans(profiles))[i] == name; }
  }

  lemma SecondHere(names: seq<string>, i: nat)
    requires AllDifferent(names) && i < |names|
    ensures Second(names, names[i]) <==> RawBase(names[i]) in Raws(names)[..i]
  {
    hide RawBase;
    forall j | 0 <= j < |names| && names[j] == names[i] ensures j == i {
      OnlyPlace(names, i, j);
    }
  }

  lemma OnlyPlace(names: seq<string>, i: nat, j: nat)
    requires AllDifferent(names) && i < |names| && j < |names| && names[i] == names[j]
    ensures i == j
  {
  }

  lemma BaseByName(profiles: seq<NodeProfile>, name: string)
    requires Paired(Raws(GroupNames(profiles))) && HasPlan(Plans(profiles), name)
    ensures BaseOf(Plans(profiles), name) == if Second(GroupNames(profiles), name) then RawBase(name) + "-2" else RawBase(name)
  {
    hide Plans, GroupNames, RawBase, Named, NoClash, PlanIndex, Paired, Second;
    var names, i := GroupNames(profiles), PlanIndex(Plans(profiles), name);
    NamesAndPlans(profiles, name);
    GroupNamesAre(profiles, name);
    NamedInPairs(Raws(names));
    BasesDifferIff(profiles);
    SecondHere(names, i);
    assert Bases(Plans(profiles))[i] == Plans(profiles)[i].base;
  }

  lemma SameBaseIff(a: string, b: string, s: bool, t: bool)
    requires a != b + "-2" && b != a + "-2"
    ensures (if s then a + "-2" else a) == (if t then b + "-2" else b) <==> a == b && s == t
  {
    assert (a + "-2")[..|a|] == a && (b + "-2")[..|b|] == b;
    assert |a + "-2"| == |a| + 2 && |b + "-2"| == |b| + 2;
  }

  lemma RawsApart(names: seq<string>, a: string, b: string)
    requires Paired(Raws(names)) && a in names && b in names
    ensures RawBase(a) != RawBase(b) + "-2"
  {
    hide RawBase;
    var i :| 0 <= i < |names| && names[i] == a;
    var j :| 0 <= j < |names| && names[j] == b;
    assert Raws(names)[i] == RawBase(a) && Raws(names)[j] == RawBase(b);
  }

  /** Where groups sanitise alike in pairs at most, group names decide: the package that is routed to
      its group reaches exactly the groups that the names say. */
  lemma RouteReachesByNames(cfg: Config, resolved: NodeProfile, renders: Renders, key: string, name: string)
    requires Outbounds(cfg, resolved, renders).Some? && Paired(Raws(GroupNames(Usable(cfg.nodes))))
    requires key in cfg.appGroups && RouteOf(cfg, Plans(Usable(cfg.nodes)), key).Some?
    ensures var usable, sources := Usable(cfg.nodes), Sources(cfg, resolved, renders).value;
            LeadsToGroup(Outbounds(cfg, resolved, renders).value, Plans(sources), RouteOf(cfg, Plans(usable), key).value, name) <==>
            Reaches(GroupNames(usable), GroupNames(sources), Trim(cfg.appGroups[key]), name)
  {
    hide Usable, Sources, Graph, Trim, Plans, RouteOf, HasPlan, BaseOf, LeadsToGroup, RawBase, GroupNames, Raws, AllDifferent, Paired, Second;
    var usable, sources, group := Usable(cfg.nodes), Sources(cfg, resolved, renders).value, Trim(cfg.appGroups[key]);
    RouteReachesIff(cfg, resolved, renders, key, name);
    NamesAndPlans(usable, group);
    NamesAndPlans(sources, name);
    NamelessWithoutNodes(usable, group);
    BaseByName(usable, group);
    GroupNamesAre(sources, name);
    forall n ensures n in GroupNames(sources) ==> n in GroupNames(usable) {
      SourceGroups(cfg, resolved, renders, n);
    }
    FewerPaired(GroupNames(sources), GroupNames(usable));
    if name in GroupNames(sources) {
      BaseByName(sources, name);
      RawsApart(GroupNames(usable), name, group);
      RawsApart(GroupNames(usable), group, name);
      SameBaseIff(RawBase(name), RawBase(group), Second(GroupNames(sources), name), Second(GroupNames(usable), group));
    }
  }

  /** And it leads nowhere exactly if the names say that it reaches no group. */
  lemma RouteDanglesIff(cfg: Config, resolved: NodeProfile, renders: Renders, key: string)
    requires Outbounds(cfg, resolved, renders).Some? && Paired(Raws(GroupNames(Usable(cfg.nodes))))
    requires key in cfg.appGroups && RouteOf(cfg, Plans(Usable(cfg.nodes)), key).Some?
    ensures var usable, sources := Usable(cfg.nodes), Sources(cfg, resolved, renders).value;
            Leads(Outbounds(cfg, resolved, renders).value, RouteOf(cfg, Plans(usable), key).value) <==>
            exists name :: Reaches(GroupNames(usable), GroupNames(sources), Trim(cfg.appGroups[key]), name)
  {
    hide Usable, Sources, Graph, Trim, Plans, RouteOf, HasPlan, BaseOf, LeadsToGroup, GroupNames, Raws, Paired, Reaches, WellTagged, GroupTags, Leads;
    var plans, sources, group := Plans(Usable(cfg.nodes)), Sources(cfg, resolved, renders).value, Trim(cfg.appGroups[key]);
    RouteIsItsBase(cfg, plans, key);
    SourcesWellTagged(cfg, resolved, renders);
    GroupTagLeads(cfg, sources, RouteOf(cfg, plans, key).value);
    TagHasBase(Plans(sources), BaseOf(plans, group));
    forall name
      ensures Reaches(GroupNames(Usable(cfg.nodes)), GroupNames(sources), group, name) <==>
              HasPlan(Plans(sources), name) && BaseOf(Plans(sources), name) == BaseOf(plans, group)
    {
      RouteReachesByNames(cfg, resolved, renders, key, name);
      RouteReachesIff(cfg, resolved, renders, key, name);
    }
    HasBaseByName(sources, BaseOf(plans, group));
    if name :| HasPlan(Plans(sources), name) && BaseOf(Plans(sources), name) == BaseOf(plans, group) {
      assert Reaches(GroupNames(Usable(cfg.nodes)), GroupNames(sources), group, name);
    }
  }

  lemma HasBaseByName(profiles: seq<NodeProfile>, base: string)
    ensures HasBase(Plans(profiles), base) <==> exists name :: HasPlan(Plans(profiles), name) && BaseOf(Plans(profiles), name) == base
  {
    hide Plans, PlanIndex;
    var plans := Plans(profiles);
    if i :| 0 <= i < |plans| && plans[i].base == base {
      OnePlanForEach(profiles, i);
      assert HasPlan(plans, plans[i].name) && BaseOf(plans, plans[i].name) == base;
    }
    if name :| HasPlan(plans, name) && BaseOf(plans, name) == base {
      assert plans[PlanIndex(plans, name)].base == base;
    }
  }
}
