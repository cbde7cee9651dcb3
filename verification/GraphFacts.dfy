/** The compiled outbound graph is closed and has no cycle. */
module GraphFacts {
  import opened Basics
  import opened Text
  import opened ProxyNode
  import opened OutboundGraph

  function Refs(o: Outbound): seq<string> {
    match o
    case UrlTest(_, members) => members
    case Selector(_, members, chosen) => members + [chosen]
    case _ => []
  }

  ghost predicate Emits(outs: seq<Outbound>, tag: string) {
    exists i :: 0 <= i < |outs| && outs[i].tag == tag
  }

  /** Every outbound that an outbound names is there. */
  ghost predicate Closed(outs: seq<Outbound>) {
    forall o, tag :: o in outs && tag in Refs(o) ==> Emits(outs, tag)
  }

  lemma EmitsAppend(a: seq<Outbound>, b: seq<Outbound>, tag: string)
    ensures Emits(a + b, tag) <==> Emits(a, tag) || Emits(b, tag)
  {
    if i :| 0 <= i < |a| && a[i].tag == tag {
      assert (a + b)[i].tag == tag;
    }
    if i :| 0 <= i < |b| && b[i].tag == tag {
      assert (a + b)[|a| + i].tag == tag;
    }
  }

  // Where the tags come from.

  lemma {:induction false} UsableTagged(nodes: seq<StoredNode>)
    ensures forall p :: p in Usable(nodes) ==> NodeTag(p.tag) && Trim(p.tag) == p.tag && p.tag != ""
  {
    hide OutboundTag, Trim;
    if nodes != [] {
      var n := |nodes| - 1;
      UsableTagged(nodes[..n]);
      if nodes[n].Stored? { TagsOfNodes(nodes[n].profile, n); }
    }
  }

  lemma {:induction false} RenderableAreUsable(profiles: seq<NodeProfile>, activeId: string, xhttpId: string, renders: Renders)
    ensures var r := Renderable(profiles, activeId, xhttpId, renders);
            r.Some? ==> forall p :: p in r.value ==> p in profiles && !Skipped(p, xhttpId) && renders(p)
  {
    hide Skipped;
    if profiles != [] {
      RenderableAreUsable(profiles[..|profiles| - 1], activeId, xhttpId, renders);
      assert profiles[|profiles| - 1] in profiles;
    }
  }

  /** One source is the proxy itself; several sources all carry node tags. */
  predicate WellTagged(sources: seq<NodeProfile>) {
    sources != [] && (if |sources| == 1 then sources[0].tag == "proxy" else forall p :: p in sources ==> NodeTag(p.tag))
  }

  lemma SourcesWellTagged(cfg: Config, resolved: NodeProfile, renders: Renders)
    ensures Sources(cfg, resolved, renders).Some? ==> WellTagged(Sources(cfg, resolved, renders).value)
  {
    hide Usable, Trim, Decimal;
    UsableTagged(cfg.nodes);
    RenderableAreUsable(Usable(cfg.nodes), Trim(cfg.activeNodeId), ActiveXhttpId(cfg), renders);
    var renderable := RenderableNodes(cfg, renders);
    if renderable.Some? {
      forall p | p in Retagged(renderable.value) && |renderable.value| > 1 ensures NodeTag(p.tag) {
        var i :| 0 <= i < |renderable.value| && p == Retagged(renderable.value)[i];
        assert renderable.value[i] in renderable.value;
      }
    }
  }

  // Plans.

  ghost predicate GoodPlans(plans: seq<Plan>, tags: seq<string>) {
    forall plan :: plan in plans ==> plan.tags != [] && forall tag :: tag in plan.tags ==> tag in tags
  }

  lemma {:induction false} PlansAreGood(profiles: seq<NodeProfile>)
    ensures GoodPlans(Plans(profiles), Tags(profiles))
  {
    hide Trim, FreshBase, PlanIndex;
    if profiles != [] {
      var n := |profiles| - 1;
      PlansAreGood(profiles[..n]);
      assert Tags(profiles) == Tags(profiles[..n]) + [profiles[n].tag];
      var plans := Plans(profiles[..n]);
      forall plan | plan in Plans(profiles) ensures plan.tags != [] && forall tag :: tag in plan.tags ==> tag in Tags(profiles) {
        var i := PlanIndex(plans, Trim(profiles[n].group));
        if plan !in plans && i < |plans| { assert plans[i] in plans; }
      }
    }
  }

  lemma {:induction false} GroupsEmit(plans: seq<Plan>, tag: string)
    requires forall plan :: plan in plans ==> plan.tags != []
    ensures tag in GroupTags(plans) ==> Emits(AllGroups(plans), tag)
    ensures Emits(AllGroups(plans), tag) ==> exists plan :: plan in plans && (tag == GroupTag(plan) || (tag == AutoTag(plan) && |plan.tags| > 1))
  {
    hide GroupTag, AutoTag;
    if plans != [] {
      var n := |plans| - 1;
      var last := plans[n];
      GroupsEmit(plans[..n], tag);
      EmitsAppend(AllGroups(plans[..n]), GroupOutbounds(last), tag);
      assert GroupTags(plans) == GroupTags(plans[..n]) + [GroupTag(last)];
      assert last in plans;
      assert GroupOutbounds(last)[|GroupOutbounds(last)| - 1].tag == GroupTag(last);
    }
  }

  lemma {:induction false} GroupRefs(plans: seq<Plan>, o: Outbound)
    requires o in AllGroups(plans)
    ensures exists plan :: plan in plans && o in GroupOutbounds(plan)
  {
    if plans != [] {
      var n := |plans| - 1;
      if o in AllGroups(plans[..n]) {
        GroupRefs(plans[..n], o);
        var plan :| plan in plans[..n] && o in GroupOutbounds(plan);
        assert plan in plans;
      } else {
        assert plans[n] in plans;
      }
    }
  }

  lemma {:induction false} GroupEmitsItsOwn(plans: seq<Plan>, plan: Plan)
    requires plan in plans
    ensures forall o :: o in GroupOutbounds(plan) ==> Emits(AllGroups(plans), o.tag)
  {
    hide GroupOutbounds;
    var n := |plans| - 1;
    var front, last := AllGroups(plans[..n]), GroupOutbounds(plans[n]);
    forall o | o in GroupOutbounds(plan) ensures Emits(AllGroups(plans), o.tag) {
      EmitsAppend(front, last, o.tag);
      if plan != plans[n] { GroupEmitsItsOwn(plans[..n], plan); }
    }
  }

  // Closedness.

  lemma GraphEmits(cfg: Config, profiles: seq<NodeProfile>, tag: string)
    ensures tag in Tags(profiles) ==> Emits(Graph(cfg, profiles), tag)
    ensures Emits(Choice(cfg, profiles), tag) ==> Emits(Graph(cfg, profiles), tag)
    ensures Emits(AllGroups(Plans(profiles)), tag) ==> Emits(Graph(cfg, profiles), tag)
    ensures Emits(Graph(cfg, profiles), "direct")
  {
    hide Choice, AllGroups, Plans;
    var nodes, choice, groups := NodeOuts(profiles), Choice(cfg, profiles), AllGroups(Plans(profiles));
    forall t: string ensures Emits(Graph(cfg, profiles), t) <==> Emits(nodes, t) || Emits(choice, t) || Emits(groups, t) || Emits([Direct("direct")], t) {
      EmitsAppend(nodes, choice, t);
      EmitsAppend(nodes + choice, groups, t);
      EmitsAppend(nodes + choice + groups, [Direct("direct")], t);
    }
    assert [Direct("direct")][0].tag == "direct";
    if tag in Tags(profiles) {
      var i :| 0 <= i < |profiles| && profiles[i].tag == tag;
      assert nodes[i].tag == tag;
    }
  }

  lemma {:induction false} ActiveTagIsATag(profiles: seq<NodeProfile>, id: string)
    ensures FirstTag(profiles, id) == "" || FirstTag(profiles, id) in Tags(profiles)
  {
    if profiles != [] {
      ActiveTagIsATag(profiles[1..], id);
      assert Tags(profiles) == [profiles[0].tag] + Tags(profiles[1..]);
    }
  }

  lemma ChoiceRefs(cfg: Config, profiles: seq<NodeProfile>, tag: string)
    requires |profiles| > 1
    ensures (exists o :: o in Choice(cfg, profiles) && tag in Refs(o)) ==>
              tag == "auto" || tag in Tags(profiles) || tag in GroupTags(Plans(profiles))
    ensures Emits(Choice(cfg, profiles), "auto") && Emits(Choice(cfg, profiles), "proxy")
  {
    hide Plans, Trim;
    ActiveTagIsATag(profiles, Trim(cfg.activeNodeId));
    assert Choice(cfg, profiles)[0].tag == "auto" && Choice(cfg, profiles)[1].tag == "proxy";
  }

  lemma GraphIsClosed(cfg: Config, profiles: seq<NodeProfile>)
    requires WellTagged(profiles)
    ensures Closed(Graph(cfg, profiles)) && Emits(Graph(cfg, profiles), "proxy") && Emits(Graph(cfg, profiles), "direct")
    ensures forall tag :: tag in GroupTags(Plans(profiles)) ==> Emits(Graph(cfg, profiles), tag)
  {
    hide Plans, Choice, NodeTag, GroupOutbounds, AllGroups, Graph;
    var graph, plans := Graph(cfg, profiles), Plans(profiles);
    PlansAreGood(profiles);
    GraphEmits(cfg, profiles, "proxy");
    GraphEmits(cfg, profiles, "auto");
    if |profiles| > 1 { ChoiceRefs(cfg, profiles, "auto"); } else { assert Tags(profiles)[0] == "proxy"; }
    forall tag | tag in GroupTags(plans) ensures Emits(graph, tag) {
      GroupsEmit(plans, tag);
      GraphEmits(cfg, profiles, tag);
    }
    forall o, tag | o in graph && tag in Refs(o) ensures Emits(graph, tag) {
      GraphEmits(cfg, profiles, tag);
      RefsAreKnown(cfg, profiles, o, tag);
    }
  }

  lemma RefsAreKnown(cfg: Config, profiles: seq<NodeProfile>, o: Outbound, tag: string)
    requires o in Graph(cfg, profiles) && tag in Refs(o) && GoodPlans(Plans(profiles), Tags(profiles))
    ensures tag in Tags(profiles) || (tag == "auto" && |profiles| > 1) || tag in GroupTags(Plans(profiles)) || Emits(AllGroups(Plans(profiles)), tag)
  {
    hide Plans, Choice, AllGroups;
    var plans := Plans(profiles);
    if o in Choice(cfg, profiles) {
      if |profiles| > 1 { ChoiceRefs(cfg, profiles, tag); } else { NoChoice(cfg, profiles); }
    } else if o in AllGroups(plans) {
      GroupRefs(plans, o);
      var plan :| plan in plans && o in GroupOutbounds(plan);
      GroupEmitsItsOwn(plans, plan);
      if |plan.tags| > 1 { assert GroupOutbounds(plan)[0] in GroupOutbounds(plan); }
    }
  }

  lemma NoChoice(cfg: Config, profiles: seq<NodeProfile>)
    requires |profiles| <= 1
    ensures Choice(cfg, profiles) == []
  {
  }

  /** Whatever nodes render, the outbounds name each other and nothing else, and the two that every
      other part of the configuration names, `proxy` and `direct`, are among them. */
  lemma OutboundsAreClosed(cfg: Config, resolved: NodeProfile, renders: Renders)
    ensures Outbounds(cfg, resolved, renders).Some? ==>
              var outs := Outbounds(cfg, resolved, renders).value; Closed(outs) && Emits(outs, "proxy") && Emits(outs, "direct")
  {
    hide Sources, Graph, WellTagged;
    if Outbounds(cfg, resolved, renders).Some? {
      SourcesWellTagged(cfg, resolved, renders);
      GraphIsClosed(cfg, Sources(cfg, resolved, renders).value);
    }
  }

  // Routes.

  ghost predicate SamePlanNames(a: PlanTable, b: PlanTable) {
    a.used == b.used && |a.plans| == |b.plans| &&
    forall i :: 0 <= i < |a.plans| ==> a.plans[i].name == b.plans[i].name && a.plans[i].base == b.plans[i].base
  }

  lemma {:induction false} SameIndex(a: seq<Plan>, b: seq<Plan>, name: string)
    requires |a| == |b| && forall i :: 0 <= i < |a| ==> a[i].name == b[i].name
    ensures PlanIndex(a, name) == PlanIndex(b, name)
  {
    if a != [] { SameIndex(a[1..], b[1..], name); }
  }

  /** Plans take their names and bases from the groups alone. */
  lemma {:induction false} PlansFollowGroups(a: seq<NodeProfile>, b: seq<NodeProfile>)
    requires |a| == |b| && forall i :: 0 <= i < |a| ==> a[i].group == b[i].group && a[i].tag != "" && b[i].tag != ""
    ensures SamePlanNames(PlanAll(a), PlanAll(b))
  {
    hide Trim, FreshBase, PlanIndex;
    if a != [] {
      var n := |a| - 1;
      PlansFollowGroups(a[..n], b[..n]);
      SameIndex(Plans(a[..n]), Plans(b[..n]), Trim(a[n].group));
    }
  }

  /** If every usable node renders, every outbound is there that the routes, the last resort or the
      resolver name: the routes are planned from the usable nodes, the outbounds from those that render. */
  lemma RoutesLeadSomewhere(cfg: Config, resolved: NodeProfile, renders: Renders, rules: map<string, set<string>>)
    requires Outbounds(cfg, resolved, renders).Some?
    requires RenderableNodes(cfg, renders) == Some(Usable(cfg.nodes))
    requires RoutesGroups(cfg, Plans(Usable(cfg.nodes)), cfg.appGroups.Keys, rules)
    ensures forall tag :: tag in References(cfg, resolved, rules) ==> Emits(Outbounds(cfg, resolved, renders).value, tag)
  {
    hide Graph, WellTagged, Usable, RenderableNodes, PlanAll, Trim;
    var usable, sources := Usable(cfg.nodes), Sources(cfg, resolved, renders).value;
    SourcesWellTagged(cfg, resolved, renders);
    GraphIsClosed(cfg, sources);
    forall tag | tag in rules ensures Emits(Outbounds(cfg, resolved, renders).value, tag) {
      RuleHasPlan(cfg, Plans(usable), rules, tag);
      if usable == [] {
        NoNodesNoPlans();
      } else {
        RetaggedKeepsGroups(cfg.nodes);
        PlansFollowGroups(usable, sources);
        var i :| 0 <= i < |Plans(usable)| && tag == GroupTag(Plans(usable)[i]);
        assert GroupTags(Plans(sources))[i] == tag;
      }
    }
  }

  lemma NoNodesNoPlans()
    ensures Plans([]) == []
  {
  }

  lemma RuleHasPlan(cfg: Config, plans: seq<Plan>, rules: map<string, set<string>>, tag: string)
    requires RoutesGroups(cfg, plans, cfg.appGroups.Keys, rules) && tag in rules
    ensures exists i :: 0 <= i < |plans| && tag == GroupTag(plans[i])
  {
    hide Trim, GroupTag;
    var package :| package in rules[tag];
    var key :| key in cfg.appGroups.Keys && RouteOf(cfg, plans, key) == Some(tag) && Trim(key) == package;
  }

  lemma RetaggedKeepsGroups(nodes: seq<StoredNode>)
    ensures var usable := Usable(nodes);
            |Retagged(usable)| == |usable|
            && forall i :: 0 <= i < |usable| ==> Retagged(usable)[i].group == usable[i].group && usable[i].tag != "" && Retagged(usable)[i].tag != ""
  {
    hide Usable, Decimal;
    UsableTagged(nodes);
    var usable := Usable(nodes);
    forall i | 0 <= i < |usable| ensures usable[i].tag != "" {
      assert usable[i] in usable;
    }
  }

  // No cycles.

  function LongestTag(plans: seq<Plan>): (n: nat)
    ensures forall plan :: plan in plans ==> |AutoTag(plan)| <= n
  {
    if plans == [] then 0
    else
      var front, last := LongestTag(plans[..|plans| - 1]), |AutoTag(plans[|plans| - 1])|;
      if front < last then last else front
  }

  /** Nodes at the bottom, then the automatic choice, then groups, longer tags below shorter ones, and
      the proxy selector on top: a group called `x-auto` shares a tag with the automatic choice of group
      `x`, but lies below the selector of `x` all the same. */
  function Rank(tag: string, single: bool, longest: nat): int {
    if NodeTag(tag) || tag == "direct" || (single && tag == "proxy") then 0
    else if tag == "auto" then 1
    else if tag == "proxy" then longest + 3
    else 2 + longest - |tag|
  }

  lemma GroupRank(plan: Plan, single: bool, longest: nat)
    ensures Rank(GroupTag(plan), single, longest) == 2 + longest - |GroupTag(plan)|
    ensures Rank(AutoTag(plan), single, longest) == 2 + longest - |AutoTag(plan)|
    ensures |AutoTag(plan)| > |GroupTag(plan)|
  {
    assert GroupTag(plan)[0] == 'g' && AutoTag(plan)[0] == 'g';
  }

  ghost predicate Descends(outs: seq<Outbound>, single: bool, longest: nat) {
    forall o, tag :: o in outs && tag in Refs(o) ==> Rank(tag, single, longest) < Rank(o.tag, single, longest)
  }

  lemma GroupsDescend(plans: seq<Plan>, tags: seq<string>, single: bool, longest: nat, o: Outbound, tag: string)
    requires GoodPlans(plans, tags) && longest >= LongestTag(plans)
    requires forall t :: t in tags ==> Rank(t, single, longest) == 0
    requires o in AllGroups(plans) && tag in Refs(o)
    ensures Rank(tag, single, longest) < Rank(o.tag, single, longest)
  {
    hide Rank, AllGroups, GroupTag, AutoTag;
    GroupRefs(plans, o);
    var plan :| plan in plans && o in GroupOutbounds(plan);
    GroupRank(plan, single, longest);
  }

  lemma GraphDescends(cfg: Config, profiles: seq<NodeProfile>)
    requires WellTagged(profiles)
    ensures Descends(Graph(cfg, profiles), |profiles| == 1, LongestTag(Plans(profiles)))
  {
    hide Plans, Choice, AllGroups, GroupTag, AutoTag, Rank, LongestTag;
    var graph, plans, single, longest := Graph(cfg, profiles), Plans(profiles), |profiles| == 1, LongestTag(Plans(profiles));
    PlansAreGood(profiles);
    forall t | t in Tags(profiles) ensures Rank(t, single, longest) == 0 {
      var i :| 0 <= i < |profiles| && profiles[i].tag == t;
      assert profiles[i] in profiles;
      NodesAtTheBottom(t, single, longest);
    }
    forall o, tag | o in graph && tag in Refs(o) ensures Rank(tag, single, longest) < Rank(o.tag, single, longest) {
      if o in AllGroups(plans) {
        GroupsDescend(plans, Tags(profiles), single, longest, o, tag);
      } else if o in Choice(cfg, profiles) {
        ChoiceDescends(cfg, profiles, o, tag);
      }
    }
  }

  lemma NodesAtTheBottom(tag: string, single: bool, longest: nat)
    ensures NodeTag(tag) || (single && tag == "proxy") ==> Rank(tag, single, longest) == 0
    ensures Rank("auto", false, longest) == 1 && Rank("proxy", false, longest) == longest + 3
  {
    assert "auto"[0] == 'a' && "proxy"[0] == 'p' && "node-"[0] == 'n';
  }

  lemma ChoiceDescends(cfg: Config, profiles: seq<NodeProfile>, o: Outbound, tag: string)
    requires o in Choice(cfg, profiles) && tag in Refs(o)
    requires forall t :: t in Tags(profiles) ==> Rank(t, |profiles| == 1, LongestTag(Plans(profiles))) == 0
    ensures var single, longest := |profiles| == 1, LongestTag(Plans(profiles));
            Rank(tag, single, longest) < Rank(o.tag, single, longest)
  {
    hide Plans, Rank, GroupTag, AutoTag, LongestTag, Trim;
    var longest, plans := LongestTag(Plans(profiles)), Plans(profiles);
    NodesAtTheBottom(tag, false, longest);
    ActiveTagIsATag(profiles, Trim(cfg.activeNodeId));
    if tag in GroupTags(plans) {
      var i :| 0 <= i < |plans| && GroupTags(plans)[i] == tag;
      GroupRank(plans[i], false, longest);
    }
  }

  /** A walk along the references: each tag is named by an outbound that carries the tag before it. */
  ghost predicate Walk(outs: seq<Outbound>, path: seq<string>) {
    forall k :: 0 <= k < |path| - 1 ==> Step(outs, path[k], path[k + 1])
  }

  ghost predicate Step(outs: seq<Outbound>, a: string, b: string) {
    exists o :: o in outs && o.tag == a && b in Refs(o)
  }

  lemma {:induction false} WalkDescends(outs: seq<Outbound>, path: seq<string>, i: nat, j: nat, single: bool, longest: nat)
    requires Descends(outs, single, longest) && Walk(outs, path) && i < j < |path|
    ensures Rank(path[j], single, longest) < Rank(path[i], single, longest)
  {
    hide Rank, Refs;
    assert Step(outs, path[j - 1], path[j - 1 + 1]);
    if i < j - 1 { WalkDescends(outs, path, i, j - 1, single, longest); }
  }

  /** No walk along the compiled graph ever comes back to a tag, group names ending in `-auto` included. */
  lemma OutboundsHaveNoCycle(cfg: Config, resolved: NodeProfile, renders: Renders, path: seq<string>, i: nat, j: nat)
    requires i < j < |path|
    ensures Outbounds(cfg, resolved, renders).Some? && Walk(Outbounds(cfg, resolved, renders).value, path) ==> path[i] != path[j]
  {
    hide Sources, Graph, WellTagged, Rank, Descends, LongestTag, Walk;
    if Outbounds(cfg, resolved, renders).Some? && Walk(Outbounds(cfg, resolved, renders).value, path) {
      var sources := Sources(cfg, resolved, renders).value;
      SourcesWellTagged(cfg, resolved, renders);
      GraphDescends(cfg, sources);
      WalkDescends(Graph(cfg, sources), path, i, j, |sources| == 1, LongestTag(Plans(sources)));
    }
  }
}
