/** Which names of the configuration lead to an outbound when not every usable node renders. */
module RouteFacts {
  import opened Basics
  import opened Text
  import opened ProxyNode
  import opened OutboundGraph
  import opened GraphFacts
  import opened GroupNaming

  /** The tag belongs to a node, to a selector or to the direct way out, not to an automatic choice:
      the automatic choice of group `x` carries the tag that belongs to a group `x-auto`. */
  ghost predicate Leads(outs: seq<Outbound>, tag: string) {
    exists o :: o in outs && o.tag == tag && !o.UrlTest?
  }

  /** Some node that renders is in the group. */
  ghost predicate Served(profiles: seq<NodeProfile>, group: string) {
    exists p :: p in profiles && Trim(p.group) == group
  }

  lemma NotAGroupTag(tag: string)
    ensures NodeTag(tag) || tag == "proxy" || tag == "direct" ==> !("group-" <= tag)
  {
    assert "node-"[0] == 'n' && "proxy"[0] == 'p' && "direct"[0] == 'd' && "group-"[0] == 'g';
  }

  lemma PlannedTagLeads(cfg: Config, profiles: seq<NodeProfile>, tag: string)
    requires AllTagged(Plans(profiles)) && tag in GroupTags(Plans(profiles))
    ensures Leads(Graph(cfg, profiles), tag)
  {
    hide Plans, AllGroups, GroupTags, NodeOuts, Choice;
    var groups := AllGroups(Plans(profiles));
    SelectorTagsAre(Plans(profiles));
    var a :| 0 <= a < |groups| && groups[a].Selector? && groups[a].tag == tag;
    assert groups[a] in Graph(cfg, profiles);
  }

  lemma SelectorTagIsPlanned(plans: seq<Plan>, o: Outbound)
    requires AllTagged(plans) && o in AllGroups(plans) && !o.UrlTest?
    ensures o.tag in GroupTags(plans)
  {
    hide AllGroups, GroupTags, GroupTag, AutoTag;
    SelectorTagsAre(plans);
    GroupRefs(plans, o);
    var a :| 0 <= a < |AllGroups(plans)| && AllGroups(plans)[a] == o;
  }

  lemma GroupTagLeads(cfg: Config, profiles: seq<NodeProfile>, tag: string)
    requires WellTagged(profiles) && "group-" <= tag
    ensures Leads(Graph(cfg, profiles), tag) <==> tag in GroupTags(Plans(profiles))
  {
    hide Plans, AllGroups, NodeTag, GroupTags, Graph, AllTagged;
    PlansAreTagged(profiles);
    if tag in GroupTags(Plans(profiles)) { PlannedTagLeads(cfg, profiles, tag); }
    if Leads(Graph(cfg, profiles), tag) {
      var o :| o in Graph(cfg, profiles) && o.tag == tag && !o.UrlTest?;
      OnlyGroupsLead(cfg, profiles, o);
      SelectorTagIsPlanned(Plans(profiles), o);
    }
  }

  lemma OnlyGroupsLead(cfg: Config, profiles: seq<NodeProfile>, o: Outbound)
    requires WellTagged(profiles) && o in Graph(cfg, profiles) && !o.UrlTest? && "group-" <= o.tag
    ensures o in AllGroups(Plans(profiles))
  {
    hide Plans, AllGroups, NodeTag;
    NotAGroupTag(o.tag);
    forall p | p in profiles ensures p.tag != o.tag {
    }
  }

  lemma FixedPlacesLead(cfg: Config, profiles: seq<NodeProfile>)
    requires WellTagged(profiles)
    ensures Leads(Graph(cfg, profiles), "proxy") && Leads(Graph(cfg, profiles), "direct")
  {
    hide Plans, AllGroups, NodeTag, ActiveTag;
    assert Direct("direct") in Graph(cfg, profiles);
    if |profiles| == 1 {
      assert NodeOuts(profiles)[0] in Graph(cfg, profiles);
    } else {
      assert Choice(cfg, profiles)[1] in Graph(cfg, profiles);
    }
  }

  // Names of groups.

  /** A group has a name exactly if some tagged node is in it, and has it once. */
  lemma {:induction false} GroupNamesAre(profiles: seq<NodeProfile>, group: string)
    ensures AllDifferent(GroupNames(profiles))
    ensures group in GroupNames(profiles) <==> group != "" && exists p :: p in profiles && p.tag != "" && Trim(p.group) == group
  {
    hide Trim;
    if profiles != [] {
      var front, last := profiles[..|profiles| - 1], profiles[|profiles| - 1];
      GroupNamesAre(front, group);
      assert profiles == front + [last];
      DifferentStep(GroupNames(front), Trim(last.group));
    }
  }

  lemma SameRawSameName(names: seq<string>, a: string, b: string)
    requires AllDifferent(Raws(names)) && a in names && b in names && RawBase(a) == RawBase(b)
    ensures a == b
  {
    hide RawBase;
    var i :| 0 <= i < |names| && names[i] == a;
    var j :| 0 <= j < |names| && names[j] == b;
    assert Raws(names)[i] == RawBase(a) && Raws(names)[j] == RawBase(b);
  }

  lemma FewerRawsDiffer(few: seq<string>, all: seq<string>)
    requires AllDifferent(few) && AllDifferent(Raws(all)) && forall name :: name in few ==> name in all
    ensures AllDifferent(Raws(few))
  {
    hide RawBase;
    forall i, j | 0 <= i < j < |few| ensures Raws(few)[i] != Raws(few)[j] {
      assert few[i] in few && few[j] in few && few[i] != few[j];
      if RawBase(few[i]) == RawBase(few[j]) { SameRawSameName(all, few[i], few[j]); }
    }
  }

  /** With distinct raw names, every group's tag is made of its own raw name. */
  lemma TagsOfGroups(profiles: seq<NodeProfile>)
    requires AllDifferent(Raws(GroupNames(profiles)))
    ensures var plans, names := Plans(profiles), GroupNames(profiles);
            |plans| == |names| && forall i :: 0 <= i < |plans| ==> plans[i].name == names[i] && GroupTag(plans[i]) == "group-" + RawBase(names[i])
  {
    hide Plans, RawBase, NoClash, Named;
    var plans, names := Plans(profiles), GroupNames(profiles);
    DifferentRawsNeverClash(Raws(names));
    BasesDifferIff(profiles);
    PlansInStep(profiles);
    forall i | 0 <= i < |plans| ensures plans[i].name == names[i] && plans[i].base == RawBase(names[i]) {
      assert Names(plans)[i] == names[i] && Bases(plans)[i] == Raws(names)[i];
    }
  }

  lemma GroupTagIn(profiles: seq<NodeProfile>, raw: string)
    requires AllDifferent(Raws(GroupNames(profiles)))
    ensures "group-" + raw in GroupTags(Plans(profiles)) <==> exists name :: name in GroupNames(profiles) && RawBase(name) == raw
  {
    hide Plans, RawBase, GroupNames;
    var plans, names := Plans(profiles), GroupNames(profiles);
    TagsOfGroups(profiles);
    if "group-" + raw in GroupTags(plans) {
      var i :| 0 <= i < |plans| && GroupTags(plans)[i] == "group-" + raw;
      assert ("group-" + raw)[6..] == raw && ("group-" + RawBase(names[i]))[6..] == RawBase(names[i]);
      assert names[i] in names;
    }
    if name :| name in names && RawBase(name) == raw {
      var i :| 0 <= i < |names| && names[i] == name;
      assert GroupTags(plans)[i] == "group-" + raw;
    }
  }

  // From the usable nodes to those that the graph is built from.

  lemma RenderableBehind(cfg: Config, resolved: NodeProfile, renders: Renders)
    requires Sources(cfg, resolved, renders).Some? && Usable(cfg.nodes) != []
    ensures RenderableNodes(cfg, renders).Some?
    ensures var kept, sources := RenderableNodes(cfg, renders).value, Sources(cfg, resolved, renders).value;
            |sources| == |kept| && (forall i :: 0 <= i < |kept| ==> sources[i].group == kept[i].group && sources[i].tag != "")
            && forall p :: p in kept ==> p in Usable(cfg.nodes)
  {
    hide Usable, Decimal, Trim;
    RenderableAreUsable(Usable(cfg.nodes), Trim(cfg.activeNodeId), ActiveXhttpId(cfg), renders);
    var kept := RenderableNodes(cfg, renders).value;
    UsableTagged(cfg.nodes);
    forall i | 0 <= i < |kept| ensures Retagged(kept)[i].tag != "" {
      assert kept[i] in kept;
    }
  }

  /** Lists that agree in groups, place by place, name the same groups. */
  lemma SameGroups(kept: seq<NodeProfile>, sources: seq<NodeProfile>, group: string)
    requires |sources| == |kept| && forall i :: 0 <= i < |kept| ==> sources[i].group == kept[i].group && sources[i].tag != ""
    ensures group in GroupNames(sources) <==> group != "" && Served(kept, group)
  {
    hide GroupNames, Trim;
    GroupNamesAre(sources, group);
    if group in GroupNames(sources) {
      var p :| p in sources && p.tag != "" && Trim(p.group) == group;
      var i :| 0 <= i < |sources| && sources[i] == p;
      assert kept[i] in kept;
    }
    if group != "" && Served(kept, group) {
      var p :| p in kept && Trim(p.group) == group;
      var i :| 0 <= i < |kept| && kept[i] == p;
      assert sources[i] in sources;
    }
  }

  lemma ServedIsNamed(nodes: seq<StoredNode>, kept: seq<NodeProfile>, group: string)
    requires group != "" && Served(kept, group) && forall p :: p in kept ==> p in Usable(nodes)
    ensures group in GroupNames(Usable(nodes))
  {
    hide Usable, GroupNames, Trim;
    GroupNamesAre(Usable(nodes), group);
    UsableTagged(nodes);
  }

  lemma SourceGroups(cfg: Config, resolved: NodeProfile, renders: Renders, group: string)
    requires Sources(cfg, resolved, renders).Some? && Usable(cfg.nodes) != []
    ensures RenderableNodes(cfg, renders).Some?
    ensures var names := GroupNames(Sources(cfg, resolved, renders).value);
            (group in names <==> group != "" && Served(RenderableNodes(cfg, renders).value, group))
            && (group in names ==> group in GroupNames(Usable(cfg.nodes)))
  {
    hide Usable, RenderableNodes, Sources, GroupNames, Served;
    RenderableBehind(cfg, resolved, renders);
    var kept, sources := RenderableNodes(cfg, renders).value, Sources(cfg, resolved, renders).value;
    SameGroups(kept, sources, group);
    if group in GroupNames(sources) { ServedIsNamed(cfg.nodes, kept, group); }
  }

  /** A group's route leads somewhere exactly if some node of the group renders. */
  lemma GroupLeadsIff(cfg: Config, resolved: NodeProfile, renders: Renders, group: string)
    requires Outbounds(cfg, resolved, renders).Some? && AllDifferent(Raws(GroupNames(Usable(cfg.nodes))))
    requires group in GroupNames(Usable(cfg.nodes))
    ensures RenderableNodes(cfg, renders).Some?
    ensures Leads(Outbounds(cfg, resolved, renders).value, "group-" + RawBase(group)) <==> Served(RenderableNodes(cfg, renders).value, group)
  {
    hide Usable, RenderableNodes, Sources, Graph, WellTagged, RawBase, Trim, GroupNames, Raws, AllDifferent, Plans, Served, Leads;
    var sources, all := Sources(cfg, resolved, renders).value, GroupNames(Usable(cfg.nodes));
    NamelessWithoutNodes(Usable(cfg.nodes), group);
    SourcesWellTagged(cfg, resolved, renders);
    GroupNamesAre(sources, group);
    forall name ensures name in GroupNames(sources) ==> name in all {
      SourceGroups(cfg, resolved, renders, name);
    }
    FewerRawsDiffer(GroupNames(sources), all);
    GroupTagLeads(cfg, sources, "group-" + RawBase(group));
    GroupTagIn(sources, RawBase(group));
    if name :| name in GroupNames(sources) && RawBase(name) == RawBase(group) {
      SameRawSameName(all, name, group);
    }
    SourceGroups(cfg, resolved, renders, group);
  }

  lemma NamelessWithoutNodes(profiles: seq<NodeProfile>, group: string)
    requires group in GroupNames(profiles)
    ensures profiles != [] && group != ""
  {
    GroupNamesAre(profiles, group);
  }

  lemma RouteIsItsGroups(cfg: Config, key: string)
    requires key in cfg.appGroups && AllDifferent(Raws(GroupNames(Usable(cfg.nodes))))
    ensures var route, group := RouteOf(cfg, Plans(Usable(cfg.nodes)), key), Trim(cfg.appGroups[key]);
            route.Some? ==> group in GroupNames(Usable(cfg.nodes)) && route.value == "group-" + RawBase(group)
  {
    hide Usable, Trim, Plans, RawBase, GroupNames;
    var plans := Plans(Usable(cfg.nodes));
    TagsOfGroups(Usable(cfg.nodes));
    var i := PlanIndex(plans, Trim(cfg.appGroups[key]));
    if i < |plans| { assert plans[i].name == GroupNames(Usable(cfg.nodes))[i]; }
  }

  /** Every group that a package is routed to has a node that renders. */
  ghost predicate AllServed(cfg: Config, profiles: seq<NodeProfile>) {
    forall key :: key in cfg.appGroups && RouteOf(cfg, Plans(Usable(cfg.nodes)), key).Some? ==> Served(profiles, Trim(cfg.appGroups[key]))
  }

  lemma RenderableExists(cfg: Config, resolved: NodeProfile, renders: Renders)
    requires Outbounds(cfg, resolved, renders).Some?
    ensures RenderableNodes(cfg, renders).Some?
  {
    hide Usable, Trim, ActiveXhttpId;
  }

  /** When no two groups sanitise alike, everything that routes, last resort and resolver name is
      emitted exactly if every group that a package is routed to has a node that renders. */
  lemma ReferencesLeadIff(cfg: Config, resolved: NodeProfile, renders: Renders, rules: map<string, set<string>>)
    requires Outbounds(cfg, resolved, renders).Some? && AllDifferent(Raws(GroupNames(Usable(cfg.nodes))))
    requires RoutesGroups(cfg, Plans(Usable(cfg.nodes)), cfg.appGroups.Keys, rules)
    ensures RenderableNodes(cfg, renders).Some?
    ensures (forall tag :: tag in References(cfg, resolved, rules) ==> Leads(Outbounds(cfg, resolved, renders).value, tag))
       <==> AllServed(cfg, RenderableNodes(cfg, renders).value)
  {
    hide Usable, RenderableNodes, Sources, Graph, WellTagged, RawBase, Trim, GroupNames, Raws, AllDifferent, Plans, Served, Leads, RouteOf;
    RenderableExists(cfg, resolved, renders);
    var outs, plans, kept := Outbounds(cfg, resolved, renders).value, Plans(Usable(cfg.nodes)), RenderableNodes(cfg, renders).value;
    SourcesWellTagged(cfg, resolved, renders);
    FixedPlacesLead(cfg, Sources(cfg, resolved, renders).value);
    forall key | key in cfg.appGroups && RouteOf(cfg, plans, key).Some?
      ensures Leads(outs, RouteOf(cfg, plans, key).value) <==> Served(kept, Trim(cfg.appGroups[key]))
    {
      RouteIsItsGroups(cfg, key);
      GroupLeadsIff(cfg, resolved, renders, Trim(cfg.appGroups[key]));
    }
    RulesLeadIff(cfg, plans, rules, outs);
  }

  lemma RulesLeadIff(cfg: Config, plans: seq<Plan>, rules: map<string, set<string>>, outs: seq<Outbound>)
    requires RoutesGroups(cfg, plans, cfg.appGroups.Keys, rules)
    ensures (forall tag :: tag in rules ==> Leads(outs, tag))
       <==> forall key :: key in cfg.appGroups && RouteOf(cfg, plans, key).Some? ==> Leads(outs, RouteOf(cfg, plans, key).value)
  {
    hide RouteOf, Leads, Trim;
    forall tag | tag in rules ensures exists key :: key in cfg.appGroups && RouteOf(cfg, plans, key) == Some(tag) {
      var package :| package in rules[tag];
      var key :| key in cfg.appGroups.Keys && RouteOf(cfg, plans, key) == Some(tag) && Trim(key) == package;
    }
  }

  // Groups that sanitise alike, and nodes that do not render.

  predicate HasPlan(plans: seq<Plan>, group: string) {
    PlanIndex(plans, group) < |plans|
  }

  /** The base of a group among these plans. */
  function BaseOf(plans: seq<Plan>, group: string): string
    requires HasPlan(plans, group)
  {
    plans[PlanIndex(plans, group)].base
  }

  ghost predicate HasBase(plans: seq<Plan>, base: string) {
    exists i :: 0 <= i < |plans| && plans[i].base == base
  }

  lemma RouteIsItsBase(cfg: Config, plans: seq<Plan>, key: string)
    requires key in cfg.appGroups && RouteOf(cfg, plans, key).Some?
    ensures HasPlan(plans, Trim(cfg.appGroups[key]))
    ensures RouteOf(cfg, plans, key).value == "group-" + BaseOf(plans, Trim(cfg.appGroups[key]))
  {
    hide Trim, PlanIndex;
  }

  lemma TagOfBase(plan: Plan, base: string)
    ensures GroupTag(plan) == "group-" + base <==> plan.base == base
  {
    assert ("group-" + base)[6..] == base && GroupTag(plan)[6..] == plan.base;
  }

  lemma TagHasBase(plans: seq<Plan>, base: string)
    ensures "group-" + base in GroupTags(plans) <==> HasBase(plans, base)
  {
    hide GroupTag;
    forall i | 0 <= i < |plans| ensures GroupTag(plans[i]) == "group-" + base <==> plans[i].base == base {
      TagOfBase(plans[i], base);
    }
    if i :| 0 <= i < |plans| && plans[i].base == base { assert GroupTags(plans)[i] == "group-" + base; }
  }

  /** Every routed group's base, counted among the usable nodes, is some group's base among `rendered`. */
  ghost predicate BasesMeet(cfg: Config, rendered: seq<Plan>) {
    var plans := Plans(Usable(cfg.nodes));
    forall key :: key in cfg.appGroups && RouteOf(cfg, plans, key).Some? ==>
      HasPlan(plans, Trim(cfg.appGroups[key])) && HasBase(rendered, BaseOf(plans, Trim(cfg.appGroups[key])))
  }

  /** Whatever the groups are called and whichever nodes render, everything that routes, last resort and
      resolver name is emitted exactly if each routed group's base, as counted among the usable nodes,
      comes up again among the nodes that render, be it another group's. */
  lemma ReferencesLeadByBasesIff(cfg: Config, resolved: NodeProfile, renders: Renders, rules: map<string, set<string>>)
    requires Outbounds(cfg, resolved, renders).Some?
    requires RoutesGroups(cfg, Plans(Usable(cfg.nodes)), cfg.appGroups.Keys, rules)
    ensures (forall tag :: tag in References(cfg, resolved, rules) ==> Leads(Outbounds(cfg, resolved, renders).value, tag))
       <==> BasesMeet(cfg, Plans(Sources(cfg, resolved, renders).value))
  {
    hide Usable, Sources, Graph, WellTagged, Trim, Plans, Leads, RouteOf, HasPlan, HasBase, BaseOf, GroupTags;
    var outs, plans, sources := Outbounds(cfg, resolved, renders).value, Plans(Usable(cfg.nodes)), Sources(cfg, resolved, renders).value;
    SourcesWellTagged(cfg, resolved, renders);
    FixedPlacesLead(cfg, sources);
    forall key | key in cfg.appGroups && RouteOf(cfg, plans, key).Some?
      ensures HasPlan(plans, Trim(cfg.appGroups[key]))
      ensures Leads(outs, RouteOf(cfg, plans, key).value) <==> HasBase(Plans(sources), BaseOf(plans, Trim(cfg.appGroups[key])))
    {
      RouteIsItsBase(cfg, plans, key);
      GroupTagLeads(cfg, sources, RouteOf(cfg, plans, key).value);
      TagHasBase(Plans(sources), BaseOf(plans, Trim(cfg.appGroups[key])));
    }
    RulesLeadIff(cfg, plans, rules, outs);
  }

  /** The selector of group `name` is emitted under this tag. */
  ghost predicate LeadsToGroup(outs: seq<Outbound>, plans: seq<Plan>, tag: string, name: string) {
    exists plan, chosen, members :: plan in plans && plan.name == name && Selector(tag, members, chosen) in GroupOutbounds(plan)
                                    && Selector(tag, members, chosen) in outs
  }

  lemma SelectorsOfGroup(plan: Plan, tag: string)
    requires plan.tags != []
    ensures (exists chosen, members :: Selector(tag, members, chosen) in GroupOutbounds(plan)) <==> tag == GroupTag(plan)
  {
    hide GroupTag, AutoTag;
    var outs := GroupOutbounds(plan);
    var last := outs[|outs| - 1];
    assert last == Selector(GroupTag(plan), last.members, last.chosen) && last in outs;
  }

  lemma {:induction false} GroupOutboundsAreIn(plans: seq<Plan>, plan: Plan, o: Outbound)
    requires plan in plans && o in GroupOutbounds(plan)
    ensures o in AllGroups(plans)
  {
    hide GroupOutbounds;
    if plan != plans[|plans| - 1] { GroupOutboundsAreIn(plans[..|plans| - 1], plan, o); }
  }

  lemma OnePlanForEach(profiles: seq<NodeProfile>, i: nat)
    requires i < |Plans(profiles)|
    ensures PlanIndex(Plans(profiles), Plans(profiles)[i].name) == i
  {
    hide Plans, GroupNames, Trim;
    var plans := Plans(profiles);
    var k := PlanIndex(plans, plans[i].name);
    PlansInStep(profiles);
    GroupNamesAre(profiles, plans[i].name);
    assert Names(plans)[i] == plans[i].name;
    assert k < |plans| ==> Names(plans)[k] == plans[k].name;
  }

  lemma LeadsToGroupIff(cfg: Config, profiles: seq<NodeProfile>, base: string, name: string)
    ensures LeadsToGroup(Graph(cfg, profiles), Plans(profiles), "group-" + base, name)
       <==> HasPlan(Plans(profiles), name) && BaseOf(Plans(profiles), name) == base
  {
    hide Plans, GroupTag, PlanIndex, GroupOutbounds, AllGroups;
    var plans, tag := Plans(profiles), "group-" + base;
    PlansAreTagged(profiles);
    if LeadsToGroup(Graph(cfg, profiles), plans, tag, name) {
      var plan, chosen, members :| plan in plans && plan.name == name && Selector(tag, members, chosen) in GroupOutbounds(plan)
                                   && Selector(tag, members, chosen) in Graph(cfg, profiles);
      SelectorsOfGroup(plan, tag);
      var i :| 0 <= i < |plans| && plans[i] == plan;
      OnePlanForEach(profiles, i);
      TagOfBase(plan, base);
    }
    if HasPlan(plans, name) && BaseOf(plans, name) == base {
      var plan := plans[PlanIndex(plans, name)];
      TagOfBase(plan, base);
      SelectorsOfGroup(plan, tag);
      var chosen, members :| Selector(tag, members, chosen) in GroupOutbounds(plan);
      GroupOutboundsAreIn(plans, plan, Selector(tag, members, chosen));
      assert Selector(tag, members, chosen) in Graph(cfg, profiles);
    }
  }

  /** A package that is routed to its group reaches the selector of group `name` exactly if that group's
      base, counted among the nodes that render, is its own group's base counted among the usable ones.
      For a `name` other than its group's, the package is served by another group's nodes. */
  lemma RouteReachesIff(cfg: Config, resolved: NodeProfile, renders: Renders, key: string, name: string)
    requires Outbounds(cfg, resolved, renders).Some?
    requires key in cfg.appGroups && RouteOf(cfg, Plans(Usable(cfg.nodes)), key).Some?
    ensures HasPlan(Plans(Usable(cfg.nodes)), Trim(cfg.appGroups[key]))
    ensures var usable, rendered := Plans(Usable(cfg.nodes)), Plans(Sources(cfg, resolved, renders).value);
            LeadsToGroup(Outbounds(cfg, resolved, renders).value, rendered, RouteOf(cfg, usable, key).value, name) <==>
            HasPlan(rendered, name) && BaseOf(rendered, name) == BaseOf(usable, Trim(cfg.appGroups[key]))
  {
    hide Usable, Sources, Graph, Trim, Plans, RouteOf, HasPlan, BaseOf, LeadsToGroup;
    RouteIsItsBase(cfg, Plans(Usable(cfg.nodes)), key);
    LeadsToGroupIff(cfg, Sources(cfg, resolved, renders).value, BaseOf(Plans(Usable(cfg.nodes)), Trim(cfg.appGroups[key])), name);
  }

  /** A plan holds the tags of its own group's nodes. */
  lemma {:induction false} PlanHoldsItsNodes(profiles: seq<NodeProfile>, plan: Plan, tag: string)
    requires plan in Plans(profiles) && tag in plan.tags
    ensures exists p :: p in profiles && p.tag == tag && Trim(p.group) == plan.name
  {
    hide Trim, FreshBase, PlanIndex;
    var front, last := profiles[..|profiles| - 1], profiles[|profiles| - 1];
    assert profiles == front + [last];
    var plans, group := Plans(front), Trim(last.group);
    var i := PlanIndex(plans, group);
    if plan in plans {
      PlanHoldsItsNodes(front, plan, tag);
    } else if i < |plans| && tag in plans[i].tags {
      PlanHoldsItsNodes(front, plans[i], tag);
    } else {
      assert last in profiles && last.tag == tag && group == plan.name;
    }
  }

  lemma BaseIsRaw(profiles: seq<NodeProfile>, name: string)
    requires AllDifferent(Raws(GroupNames(profiles))) && HasPlan(Plans(profiles), name)
    ensures name in GroupNames(profiles) && BaseOf(Plans(profiles), name) == RawBase(name)
  {
    hide Plans, RawBase, GroupNames, Raws;
    var plans, i := Plans(profiles), PlanIndex(Plans(profiles), name);
    TagsOfGroups(profiles);
    TagOfBase(plans[i], RawBase(name));
  }

  /** When no two groups sanitise alike, no route strays: the only group whose selector a package
      reaches is the one it is routed to. */
  lemma RoutesStayHome(cfg: Config, resolved: NodeProfile, renders: Renders, key: string, name: string)
    requires Outbounds(cfg, resolved, renders).Some? && AllDifferent(Raws(GroupNames(Usable(cfg.nodes))))
    requires key in cfg.appGroups && RouteOf(cfg, Plans(Usable(cfg.nodes)), key).Some?
    ensures var usable, rendered := Plans(Usable(cfg.nodes)), Plans(Sources(cfg, resolved, renders).value);
            LeadsToGroup(Outbounds(cfg, resolved, renders).value, rendered, RouteOf(cfg, usable, key).value, name) ==>
            name == Trim(cfg.appGroups[key])
  {
    hide Usable, Sources, Graph, Trim, Plans, RouteOf, HasPlan, BaseOf, LeadsToGroup, RawBase, GroupNames, Raws, AllDifferent;
    var usable, sources, group := Usable(cfg.nodes), Sources(cfg, resolved, renders).value, Trim(cfg.appGroups[key]);
    RouteReachesIff(cfg, resolved, renders, key, name);
    BaseIsRaw(usable, group);
    NamelessWithoutNodes(usable, group);
    GroupNamesAre(sources, name);
    forall n ensures n in GroupNames(sources) ==> n in GroupNames(usable) {
      SourceGroups(cfg, resolved, renders, n);
    }
    FewerRawsDiffer(GroupNames(sources), GroupNames(usable));
    if HasPlan(Plans(sources), name) {
      BaseIsRaw(sources, name);
      if RawBase(name) == RawBase(group) { SameRawSameName(GroupNames(usable), name, group); }
    }
  }
}
