/** What the groups of a rendered configuration hold, which packages its rules carry, and how tags are made. */
module GroupMembers {
  import opened Basics
  import opened Text
  import opened ProxyNode
  import opened OutboundGraph
  import opened GraphFacts
  import opened RouteFacts
  import opened GraphNodes

  /** The tags of a group's nodes, in the order of the nodes. */
  function TagsOf(profiles: seq<NodeProfile>, group: string): seq<string> {
    if profiles == [] then []
    else
      var front, last := TagsOf(profiles[..|profiles| - 1], group), profiles[|profiles| - 1];
      if last.tag != "" && Trim(last.group) == group then front + [last.tag] else front
  }

  /** Every group's plan holds exactly the tags of its nodes, in their order, and only groups with nodes have a plan. */
  lemma {:induction false} PlanMembers(profiles: seq<NodeProfile>, group: string)
    requires group != ""
    ensures var plans, i := Plans(profiles), PlanIndex(Plans(profiles), group);
            && (i < |plans| <==> TagsOf(profiles, group) != [])
            && (i < |plans| ==> plans[i].tags == TagsOf(profiles, group))
  {
    hide PlanIndex, FreshBase, Trim;
    if profiles == [] {
      NothingPlanned(group);
    } else {
      var front, last := profiles[..|profiles| - 1], profiles[|profiles| - 1];
      var plans, name := Plans(front), Trim(last.group);
      PlanMembers(front, group);
      if name != "" && last.tag != "" {
        var i := PlanIndex(plans, name);
        if i < |plans| {
          PlanIndexUpdates(plans, i, plans[i].tags + [last.tag], group);
        } else {
          PlanIndexAppends(plans, Plan(name, FreshBase(PlanAll(front).used, name), [last.tag]), group);
        }
      }
    }
  }

  lemma NothingPlanned(group: string)
    ensures Plans([]) == [] && PlanIndex([], group) == 0
  {
  }

  // In the graph.

  /** The tags of the emitted nodes of a group, in their order. */
  function Members(outs: seq<Outbound>, group: string): seq<string> {
    if outs == [] then []
    else
      var front, last := Members(outs[..|outs| - 1], group), outs[|outs| - 1];
      if last.NodeOut? && Trim(last.profile.group) == group then front + [last.tag] else front
  }

  lemma {:induction false} MembersAppend(a: seq<Outbound>, b: seq<Outbound>, group: string)
    requires forall o :: o in b ==> !o.NodeOut?
    ensures Members(a + b, group) == Members(a, group)
  {
    hide Trim;
    if b == [] {
      assert a + b == a;
    } else {
      assert (a + b)[..|a + b| - 1] == a + b[..|b| - 1];
      assert b[|b| - 1] in b;
      MembersAppend(a, b[..|b| - 1], group);
    }
  }

  lemma {:induction false} MembersAreTags(sources: seq<NodeProfile>, group: string)
    requires forall p :: p in sources ==> p.tag != ""
    ensures Members(NodeOuts(sources), group) == TagsOf(sources, group)
  {
    hide Trim;
    if sources != [] {
      var n := |sources| - 1;
      assert sources[n] in sources;
      assert NodeOuts(sources)[..n] == NodeOuts(sources[..n]);
      MembersAreTags(sources[..n], group);
    }
  }

  lemma MembersOfGraph(cfg: Config, sources: seq<NodeProfile>, group: string)
    requires forall p :: p in sources ==> p.tag != ""
    ensures Members(Graph(cfg, sources), group) == TagsOf(sources, group)
  {
    hide Plans, AllGroups, Choice;
    var rest := Choice(cfg, sources) + AllGroups(Plans(sources)) + [Direct("direct")];
    ChoiceHasNoNode(cfg, sources);
    GroupsHaveNoNode(Plans(sources));
    MembersAppend(NodeOuts(sources), rest, group);
    assert Graph(cfg, sources) == NodeOuts(sources) + rest;
    MembersAreTags(sources, group);
  }

  lemma SourcesAreTagged(cfg: Config, resolved: NodeProfile, renders: Renders)
    requires Sources(cfg, resolved, renders).Some?
    ensures forall p :: p in Sources(cfg, resolved, renders).value ==> p.tag != ""
  {
    hide Sources;
    SourcesWellTagged(cfg, resolved, renders);
    var sources := Sources(cfg, resolved, renders).value;
    forall p | p in sources ensures p.tag != "" {
      var i :| 0 <= i < |sources| && sources[i] == p;
    }
  }

  /** Every group with an emitted node has a selector over exactly the group's emitted nodes, in their
      order: on its own if there is one, and behind an automatic choice between all of them otherwise. */
  lemma GroupHasSelector(cfg: Config, resolved: NodeProfile, renders: Renders, group: string) returns (base: string)
    requires Outbounds(cfg, resolved, renders).Some?
    requires group != "" && Members(Outbounds(cfg, resolved, renders).value, group) != []
    ensures var outs, members := Outbounds(cfg, resolved, renders).value, Members(Outbounds(cfg, resolved, renders).value, group);
            if |members| == 1 then Selector("group-" + base, members, members[0]) in outs
            else && UrlTest("group-" + base + "-auto", members) in outs
                 && Selector("group-" + base, ["group-" + base + "-auto"] + members, "group-" + base + "-auto") in outs
  {
    hide Sources, Trim, Plans, PlanIndex, Graph, Members, TagsOf;
    var sources := Sources(cfg, resolved, renders).value;
    SourcesAreTagged(cfg, resolved, renders);
    MembersOfGraph(cfg, sources, group);
    PlanMembers(sources, group);
    var plan := Plans(sources)[PlanIndex(Plans(sources), group)];
    base := plan.base;
    forall o | o in GroupOutbounds(plan) ensures o in Graph(cfg, sources) {
      GroupOutboundsAreIn(Plans(sources), plan, o);
      GroupsAreEmitted(cfg, sources, o);
    }
    PlanIsWritten(plan);
  }

  lemma GroupsAreEmitted(cfg: Config, sources: seq<NodeProfile>, o: Outbound)
    requires o in AllGroups(Plans(sources))
    ensures o in Graph(cfg, sources)
  {
    hide Plans, AllGroups, Choice, NodeOuts;
  }

  lemma PlanIsWritten(plan: Plan)
    requires plan.tags != []
    ensures if |plan.tags| == 1 then Selector("group-" + plan.base, plan.tags, plan.tags[0]) in GroupOutbounds(plan)
            else && UrlTest("group-" + plan.base + "-auto", plan.tags) in GroupOutbounds(plan)
                 && Selector("group-" + plan.base, ["group-" + plan.base + "-auto"] + plan.tags, "group-" + plan.base + "-auto") in GroupOutbounds(plan)
  {
    var outs := GroupOutbounds(plan);
    if |plan.tags| == 1 { assert outs[0] in outs; } else { assert outs[0] in outs && outs[1] in outs; }
  }

  // Rules.

  /** Whether some fit node is in the group. */
  ghost predicate Peopled(nodes: seq<StoredNode>, group: string) {
    exists i :: 0 <= i < |nodes| && Fit(nodes[i]) && Trim(nodes[i].profile.group) == group
  }

  lemma {:induction false} PeopledHasTags(nodes: seq<StoredNode>, group: string)
    ensures TagsOf(Usable(nodes), group) != [] <==> Peopled(nodes, group)
  {
    hide Trim, OutboundTag, Usable;
    if nodes == [] {
      NothingUsable(nodes);
    } else {
      var n := |nodes| - 1;
      PeopledHasTags(nodes[..n], group);
      UsableStep(nodes);
      if Fit(nodes[n]) {
        TagIsNotBlank(nodes[n].profile, n);
        TagsOfStep(Usable(nodes[..n]), At(nodes, n), group);
      } else {
        assert Usable(nodes) == Usable(nodes[..n]);
      }
      if Peopled(nodes[..n], group) {
        var i :| 0 <= i < n && Fit(nodes[..n][i]) && Trim(nodes[..n][i].profile.group) == group;
        assert nodes[i] == nodes[..n][i];
      } else {
        assert forall i :: 0 <= i < n ==> nodes[..n][i] == nodes[i];
      }
    }
  }

  lemma TagsOfStep(front: seq<NodeProfile>, p: NodeProfile, group: string)
    ensures TagsOf(front + [p], group) == TagsOf(front, group) + if p.tag != "" && Trim(p.group) == group then [p.tag] else []
  {
    hide Trim;
    assert (front + [p])[..|front|] == front;
  }

  /** An entry of the app groups routes its package: neither it nor its group is blank, the package is
      not among those that always go direct, and some fit node is in the group. */
  ghost predicate Carries(cfg: Config, key: string)
    requires key in cfg.appGroups
  {
    && Trim(key) != "" && Trim(cfg.appGroups[key]) != ""
    && (forall i :: 0 <= i < |cfg.alwaysDirectApps| ==> Trim(cfg.alwaysDirectApps[i]) != Trim(key))
    && Peopled(cfg.nodes, Trim(cfg.appGroups[key]))
  }

  lemma CarriesIff(cfg: Config, key: string)
    requires key in cfg.appGroups
    ensures RouteOf(cfg, Plans(Usable(cfg.nodes)), key).Some? <==> Carries(cfg, key)
  {
    hide Trim, Usable, Plans, PlanIndex, Peopled, TagsOf;
    var group := Trim(cfg.appGroups[key]);
    if group != "" {
      PeopledHasTags(cfg.nodes, group);
      PlanMembers(Usable(cfg.nodes), group);
    }
  }

  /** The rules carry exactly the packages that some entry routes. */
  lemma RulesCarry(cfg: Config, rules: map<string, set<string>>, package: string)
    requires RoutesGroups(cfg, Plans(Usable(cfg.nodes)), cfg.appGroups.Keys, rules)
    ensures (exists tag :: tag in rules && package in rules[tag]) <==>
            exists key :: key in cfg.appGroups && Trim(key) == package && Carries(cfg, key)
  {
    hide Trim, Usable, Plans, RouteOf, Carries;
    var plans := Plans(Usable(cfg.nodes));
    if tag :| tag in rules && package in rules[tag] {
      var key :| key in cfg.appGroups && RouteOf(cfg, plans, key) == Some(tag) && Trim(key) == package;
      CarriesIff(cfg, key);
    }
    if key :| key in cfg.appGroups && Trim(key) == package && Carries(cfg, key) {
      CarriesIff(cfg, key);
      assert RouteOf(cfg, plans, key).value in rules;
    }
  }

  // Tags.

  /** A node's tag is made of its ID; of its name if it has no ID; of its place if it has neither, or if
      nothing of it can stand in a tag. */
  lemma TagMeans(p: NodeProfile, i: nat)
    ensures var place := "node-node-" + Decimal(i + 1);
            && (p.id != "" ==> OutboundTag(p, i) == if Sanitized(p.id) == "" then place else "node-" + Sanitized(p.id))
            && (p.id == "" && p.name != "" ==> OutboundTag(p, i) == if Sanitized(p.name) == "" then place else "node-" + Sanitized(p.name))
            && (p.id == "" && p.name == "" ==> OutboundTag(p, i) == place)
  {
    hide Sanitized, Decimal;
    PlaceIsTag(i + 1);
  }

  /** What is already fit for a tag stays as it is. */
  lemma CleanStays(s: string)
    requires s != "" && s[0] != '-' && s[|s| - 1] != '-' && forall c | c in s :: TagChar(c)
    ensures Sanitized(s) == s
  {
    LowerFixed(s);
    CleanIsSqueezed(s, false);
  }

  lemma {:induction false} CleanIsSqueezed(s: string, inRun: bool)
    requires forall c | c in s :: TagChar(c)
    ensures Squeezed(s, inRun) == s
  {
    if s != "" { CleanIsSqueezed(s[1..], false); }
  }

  lemma PlaceIsTag(n: nat)
    ensures Sanitized("node-" + Decimal(n)) == "node-" + Decimal(n)
  {
    hide Sanitized, Decimal;
    var s := "node-" + Decimal(n);
    assert s[0] == 'n' && s[|s| - 1] == Decimal(n)[|Decimal(n)| - 1] && Decimal(n)[|Decimal(n)| - 1] in Decimal(n);
    assert forall c | c in "node-" :: TagChar(c);
    CleanStays(s);
  }
}
