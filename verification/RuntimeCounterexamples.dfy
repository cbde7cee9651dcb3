/** Inputs at which a promise of the running daemon fails as it is usually put, each beside the name
    of the theorem with the exact condition. */
module RuntimeCounterexamples {
  import opened Basics
  import opened Text
  import opened ProxyNode
  import opened OutboundGraph
  import opened GraphFacts
  import opened GroupNaming
  import opened RouteFacts
  import opened TagFacts
  import opened SelectorSwitch
  import Orchestration
  import NetstackRules
  import CoreLifecycle
  import PackageUids

  /** `Orchestration.HealthyPhaseIff`: a checked health with an unknown code and no core is shown as HEALTHY. */
  lemma UnknownCodeIsShownHealthy()
    ensures var health := Orchestration.NO_HEALTH.(lastCode := "CORE_VANISHED", checkedAt := 1);
            Orchestration.PhaseFromHealth(health, Orchestration.Healthy) == Orchestration.Healthy && !health.coreReady && !health.Operational()
  {
    var health := Orchestration.NO_HEALTH.(lastCode := "CORE_VANISHED", checkedAt := 1);
    assert Orchestration.PhaseOfCode(health.lastCode).None?;
  }

  /** `CoreRuns.CleanStopLeavesNothing`: with a stop script missing, a stop reports no error and the rules stay. */
  lemma MissingScriptLeavesRules(core: CoreLifecycle.Core)
    ensures var runs := CoreLifecycle.StopCoreRuns(NetstackRules.StopRuns(NetstackRules.Ran, NetstackRules.Broke(true, true)), true, true);
            CoreLifecycle.StopErrorOf(runs).None? && CoreLifecycle.StoppedCore(core, runs).rules.iptables
  {
  }

  function Listing(source: string, uids: map<string, int>): PackageUids.Catalog {
    PackageUids.Catalog(source, uids)
  }

  /** `PackageUids.LazyIsEagerIff`: with nothing requested by name, the first source that lists
      anything is taken although the second lists more. */
  lemma LazyMissesTheLargerSource(matches: string -> bool)
    requires matches("a") && matches("b")
    ensures var catalogs := [Listing("first", map["a" := 1]), Listing("second", map["a" := 1, "b" := 2])];
            var all := [Some(PackageUids.Resolution("first", [1], [])), Some(PackageUids.Resolution("second", [1, 2], []))];
            PackageUids.AllResolve(catalogs, PackageUids.Query([], matches, [0]), all)
            && PackageUids.Best(all[..PackageUids.Asked(all, 0)], 0) != PackageUids.Best(all, 0)
  {
    hide PackageUids.Best, PackageUids.Resolves;
    var q := PackageUids.Query([], matches, [0]);
    var first, second := PackageUids.Resolution("first", [1], []), PackageUids.Resolution("second", [1, 2], []);
    var all := [Some(first), Some(second)];
    FirstResolves(q, first);
    SecondResolves(q, second);
    PackageUids.LazyIsEagerIff(all, 0);
    assert PackageUids.FirstListed(all, 0) && |all[0].value.uids| < |all[1].value.uids|;
  }

  lemma FirstResolves(q: PackageUids.Query, r: PackageUids.Resolution)
    requires q.requested == [] && q.users == [0] && q.matches("a") && r == PackageUids.Resolution("first", [1], [])
    ensures Listing("first", map["a" := 1]).uids != map[] && PackageUids.Resolves(Listing("first", map["a" := 1]), q, r)
  {
    var c := Listing("first", map["a" := 1]);
    assert "a" in c.uids && PackageUids.UidOf(q.users[0], c.uids["a"]) == 1;
  }

  lemma SecondResolves(q: PackageUids.Query, r: PackageUids.Resolution)
    requires q.requested == [] && q.users == [0] && q.matches("a") && q.matches("b") && r == PackageUids.Resolution("second", [1, 2], [])
    ensures Listing("second", map["a" := 1, "b" := 2]).uids != map[]
    ensures PackageUids.Resolves(Listing("second", map["a" := 1, "b" := 2]), q, r)
  {
    var c := Listing("second", map["a" := 1, "b" := 2]);
    assert "a" in c.uids && PackageUids.UidOf(q.users[0], c.uids["a"]) == 1;
    assert "b" in c.uids && PackageUids.UidOf(q.users[0], c.uids["b"]) == 2;
  }

  // Three nodes of which the first needs the sidecar; the first two are in these groups.

  function Xhttp(group: string): NodeProfile {
    NodeProfile("x", "x", group, "", "vless", "example.org", 443, "xhttp", false, "")
  }

  function PlainNode(id: string, group: string): NodeProfile {
    NodeProfile(id, id, group, "", "trojan", "example.org", 443, "tcp", false, "")
  }

  function Nodes(first: string, second: string): seq<StoredNode> {
    [Stored(Xhttp(first)), Stored(PlainNode("y", second)), Stored(PlainNode("z", ""))]
  }

  function WithTag(profile: NodeProfile, i: nat): NodeProfile {
    profile.(tag := OutboundTag(profile, i))
  }

  function Profiles(first: string, second: string): seq<NodeProfile> {
    [WithTag(Xhttp(first), 0), WithTag(PlainNode("y", second), 1), WithTag(PlainNode("z", ""), 2)]
  }

  function Configured(activeNodeId: string, active: NodeProfile, nodes: seq<StoredNode>, appGroups: map<string, string>): Config {
    Config(activeNodeId, nodes, Projected(active), "", "rules", "all", [], appGroups, [], 9090, "secret", "")
  }

  /** Without an active node; the first usable one, the XHTTP node, then counts. */
  function Blank(first: string, second: string, appGroups: map<string, string>): Config {
    Configured("", Xhttp(first), Nodes(first, second), appGroups)
  }

  /** With the second node active. */
  function Known(first: string, second: string, appGroups: map<string, string>): Config {
    Configured("y", PlainNode("y", second), Nodes(first, second), appGroups)
  }

  lemma ThreeUsable(first: string, second: string)
    ensures Usable(Nodes(first, second)) == Profiles(first, second)
  {
    hide OutboundTag;
    var n, p := Nodes(first, second), Profiles(first, second);
    assert n[..2] == [n[0], n[1]] && n[..2][..1] == [n[0]] && n[..2][..1][..0] == [];
    assert Usable([]) == [];
    assert Usable([n[0]]) == [p[0]];
    assert Usable([n[0], n[1]]) == [p[0], p[1]];
  }

  lemma OnlyTheFirstNeedsSidecar()
    ensures forall group, i :: RequiresXraySidecar(WithTag(Xhttp(group), i))
    ensures forall id, group, i :: !RequiresXraySidecar(WithTag(PlainNode(id, group), i))
  {
    hide OutboundTag, Trim;
    TrimFixed("vless");
    TrimFixed("xhttp");
    TrimFixed("trojan");
    assert |Lower("trojan")| == 6 && |Lower("vless")| == 5;
  }

  lemma FoundById(first: string, second: string)
    ensures var p := Profiles(first, second); Find(p, "").None? && Find(p, "y") == Some(p[1])
  {
    hide OutboundTag;
    var p := Profiles(first, second);
    assert p[1..] == [p[1], p[2]] && p[1..][1..] == [p[2]] && p[1..][1..][1..] == [];
    assert p[0].id == "x" && p[1].id == "y" && p[2].id == "z";
    assert Find(p[1..][1..], "").None?;
    assert Find(p[1..], "").None?;
  }

  /** Which node is effectively active, and which nodes render when every node can be written. */
  lemma WhatRenders(cfg: Config, first: string, second: string, renders: Renders)
    requires forall q :: renders(q)
    requires cfg.nodes == Nodes(first, second) && cfg.activeNodeId in {"", "y"}
    ensures var p := Profiles(first, second);
            if cfg.activeNodeId == "" then ResolveActive(cfg) == Some(p[0]) && RenderableNodes(cfg, renders) == Some(p)
            else ResolveActive(cfg) == Some(p[1]) && RenderableNodes(cfg, renders) == Some([p[1], p[2]])
  {
    hide OutboundTag, RequiresXraySidecar, Trim, Usable;
    var p, xhttpId := Profiles(first, second), ActiveXhttpId(cfg);
    ThreeUsable(first, second);
    FoundById(first, second);
    OnlyTheFirstNeedsSidecar();
    var id := Trim(cfg.activeNodeId);
    assert xhttpId == if cfg.activeNodeId == "" then "x" else "";
    OneMoreRenders([], p[0], id, xhttpId, renders);
    OneMoreRenders([p[0]], p[1], id, xhttpId, renders);
    OneMoreRenders([p[0], p[1]], p[2], id, xhttpId, renders);
    assert [p[0]] == [] + [p[0]] && [p[0], p[1]] == [p[0]] + [p[1]] && p == [p[0], p[1]] + [p[2]];
    assert [] + [p[1]] == [p[1]] && [p[1]] + [p[2]] == [p[1], p[2]];
  }

  lemma OneMoreRenders(front: seq<NodeProfile>, q: NodeProfile, id: string, xhttpId: string, renders: Renders)
    requires renders(q)
    ensures var before := Renderable(front, id, xhttpId, renders);
            Renderable(front + [q], id, xhttpId, renders)
              == if before.None? || Skipped(q, xhttpId) then before else Some(before.value + [q])
  {
    hide Skipped;
    assert (front + [q])[..|front|] == front;
  }

  lemma NamesAreTrimmed()
    ensures Trim("") == "" && Trim("a") == "a" && Trim("b") == "b" && Trim("y") == "y" && Trim("secret") == "secret" && Trim("app") == "app"
  {
    hide Trim;
    TrimFixed("");
    TrimFixed("a");
    TrimFixed("b");
    TrimFixed("y");
    TrimFixed("secret");
    TrimFixed("app");
  }

  lemma Configurations(first: string, second: string, appGroups: map<string, string>, renders: Renders, host: string -> string)
    requires forall q :: renders(q)
    ensures var blank, known := Blank(first, second, appGroups), Known(first, second, appGroups);
            Synced(blank) && Synced(known) && Masked(blank) == Masked(known)
            && Render(blank, renders, host).Some? && Render(known, renders, host).Some?
            && Decide(blank, known, ReloadPlan(false, false, [])).SwitchTo? && Requires(ResolveActive(blank))
  {
    hide OutboundTag, RequiresXraySidecar, Trim, Usable, Graph, Endpoints, Plans, Retagged, RenderableNodes, Find;
    var blank, known := Blank(first, second, appGroups), Known(first, second, appGroups);
    ThreeUsable(first, second);
    FoundById(first, second);
    OnlyTheFirstNeedsSidecar();
    WhatRenders(blank, first, second, renders);
    WhatRenders(known, first, second, renders);
    NamesAreTrimmed();
    TagsOfNodes(PlainNode("y", second), 1);
  }

  /** `SelectorSwitch.SwitchSufficesIff`: with no old active ID and an XHTTP node first, the daemon
      switches to `y`, although the running configuration resolves names past the proxy and holds a
      node more than would be rendered. */
  lemma SwitchFromBlankFallsShort(renders: Renders, host: string -> string)
    requires forall q :: renders(q)
    ensures var blank, known, plan := Blank("b", "", map[]), Known("b", "", map[]), ReloadPlan(false, false, []);
            Decide(blank, known, plan).SwitchTo? && Render(blank, renders, host).Some? && Render(known, renders, host).Some?
            && !SwitchSuffices(Render(blank, renders, host).value, Render(known, renders, host).value, Decide(blank, known, plan).target)
  {
    hide Decide, Render, SwitchSuffices, Synced, ResolveActive, Requires, RenderableNodes, Trim;
    Configurations("b", "", map[], renders, host);
    NamesAreTrimmed();
    TrimmedSwitchSufficesIff(Blank("b", "", map[]), Known("b", "", map[]), ReloadPlan(false, false, []), renders, host);
  }

  /** `RouteFacts.ReferencesLeadIff`: a package is routed to group `b`, whose only node is an inactive
      XHTTP node, and the outbound of that group is not emitted. */
  lemma InactiveXhttpGroupDangles(renders: Renders, host: string -> string, rules: map<string, set<string>>)
    requires forall q :: renders(q)
    requires RoutesGroups(Known("b", "", map["app" := "b"]), Plans(Usable(Nodes("b", ""))), {"app"}, rules)
    ensures var cfg := Known("b", "", map["app" := "b"]);
            Render(cfg, renders, host).Some?
            && exists tag :: tag in References(cfg, ResolveProfile(cfg), rules) && !Leads(Render(cfg, renders, host).value.outbounds, tag)
  {
    hide RoutesGroups, References, Trim, Usable, Plans, Graph, Endpoints, RequiresXraySidecar, RenderableNodes, OutboundTag, Leads, Served, RouteOf,
         AllDifferent, GroupNames, Raws, Sources, Find, ResolveProfile, Profiles;
    var cfg := Known("b", "", map["app" := "b"]);
    Configurations("b", "", map["app" := "b"], renders, host);
    assert cfg.appGroups.Keys == {"app"};
    OneGroup();
    Routed(cfg, "b", "", "b");
    WhatRenders(cfg, "b", "", renders);
    NobodyInB();
    ReferencesLeadIff(cfg, ResolveProfile(cfg), renders, rules);
  }

  /** The groups of the three nodes. */
  lemma NamesOfGroups(first: string, second: string)
    requires first != "" && Trim(first) == first && Trim(second) == second && second != first
    ensures GroupNames(Profiles(first, second)) == if second == "" then [first] else [first, second]
    ensures GroupNames(Profiles(first, second)[1..]) == if second == "" then [] else [second]
  {
    hide Trim, WithTag, GroupNames;
    var p := Profiles(first, second);
    NamesAreTrimmed();
    NoNames();
    IsTagged(Xhttp(first), 0);
    IsTagged(PlainNode("y", second), 1);
    IsTagged(PlainNode("z", ""), 2);
    OneMoreName([], p[0]);
    OneMoreName([p[0]], p[1]);
    OneMoreName([p[0], p[1]], p[2]);
    OneMoreName([], p[1]);
    OneMoreName([p[1]], p[2]);
    assert [p[0]] == [] + [p[0]] && [p[0], p[1]] == [p[0]] + [p[1]] && p == [p[0], p[1]] + [p[2]];
    assert [p[1]] == [] + [p[1]] && p[1..] == [p[1]] + [p[2]];
  }

  lemma NoNames()
    ensures GroupNames([]) == []
  {
  }

  lemma IsTagged(profile: NodeProfile, i: nat)
    ensures WithTag(profile, i).tag != "" && WithTag(profile, i).group == profile.group
  {
    hide OutboundTag;
    TagsOfNodes(profile, i);
  }

  lemma OneMoreName(front: seq<NodeProfile>, last: NodeProfile)
    ensures var names, name := GroupNames(front), Trim(last.group);
            GroupNames(front + [last]) == if name == "" || last.tag == "" || name in names then names else names + [name]
  {
    hide Trim;
    assert (front + [last])[..|front|] == front;
  }

  lemma OneGroup()
    ensures GroupNames(Usable(Nodes("b", ""))) == ["b"] && AllDifferent(Raws(GroupNames(Usable(Nodes("b", "")))))
  {
    hide Trim, Usable, RawBase, GroupNames, Profiles;
    ThreeUsable("b", "");
    NamesAreTrimmed();
    NamesOfGroups("b", "");
  }

  lemma Routed(cfg: Config, first: string, second: string, group: string)
    requires cfg.nodes == Nodes(first, second) && cfg.appGroups == map["app" := group] && cfg.alwaysDirectApps == []
    requires group != "" && Trim(group) == group && group in GroupNames(Usable(cfg.nodes))
    ensures RouteOf(cfg, Plans(Usable(cfg.nodes)), "app").Some?
  {
    hide Trim, Plans, Usable, RawBase, GroupNames;
    NamesAreTrimmed();
    PlansInStep(Usable(cfg.nodes));
    IndexOfName(Plans(Usable(cfg.nodes)), group);
  }

  lemma NobodyInB()
    ensures !Served([Profiles("b", "")[1], Profiles("b", "")[2]], "b")
  {
    hide Trim, OutboundTag;
    NamesAreTrimmed();
  }

  // Groups `a` and `a!` sanitise alike.

  lemma BasesOfAlike()
    ensures var usable, rendered := Plans(Profiles("a", "a!")), Plans(Profiles("a", "a!")[1..]);
            HasPlan(usable, "a") && BaseOf(usable, "a") == "a" && HasPlan(rendered, "a!") && BaseOf(rendered, "a!") == "a"
  {
    hide Trim, Plans, GroupNames, RawBase, WithTag;
    RawOfShort('!');
    NamesAreTrimmed();
    NamesOfGroups("a", "a!");
    FirstBase(Profiles("a", "a!"), "a");
    FirstBase(Profiles("a", "a!")[1..], "a!");
  }

  /** The first group keeps its raw name. */
  lemma FirstBase(profiles: seq<NodeProfile>, name: string)
    requires |GroupNames(profiles)| in {1, 2} && GroupNames(profiles)[0] == name
    ensures HasPlan(Plans(profiles), name) && BaseOf(Plans(profiles), name) == RawBase(name)
  {
    hide Plans, GroupNames, RawBase;
    var raws, plans := Raws(GroupNames(profiles)), Plans(profiles);
    PlansInStep(profiles);
    BasesDifferIff(profiles);
    IndexOfName(plans, name);
    assert Names(plans)[0] == name;
    FewDoNotClash(raws);
    assert Bases(plans)[0] == plans[0].base;
  }

  lemma FewDoNotClash(raws: seq<string>)
    requires |raws| in {1, 2}
    ensures NoClash(raws) && |Named(raws)| == |raws| && Named(raws)[0] == raws[0]
  {
    assert raws[..1][..0] == [];
    assert Named([]) == [] && NoClash([]);
    assert Named(raws[..1]) == [raws[0]];
    if |raws| == 2 {
      assert raws == raws[..1] + [raws[1]];
      assert raws[1] + "-2" != raws[1];
    } else {
      assert raws[..1] == raws;
    }
  }

  /** `RouteFacts.RouteReachesIff`: a package is routed to group `a`, whose only node is an inactive
      XHTTP node, and reaches the selector of group `a!`. */
  lemma AlikeGroupTakesOver(renders: Renders, host: string -> string)
    requires forall q :: renders(q)
    ensures var cfg := Known("a", "a!", map["app" := "a"]);
            var usable, rendered := Plans(Usable(cfg.nodes)), Plans(Profiles("a", "a!")[1..]);
            Render(cfg, renders, host).Some? && RouteOf(cfg, usable, "app").Some?
            && LeadsToGroup(Render(cfg, renders, host).value.outbounds, rendered, RouteOf(cfg, usable, "app").value, "a!")
  {
    hide Trim, Usable, Plans, Graph, Endpoints, RequiresXraySidecar, RenderableNodes, RouteOf, GroupNames, Find, ResolveProfile, HasPlan, BaseOf,
         LeadsToGroup, Profiles, RawBase;
    var cfg := Known("a", "a!", map["app" := "a"]);
    Configurations("a", "a!", map["app" := "a"], renders, host);
    ThreeUsable("a", "a!");
    RawOfShort('!');
    NamesAreTrimmed();
    NamesOfGroups("a", "a!");
    Routed(cfg, "a", "a!", "a");
    SourcesAreRendered(cfg, renders);
    RouteReachesIff(cfg, ResolveProfile(cfg), renders, "app", "a!");
    BasesOfAlike();
  }

  lemma SourcesAreRendered(cfg: Config, renders: Renders)
    requires forall q :: renders(q)
    requires cfg.nodes == Nodes("a", "a!") && cfg.activeNodeId == "y" && Sources(cfg, ResolveProfile(cfg), renders).Some?
    ensures Sources(cfg, ResolveProfile(cfg), renders) == Some(Profiles("a", "a!")[1..])
  {
    hide Usable, RenderableNodes, Sources, WithTag, ResolveProfile, ResolveActive, Nodes;
    var p := Profiles("a", "a!");
    ThreeUsable("a", "a!");
    WhatRenders(cfg, "a", "a!", renders);
    SourcesOf(cfg, ResolveProfile(cfg), renders);
    assert p[1..] == [p[1], p[2]];
  }

  // Node IDs `a!` and `a?` sanitise alike.

  function Alike(): Config {
    Config("", [Stored(PlainNode("a!", "")), Stored(PlainNode("a?", ""))], Projected(PlainNode("a!", "")), "", "rules", "all", [], map[], [],
           9090, "secret", "")
  }

  lemma AlikeUsable()
    ensures Usable(Alike().nodes) == [WithTag(PlainNode("a!", ""), 0), WithTag(PlainNode("a?", ""), 1)]
  {
    hide OutboundTag;
    var n := Alike().nodes;
    assert n[..1] == [n[0]] && n[..1][..0] == [];
    assert Usable([]) == [];
    assert Usable([n[0]]) == [WithTag(PlainNode("a!", ""), 0)];
  }

  lemma AlikeIds()
    ensures Sanitized("a!") == "a" && Sanitized("a?") == "a"
  {
    hide Sanitized, Trim;
    RawOfShort('!');
    RawOfShort('?');
  }

  lemma AlikeSources(renders: Renders)
    requires forall q :: renders(q)
    ensures Sources(Alike(), ResolveProfile(Alike()), renders) == Some(Usable(Alike().nodes))
  {
    hide Usable, OutboundTag, Decimal, ResolveProfile, Trim, RequiresXraySidecar, Find;
    var p, id := Usable(Alike().nodes), Trim("");
    AlikeUsable();
    OnlyTheFirstNeedsSidecar();
    assert p[0].id == "a!" && p[1].id == "a?" && !RequiresXraySidecar(p[0]) && !RequiresXraySidecar(p[1]);
    NoneFound(p);
    OneMoreRenders([], p[0], id, "", renders);
    OneMoreRenders([p[0]], p[1], id, "", renders);
    assert [p[0]] == [] + [p[0]] && p == [p[0]] + [p[1]];
    UsableTagged(Alike().nodes);
    ManyKeepTags(p);
  }

  lemma NoneFound(profiles: seq<NodeProfile>)
    requires |profiles| == 2 && profiles[0].id != "" && profiles[1].id != ""
    ensures Find(profiles, "").None?
  {
    assert profiles == [profiles[0], profiles[1]] && profiles[1..] == [profiles[1]] && profiles[1..][1..] == [];
    assert Find(profiles[1..][1..], "").None?;
    assert Find(profiles[1..], "").None?;
  }

  /** `TagFacts.OutboundTagsDifferIff`: two nodes with different IDs, and two outbounds with one tag. */
  lemma AlikeIdsShareATag(renders: Renders, host: string -> string)
    requires forall q :: renders(q)
    ensures Render(Alike(), renders, host).Some? && !AllDifferent(TagsOf(Render(Alike(), renders, host).value.outbounds))
  {
    hide Usable, OutboundTag, ResolveProfile, Trim, Graph, Endpoints, Plans, Sources, Tags, TagsOf, BasesApart;
    NamesAreTrimmed();
    AlikeUsable();
    AlikeSources(renders);
    AlikeBases(renders);
    OutboundTagsDifferIff(Alike(), ResolveProfile(Alike()), renders);
    NodeTagsDifferIff(Alike(), ResolveProfile(Alike()), renders);
  }

  lemma AlikeBases(renders: Renders)
    requires forall q :: renders(q)
    ensures !BasesApart(Alike().nodes, ActiveXhttpId(Alike()), renders)
  {
    hide Trim, Sanitized, Decimal, RequiresXraySidecar, ActiveXhttpId, OutboundTag;
    var nodes, x := Alike().nodes, ActiveXhttpId(Alike());
    AlikeIds();
    OnlyTheFirstNeedsSidecar();
    SkippedWhateverTheTag(PlainNode("a!", ""), OutboundTag(PlainNode("a!", ""), 0), x);
    SkippedWhateverTheTag(PlainNode("a?", ""), OutboundTag(PlainNode("a?", ""), 1), x);
    assert !Skipped(WithTag(PlainNode("a!", ""), 0), x) && !Skipped(WithTag(PlainNode("a?", ""), 1), x);
    assert Kept(nodes, x, renders, 0) && Kept(nodes, x, renders, 1);
    assert TagBase(nodes[0].profile, 0) == "a" && TagBase(nodes[1].profile, 1) == "a";
  }
}
