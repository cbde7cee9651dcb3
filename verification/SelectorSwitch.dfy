/** Changing the active node by switching a selector of the running core instead of rendering anew. */
module SelectorSwitch {
  import opened Basics
  import opened Text
  import opened ProxyNode
  import opened OutboundGraph
  import opened GraphFacts

  datatype ReloadPlan = ReloadPlan(fullRestart: bool, netstackReapplyAfter: bool, changedKeys: seq<string>)

  datatype Decision =
    | SwitchTo(target: string)
    | FullRestartRequired | NetstackReapplyRequired | ScriptEnvChanged | ClashApiDisabled | ActiveNodeUnchanged
    | OtherConfigChanged | SingleOutbound | OldNeedsSidecar | NewNeedsSidecar | AutoSetHasSidecar | TagEmpty | NotFound

  const NO_NODE := NodeConfig("", "", 0, "", "")

  /** A configuration without its active node and what is projected from it. */
  function Masked(cfg: Config): Config {
    cfg.(activeNodeId := "", node := NO_NODE)
  }

  function ProfileById(cfg: Config, id: string): Option<NodeProfile> {
    if Trim(id) == "" then None else Find(Usable(cfg.nodes), Trim(id))
  }

  predicate SomeNeedsSidecar(profiles: seq<NodeProfile>) {
    exists i :: 0 <= i < |profiles| && RequiresXraySidecar(profiles[i])
  }

  function Decide(oldConfig: Config, newConfig: Config, plan: ReloadPlan): Decision {
    var oldActive, newActive := Trim(oldConfig.activeNodeId), Trim(newConfig.activeNodeId);
    var profiles := Usable(newConfig.nodes);
    var oldProfile, newProfile := ProfileById(oldConfig, oldActive), ProfileById(newConfig, newActive);
    if plan.fullRestart then FullRestartRequired
    else if plan.netstackReapplyAfter then NetstackReapplyRequired
    else if plan.changedKeys != [] then ScriptEnvChanged
    else if newConfig.apiPort <= 0 || Trim(newConfig.apiSecret) == "" then ClashApiDisabled
    else if oldActive == newActive then ActiveNodeUnchanged
    else if Masked(oldConfig) != Masked(newConfig) then OtherConfigChanged
    else if |profiles| <= 1 then SingleOutbound
    else if Requires(oldProfile) then OldNeedsSidecar
    else if Requires(newProfile) then NewNeedsSidecar
    else if newActive == "" then (if SomeNeedsSidecar(profiles) then AutoSetHasSidecar else SwitchTo("auto"))
    else if newProfile.None? then NotFound
    else if Trim(newProfile.value.tag) == "" then TagEmpty
    else SwitchTo(Trim(newProfile.value.tag))
  }

  // The slow path.

  /** The rendered configuration: what depends on the nodes, and the rest. */
  datatype Rendered = Rendered(
    outbounds: seq<Outbound>, remoteDetour: string, endpoints: set<string>, groupPlans: seq<Plan>, others: Config)

  function FromNode(node: NodeConfig): NodeProfile {
    NodeProfile("", "", "", "", node.protocol, node.address, node.port, node.transport, false, node.details)
  }

  function Projected(profile: NodeProfile): NodeConfig {
    NodeConfig(profile.protocol, profile.address, profile.port, profile.transport, profile.details)
  }

  /** The node configuration is the projection of the active node, as applying a profile leaves it. */
  predicate Synced(cfg: Config) {
    ResolveActive(cfg).Some? ==> cfg.node == Projected(ResolveActive(cfg).value)
  }

  function ResolveProfile(cfg: Config): NodeProfile {
    if Requires(ResolveActive(cfg)) then ResolveActive(cfg).value else FromNode(cfg.node)
  }

  /** The hosts that are kept out of the proxy, `host` being what an address names. */
  function Endpoints(cfg: Config, host: string -> string): set<string> {
    var profiles := Usable(cfg.nodes);
    var named := set i | 0 <= i < |profiles| && host(profiles[i].address) != "" :: host(profiles[i].address);
    var fallback := host(ResolveProfile(cfg).address);
    if named == {} && fallback != "" then {fallback} else named
  }

  function Render(cfg: Config, renders: Renders, host: string -> string): Option<Rendered> {
    var resolved := ResolveProfile(cfg);
    var outbounds := Outbounds(cfg, resolved, renders);
    if cfg.apiPort > 0 && Trim(cfg.apiSecret) == "" then None
    else if outbounds.None? then None
    else Some(Rendered(outbounds.value, RemoteDetour(resolved), Endpoints(cfg, host),
                       Plans(Usable(cfg.nodes)), Masked(cfg)))
  }

  /** Switching selector `proxy` to `target` turns what the core runs into what would be rendered now. */
  ghost predicate SwitchSuffices(running: Rendered, wanted: Rendered, target: string) {
    exists s: nat :: IsProxySelector(running.outbounds, s)
                && wanted == running.(outbounds := running.outbounds[s := running.outbounds[s].(chosen := target)])
  }

  predicate IsProxySelector(outbounds: seq<Outbound>, s: nat) {
    s < |outbounds| && outbounds[s].Selector? && outbounds[s].tag == "proxy"
  }

  // Steps to the theorem.

  lemma {:induction false} FindIsIn(profiles: seq<NodeProfile>, id: string)
    ensures Find(profiles, id).Some? ==> Find(profiles, id).value in profiles && Find(profiles, id).value.id == id
  {
    if profiles != [] { FindIsIn(profiles[1..], id); }
  }

  lemma {:induction false} FindAppends(profiles: seq<NodeProfile>, p: NodeProfile, id: string)
    ensures Find(profiles + [p], id) == if Find(profiles, id).Some? then Find(profiles, id) else if p.id == id then Some(p) else None
  {
    if profiles == [] {
      assert [p][1..] == [];
    } else {
      assert (profiles + [p])[1..] == profiles[1..] + [p];
      FindAppends(profiles[1..], p, id);
    }
  }

  /** Without an active XHTTP node, what renders does not depend on which node is active. */
  lemma {:induction false} SameRenderable(profiles: seq<NodeProfile>, a: string, b: string, xhttpId: string, renders: Renders)
    requires Renderable(profiles, a, xhttpId, renders).Some? && Renderable(profiles, b, xhttpId, renders).Some?
    ensures Renderable(profiles, a, xhttpId, renders) == Renderable(profiles, b, xhttpId, renders)
  {
    hide Skipped;
    if profiles != [] { SameRenderable(profiles[..|profiles| - 1], a, b, xhttpId, renders); }
  }

  lemma {:induction false} ActiveNodeRenders(profiles: seq<NodeProfile>, id: string, xhttpId: string, renders: Renders)
    requires id != "" && Renderable(profiles, id, xhttpId, renders).Some?
    requires Find(profiles, id).Some? ==> !Skipped(Find(profiles, id).value, xhttpId)
    ensures Find(Renderable(profiles, id, xhttpId, renders).value, id) == Find(profiles, id)
  {
    hide Skipped;
    if profiles != [] {
      var n := |profiles| - 1;
      var p, front := profiles[n], Renderable(profiles[..n], id, xhttpId, renders).value;
      assert profiles == profiles[..n] + [p];
      FindAppends(profiles[..n], p, id);
      ActiveNodeRenders(profiles[..n], id, xhttpId, renders);
      FindAppends(front, p, id);
    }
  }

  lemma {:induction false} FirstTagIsFound(profiles: seq<NodeProfile>, id: string)
    requires forall p :: p in profiles ==> p.tag != ""
    ensures FirstTag(profiles, id) == if Find(profiles, id).Some? then Find(profiles, id).value.tag else ""
  {
    if profiles != [] {
      assert profiles[0] in profiles;
      FirstTagIsFound(profiles[1..], id);
    }
  }

  lemma ManyKeepTags(profiles: seq<NodeProfile>)
    requires |profiles| > 1 && forall p :: p in profiles ==> p.tag != ""
    ensures Retagged(profiles) == profiles
  {
    hide Decimal;
    forall i | 0 <= i < |profiles| ensures Retagged(profiles)[i] == profiles[i] {
      assert profiles[i] in profiles;
    }
  }

  /** A decision to switch names the node that the trimmed ID names, or the automatic choice, and means
      that the configurations differ in the active node only and the named node needs no sidecar. The
      renderer looks the ID up untrimmed: only if there is nothing to trim it finds the same node. */
  lemma SwitchMeansPlain(oldConfig: Config, newConfig: Config, plan: ReloadPlan)
    requires Decide(oldConfig, newConfig, plan).SwitchTo?
    ensures |Usable(newConfig.nodes)| > 1 && Masked(oldConfig) == Masked(newConfig)
    ensures Trim(newConfig.activeNodeId) == "" ==> Decide(oldConfig, newConfig, plan) == SwitchTo("auto")
    ensures Trim(newConfig.activeNodeId) != "" ==>
              var found := Find(Usable(newConfig.nodes), Trim(newConfig.activeNodeId));
              found.Some? && !RequiresXraySidecar(found.value) && Decide(oldConfig, newConfig, plan) == SwitchTo(Trim(found.value.tag))
    ensures Trim(newConfig.activeNodeId) == newConfig.activeNodeId ==> !Requires(ResolveActive(newConfig))
  {
    hide RequiresXraySidecar, Usable, Trim;
    var profiles, id := Usable(newConfig.nodes), Trim(newConfig.activeNodeId);
    TrimFixed(id);
    FindIsIn(profiles, id);
    if id == "" && Find(profiles, "").Some? {
      var i :| 0 <= i < |profiles| && profiles[i] == Find(profiles, "").value;
    }
  }

  lemma GroupsAreNotProxy(plans: seq<Plan>, o: Outbound)
    ensures o in AllGroups(plans) ==> o.tag != "proxy"
  {
    hide AllGroups;
    if o in AllGroups(plans) {
      GroupRefs(plans, o);
      var plan :| plan in plans && o in GroupOutbounds(plan);
      assert o.tag[0] == 'g';
    }
  }

  /** Only several sources make a selector called `proxy`, and it stands right behind them. */
  lemma ProxySelectorPlace(cfg: Config, profiles: seq<NodeProfile>, s: nat)
    ensures IsProxySelector(Graph(cfg, profiles), s) ==> |profiles| > 1 && s == |profiles| + 1
    ensures |profiles| > 1 ==> IsProxySelector(Graph(cfg, profiles), |profiles| + 1)
  {
    hide Plans, AllGroups, Trim;
    if IsProxySelector(Graph(cfg, profiles), s) {
      GroupsAreNotProxy(Plans(profiles), Graph(cfg, profiles)[s]);
    }
  }

  /** Only the choice of selector `proxy` depends on the active node. */
  lemma GraphsDifferInChoice(a: Config, b: Config, profiles: seq<NodeProfile>)
    requires |profiles| > 1
    ensures var s := |profiles| + 1;
            var chosen := if ActiveTag(b, profiles) != "" then ActiveTag(b, profiles) else "auto";
            IsProxySelector(Graph(a, profiles), s) && Graph(b, profiles) == Graph(a, profiles)[s := Graph(a, profiles)[s].(chosen := chosen)]
  {
    hide Plans, AllGroups, ActiveTag, NodeOuts;
    ProxySelectorPlace(a, profiles, |profiles| + 1);
    var nodes, groups := NodeOuts(profiles), AllGroups(Plans(profiles)) + [Direct("direct")];
    NodeOutsCount(profiles);
    assert Graph(a, profiles) == nodes + Choice(a, profiles) + groups;
    assert Graph(b, profiles) == nodes + Choice(b, profiles) + groups;
  }

  lemma NodeOutsCount(profiles: seq<NodeProfile>)
    ensures |NodeOuts(profiles)| == |profiles|
  {
  }

  lemma EndpointsOfSynced(cfg: Config, host: string -> string)
    requires Synced(cfg) && Usable(cfg.nodes) != []
    ensures var profiles := Usable(cfg.nodes);
            Endpoints(cfg, host) == set i | 0 <= i < |profiles| && host(profiles[i].address) != "" :: host(profiles[i].address)
  {
    hide Usable, RequiresXraySidecar;
    var profiles := Usable(cfg.nodes);
    var named := set i | 0 <= i < |profiles| && host(profiles[i].address) != "" :: host(profiles[i].address);
    FindIsIn(profiles, cfg.activeNodeId);
    var active := ResolveActive(cfg).value;
    assert ResolveProfile(cfg).address == active.address;
    var i :| 0 <= i < |profiles| && profiles[i] == active;
    if host(active.address) != "" { assert host(profiles[i].address) in named; }
  }

  lemma SyncedNeedsSidecar(cfg: Config)
    requires Synced(cfg) && ResolveActive(cfg).Some?
    ensures RequiresXraySidecar(ResolveProfile(cfg)) <==> Requires(ResolveActive(cfg))
  {
  }

  lemma RenderableTagged(cfg: Config, renders: Renders)
    requires RenderableNodes(cfg, renders).Some?
    ensures forall p :: p in RenderableNodes(cfg, renders).value ==> p.tag != ""
  {
    hide Usable, Trim;
    UsableTagged(cfg.nodes);
    RenderableAreUsable(Usable(cfg.nodes), Trim(cfg.activeNodeId), ActiveXhttpId(cfg), renders);
  }

  /** What the new configuration's `proxy` selector would choose is the switch's target. */
  lemma NewChoiceIsTarget(oldConfig: Config, newConfig: Config, plan: ReloadPlan, renders: Renders)
    requires Decide(oldConfig, newConfig, plan).SwitchTo? && RenderableNodes(newConfig, renders).Some?
    ensures var tag := ActiveTag(newConfig, RenderableNodes(newConfig, renders).value);
            (if tag != "" then tag else "auto") == Decide(oldConfig, newConfig, plan).target
  {
    hide RequiresXraySidecar, Usable, Trim, Decide, Trimmed;
    var usable, sources, id := Usable(newConfig.nodes), RenderableNodes(newConfig, renders).value, Trim(newConfig.activeNodeId);
    SwitchMeansPlain(oldConfig, newConfig, plan);
    RenderableTagged(newConfig, renders);
    if id != "" {
      ActiveNodeRenders(usable, id, ActiveXhttpId(newConfig), renders);
      FirstTagIsFound(sources, id);
      FindIsIn(usable, id);
      UsableTagged(newConfig.nodes);
    }
  }

  lemma SourcesOf(cfg: Config, resolved: NodeProfile, renders: Renders)
    requires Usable(cfg.nodes) != [] && Sources(cfg, resolved, renders).Some?
    ensures RenderableNodes(cfg, renders).Some? && |Sources(cfg, resolved, renders).value| == |RenderableNodes(cfg, renders).value|
    ensures |RenderableNodes(cfg, renders).value| > 1 ==> Sources(cfg, resolved, renders).value == RenderableNodes(cfg, renders).value
  {
    hide Usable, RenderableNodes, Decimal, Retagged;
    RenderableTagged(cfg, renders);
    RetaggedCount(RenderableNodes(cfg, renders).value);
    if |RenderableNodes(cfg, renders).value| > 1 { ManyKeepTags(RenderableNodes(cfg, renders).value); }
  }

  lemma RetaggedCount(profiles: seq<NodeProfile>)
    ensures |Retagged(profiles)| == |profiles|
  {
  }

  /** When the daemon decides to switch and both configurations render, the switch leaves the core
      with exactly the configuration that would be rendered, if and only if two or more nodes render,
      the same ones for both, and the nodes effectively active before and after, with the fallback to
      the first usable one, agree in whether they need a sidecar. */
  lemma SwitchSufficesIff(oldConfig: Config, newConfig: Config, plan: ReloadPlan, renders: Renders, host: string -> string)
    requires Decide(oldConfig, newConfig, plan).SwitchTo?
    requires Synced(oldConfig) && Synced(newConfig)
    requires Render(oldConfig, renders, host).Some? && Render(newConfig, renders, host).Some?
    ensures RenderableNodes(oldConfig, renders).Some? && RenderableNodes(newConfig, renders).Some?
    ensures SwitchSuffices(Render(oldConfig, renders, host).value, Render(newConfig, renders, host).value, Decide(oldConfig, newConfig, plan).target)
       <==> |RenderableNodes(newConfig, renders).value| >= 2 && RenderableNodes(oldConfig, renders) == RenderableNodes(newConfig, renders)
            && (Requires(ResolveActive(oldConfig)) <==> Requires(ResolveActive(newConfig)))
  {
    hide RequiresXraySidecar, Usable, Trim, Decide, Graph, Sources, ResolveActive, Requires, ResolveProfile, Endpoints, RenderableNodes, Synced,
         SwitchSuffices, IsProxySelector;
    var running, wanted := Render(oldConfig, renders, host).value, Render(newConfig, renders, host).value;
    SwitchMeansPlain(oldConfig, newConfig, plan);
    assert oldConfig.nodes == newConfig.nodes;
    ActiveExists(oldConfig);
    ActiveExists(newConfig);
    SyncedNeedsSidecar(oldConfig);
    SyncedNeedsSidecar(newConfig);
    SourcesOf(oldConfig, ResolveProfile(oldConfig), renders);
    SourcesOf(newConfig, ResolveProfile(newConfig), renders);
    EndpointsOfSynced(oldConfig, host);
    EndpointsOfSynced(newConfig, host);
    var target := Decide(oldConfig, newConfig, plan).target;
    var before, after := Sources(oldConfig, ResolveProfile(oldConfig), renders).value, Sources(newConfig, ResolveProfile(newConfig), renders).value;
    if SwitchSuffices(running, wanted, target) {
      SwitchKeepsSources(running, wanted, target, oldConfig, before, newConfig, after);
    }
    if |after| >= 2 && before == after && running.remoteDetour == wanted.remoteDetour {
      GraphsDifferInChoice(oldConfig, newConfig, after);
      NewChoiceIsTarget(oldConfig, newConfig, plan, renders);
      SwitchWorks(running, wanted, target, |after| + 1);
    }
  }

  /** With nothing to trim in the new active ID, the switch is right if and only if two or more nodes
      render and the node that was effectively active needs no sidecar. */
  lemma TrimmedSwitchSufficesIff(oldConfig: Config, newConfig: Config, plan: ReloadPlan, renders: Renders, host: string -> string)
    requires Decide(oldConfig, newConfig, plan).SwitchTo? && Trim(newConfig.activeNodeId) == newConfig.activeNodeId
    requires Synced(oldConfig) && Synced(newConfig)
    requires Render(oldConfig, renders, host).Some? && Render(newConfig, renders, host).Some?
    ensures SwitchSuffices(Render(oldConfig, renders, host).value, Render(newConfig, renders, host).value, Decide(oldConfig, newConfig, plan).target)
       <==> RenderableNodes(newConfig, renders).Some? && |RenderableNodes(newConfig, renders).value| >= 2 && !Requires(ResolveActive(oldConfig))
  {
    hide Usable, Trim, Decide, ResolveActive, Requires, Render, RenderableNodes, Synced, SwitchSuffices;
    SwitchMeansPlain(oldConfig, newConfig, plan);
    SwitchSufficesIff(oldConfig, newConfig, plan, renders, host);
    if !Requires(ResolveActive(oldConfig)) { PlainRenderable(oldConfig, newConfig, renders); }
  }

  /** When the old active ID names a usable node, a decision to switch is always right, as long as
      two nodes render: the only gap is an old ID that is blank or unknown. */
  lemma SwitchFromKnownSuffices(oldConfig: Config, newConfig: Config, plan: ReloadPlan, renders: Renders, host: string -> string)
    requires Decide(oldConfig, newConfig, plan).SwitchTo?
    requires Synced(oldConfig) && Synced(newConfig) && Trim(newConfig.activeNodeId) == newConfig.activeNodeId
    requires Render(oldConfig, renders, host).Some? && Render(newConfig, renders, host).Some?
    requires oldConfig.activeNodeId != "" && Trim(oldConfig.activeNodeId) == oldConfig.activeNodeId
    requires Find(Usable(oldConfig.nodes), oldConfig.activeNodeId).Some?
    requires RenderableNodes(newConfig, renders).Some? && |RenderableNodes(newConfig, renders).value| >= 2
    ensures SwitchSuffices(Render(oldConfig, renders, host).value, Render(newConfig, renders, host).value,
                           Decide(oldConfig, newConfig, plan).target)
  {
    hide Render, Synced, SwitchSuffices, RenderableNodes;
    KnownOldIsPlain(oldConfig, newConfig, plan);
    TrimmedSwitchSufficesIff(oldConfig, newConfig, plan, renders, host);
  }

  lemma KnownOldIsPlain(oldConfig: Config, newConfig: Config, plan: ReloadPlan)
    requires Decide(oldConfig, newConfig, plan).SwitchTo?
    requires oldConfig.activeNodeId != "" && Trim(oldConfig.activeNodeId) == oldConfig.activeNodeId
    requires Find(Usable(oldConfig.nodes), oldConfig.activeNodeId).Some?
    ensures !Requires(ResolveActive(oldConfig))
  {
    hide RequiresXraySidecar, Usable, Trim;
    FindIsIn(Usable(oldConfig.nodes), oldConfig.activeNodeId);
  }

  lemma ActiveExists(cfg: Config)
    ensures Usable(cfg.nodes) != [] ==> ResolveActive(cfg).Some?
  {
    hide Usable;
  }

  lemma PlainRenderable(a: Config, b: Config, renders: Renders)
    requires a.nodes == b.nodes && !Requires(ResolveActive(a)) && !Requires(ResolveActive(b))
    requires RenderableNodes(a, renders).Some? && RenderableNodes(b, renders).Some?
    ensures RenderableNodes(a, renders) == RenderableNodes(b, renders)
  {
    hide Usable, Trim, ResolveActive, Requires;
    SameRenderable(Usable(a.nodes), Trim(a.activeNodeId), Trim(b.activeNodeId), "", renders);
  }

  lemma SwitchWorks(running: Rendered, wanted: Rendered, target: string, s: nat)
    requires IsProxySelector(running.outbounds, s)
    requires wanted == running.(outbounds := running.outbounds[s := running.outbounds[s].(chosen := target)])
    ensures SwitchSuffices(running, wanted, target)
  {
  }

  /** A switch can turn one graph into another only if both are built from the same nodes. */
  lemma SwitchKeepsSources(running: Rendered, wanted: Rendered, target: string, a: Config, before: seq<NodeProfile>, b: Config, after: seq<NodeProfile>)
    requires SwitchSuffices(running, wanted, target)
    requires running.outbounds == Graph(a, before) && wanted.outbounds == Graph(b, after)
    ensures |after| > 1 && before == after && running.remoteDetour == wanted.remoteDetour
  {
    hide Graph;
    var s: nat :| IsProxySelector(running.outbounds, s)
             && wanted == running.(outbounds := running.outbounds[s := running.outbounds[s].(chosen := target)]);
    ProxySelectorPlace(a, before, s);
    ProxySelectorPlace(b, after, s);
    forall i | 0 <= i < |after| ensures before[i] == after[i] {
      NodeOfGraph(a, before, i);
      NodeOfGraph(b, after, i);
      assert running.outbounds[i] == wanted.outbounds[i];
    }
  }

  lemma NodeOfGraph(cfg: Config, profiles: seq<NodeProfile>, i: nat)
    requires i < |profiles|
    ensures |Graph(cfg, profiles)| > i && Graph(cfg, profiles)[i] == NodeOut(profiles[i].tag, profiles[i])
  {
    hide Choice, AllGroups, Plans;
    NodeOutsCount(profiles);
    assert Graph(cfg, profiles) == NodeOuts(profiles) + (Choice(cfg, profiles) + AllGroups(Plans(profiles)) + [Direct("direct")]);
  }
}
