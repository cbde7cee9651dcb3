/** When the selector is switched and to what, and what rendering takes from the nodes, told from the stored nodes alone. */
module SwitchOutcomes {
  import opened Basics
  import opened Text
  import opened ProxyNode
  import opened OutboundGraph
  import opened SelectorSwitch
  import opened GraphNodes

  /** The place of the first fit node with this ID. */
  ghost predicate NamedAt(nodes: seq<StoredNode>, a: nat, id: string) {
    a < |nodes| && Fit(nodes[a]) && nodes[a].profile.id == id && forall j :: 0 <= j < a && Fit(nodes[j]) ==> nodes[j].profile.id != id
  }

  /** The ID names a node that needs a sidecar. */
  ghost predicate NamesSidecar(nodes: seq<StoredNode>, id: string) {
    id != "" && exists a: nat :: NamedAt(nodes, a, id) && NeedsSidecar(nodes[a].profile)
  }

  ghost predicate SeveralFit(nodes: seq<StoredNode>) {
    exists i, j :: 0 <= i < j < |nodes| && Fit(nodes[i]) && Fit(nodes[j])
  }

  ghost predicate SomeFitNeedsSidecar(nodes: seq<StoredNode>) {
    exists i :: 0 <= i < |nodes| && Fit(nodes[i]) && NeedsSidecar(nodes[i].profile)
  }

  /** What stands against switching. */
  ghost predicate Hinders(oldConfig: Config, newConfig: Config, plan: ReloadPlan, reason: Decision) {
    var oldId, newId := Trim(oldConfig.activeNodeId), Trim(newConfig.activeNodeId);
    match reason
    case FullRestartRequired => plan.fullRestart
    case NetstackReapplyRequired => plan.netstackReapplyAfter
    case ScriptEnvChanged => plan.changedKeys != []
    case ClashApiDisabled => newConfig.apiPort <= 0 || Trim(newConfig.apiSecret) == ""
    case ActiveNodeUnchanged => oldId == newId
    case OtherConfigChanged => newConfig != oldConfig.(activeNodeId := newConfig.activeNodeId, node := newConfig.node)
    case SingleOutbound => !SeveralFit(newConfig.nodes)
    case OldNeedsSidecar => NamesSidecar(oldConfig.nodes, oldId)
    case NewNeedsSidecar => NamesSidecar(newConfig.nodes, newId)
    case AutoSetHasSidecar => newId == "" && SomeFitNeedsSidecar(newConfig.nodes)
    case NotFound => newId != "" && forall a: nat :: !NamedAt(newConfig.nodes, a, newId)
    case _ => false
  }

  /** The order in which the reasons are looked at. */
  function Turn(reason: Decision): nat {
    match reason
    case FullRestartRequired => 0
    case NetstackReapplyRequired => 1
    case ScriptEnvChanged => 2
    case ClashApiDisabled => 3
    case ActiveNodeUnchanged => 4
    case OtherConfigChanged => 5
    case SingleOutbound => 6
    case OldNeedsSidecar => 7
    case NewNeedsSidecar => 8
    case AutoSetHasSidecar => 9
    case NotFound => 10
    case TagEmpty => 11
    case SwitchTo(_) => 12
  }

  // Steps.

  lemma {:induction false} SomeUsable(nodes: seq<StoredNode>)
    ensures Usable(nodes) != [] <==> exists i :: 0 <= i < |nodes| && Fit(nodes[i])
  {
    hide Usable, Fit;
    if i :| 0 <= i < |nodes| && Fit(nodes[i]) { UsableHas(nodes, i); } else { NothingUsable(nodes); }
  }

  lemma {:induction false} UsableHas(nodes: seq<StoredNode>, i: nat)
    requires i < |nodes| && Fit(nodes[i])
    ensures At(nodes, i) in Usable(nodes)
  {
    hide Usable, Fit, OutboundTag;
    var n := |nodes| - 1;
    UsableStep(nodes);
    if i < n {
      UsableHas(nodes[..n], i);
      assert At(nodes[..n], i) == At(nodes, i);
    }
  }

  lemma {:induction false} SeveralIff(nodes: seq<StoredNode>)
    ensures |Usable(nodes)| > 1 <==> SeveralFit(nodes)
  {
    hide Usable, Fit, OutboundTag;
    if nodes == [] {
      NothingUsable(nodes);
    } else {
      var n := |nodes| - 1;
      UsableStep(nodes);
      SeveralIff(nodes[..n]);
      SomeUsable(nodes[..n]);
      assert forall i :: 0 <= i < n ==> nodes[..n][i] == nodes[i];
      if SeveralFit(nodes[..n]) {
        var i, j :| 0 <= i < j < n && Fit(nodes[..n][i]) && Fit(nodes[..n][j]);
        assert Fit(nodes[i]) && Fit(nodes[j]);
      }
      if Fit(nodes[n]) {
        if i :| 0 <= i < n && Fit(nodes[..n][i]) { assert Fit(nodes[i]); }
      }
    }
  }

  lemma FoundAt(nodes: seq<StoredNode>, id: string, a: nat)
    requires NamedAt(nodes, a, id)
    ensures Find(Usable(nodes), id) == Some(At(nodes, a))
  {
    hide Fit, Usable, OutboundTag;
    FindPlace(nodes, id, a);
  }

  lemma SomeNamed(nodes: seq<StoredNode>, id: string, i: nat) returns (a: nat)
    requires i < |nodes| && Fit(nodes[i]) && nodes[i].profile.id == id
    ensures NamedAt(nodes, a, id)
  {
    a := FirstFit(nodes, i, false, id);
  }

  lemma NotFoundAt(nodes: seq<StoredNode>, id: string)
    requires forall a: nat :: !NamedAt(nodes, a, id)
    ensures Find(Usable(nodes), id) == None
  {
    hide Usable, OutboundTag, NamedAt;
    forall i | 0 <= i < |nodes| && Fit(nodes[i]) ensures nodes[i].profile.id != id {
      if nodes[i].profile.id == id { var a := SomeNamed(nodes, id, i); }
    }
    FindNothing(nodes, id);
  }

  lemma NamedOnce(nodes: seq<StoredNode>, a: nat, b: nat, id: string)
    requires NamedAt(nodes, a, id) && NamedAt(nodes, b, id)
    ensures a == b
  {
  }

  /** What the daemon finds under the trimmed ID. */
  lemma ProfileNamed(cfg: Config)
    ensures var id := Trim(cfg.activeNodeId);
            && (ProfileById(cfg, id).None? <==> id == "" || forall a: nat :: !NamedAt(cfg.nodes, a, id))
            && (Requires(ProfileById(cfg, id)) <==> NamesSidecar(cfg.nodes, id))
            && forall a: nat :: id != "" && NamedAt(cfg.nodes, a, id) ==> ProfileById(cfg, id) == Some(At(cfg.nodes, a))
  {
    hide Usable, OutboundTag, Trim, RequiresXraySidecar, NeedsSidecar, NamedAt;
    var id := Trim(cfg.activeNodeId);
    TrimFixed(id);
    if a: nat :| NamedAt(cfg.nodes, a, id) {
      NamedIsFit(cfg.nodes, a, id);
      FoundAt(cfg.nodes, id, a);
      SidecarMeans(At(cfg.nodes, a));
      SameNeeds(cfg.nodes, a);
      forall b: nat | NamedAt(cfg.nodes, b, id) ensures b == a {
        NamedOnce(cfg.nodes, a, b, id);
      }
    } else {
      NotFoundAt(cfg.nodes, id);
    }
  }

  lemma NamedIsFit(nodes: seq<StoredNode>, a: nat, id: string)
    requires NamedAt(nodes, a, id)
    ensures a < |nodes| && Fit(nodes[a])
  {
  }

  lemma {:induction false} SidecarAmong(nodes: seq<StoredNode>)
    ensures SomeNeedsSidecar(Usable(nodes)) <==> SomeFitNeedsSidecar(nodes)
  {
    hide Usable, OutboundTag, RequiresXraySidecar, NeedsSidecar, SomeNeedsSidecar;
    if nodes == [] {
      NothingUsable(nodes);
      NoneNeedsSidecar();
    } else {
      var n := |nodes| - 1;
      UsableStep(nodes);
      SidecarAmong(nodes[..n]);
      if Fit(nodes[n]) {
        OneMoreSidecar(Usable(nodes[..n]), At(nodes, n));
        SidecarMeans(At(nodes, n));
        SameNeeds(nodes, n);
      } else {
        assert Usable(nodes) == Usable(nodes[..n]);
      }
      assert forall i :: 0 <= i < n ==> nodes[..n][i] == nodes[i];
      if SomeFitNeedsSidecar(nodes[..n]) {
        var i :| 0 <= i < n && Fit(nodes[..n][i]) && NeedsSidecar(nodes[..n][i].profile);
        assert Fit(nodes[i]);
      }
    }
  }

  lemma NoneNeedsSidecar()
    ensures !SomeNeedsSidecar([])
  {
  }

  lemma OneMoreSidecar(front: seq<NodeProfile>, p: NodeProfile)
    ensures SomeNeedsSidecar(front + [p]) <==> SomeNeedsSidecar(front) || RequiresXraySidecar(p)
  {
    hide RequiresXraySidecar;
    var all := front + [p];
    if SomeNeedsSidecar(front) {
      var i :| 0 <= i < |front| && RequiresXraySidecar(front[i]);
      assert RequiresXraySidecar(all[i]);
    }
    if RequiresXraySidecar(p) { assert RequiresXraySidecar(all[|front|]); }
  }

  lemma MaskedEqualIff(oldConfig: Config, newConfig: Config)
    ensures Masked(oldConfig) == Masked(newConfig) <==> newConfig == oldConfig.(activeNodeId := newConfig.activeNodeId, node := newConfig.node)
  {
  }

  // The decision.

  lemma TagIsPlain(p: NodeProfile, i: nat)
    ensures Trim(OutboundTag(p, i)) == OutboundTag(p, i) != ""
  {
    hide Trim, OutboundTag;
    TagsOfNodes(p, i);
    TagIsNotBlank(p, i);
  }

  lemma SettingsHinder(oldConfig: Config, newConfig: Config, plan: ReloadPlan)
    ensures Hinders(oldConfig, newConfig, plan, FullRestartRequired) <==> plan.fullRestart
    ensures Hinders(oldConfig, newConfig, plan, NetstackReapplyRequired) <==> plan.netstackReapplyAfter
    ensures Hinders(oldConfig, newConfig, plan, ScriptEnvChanged) <==> plan.changedKeys != []
    ensures Hinders(oldConfig, newConfig, plan, ClashApiDisabled) <==> newConfig.apiPort <= 0 || Trim(newConfig.apiSecret) == ""
    ensures Hinders(oldConfig, newConfig, plan, ActiveNodeUnchanged) <==> Trim(oldConfig.activeNodeId) == Trim(newConfig.activeNodeId)
    ensures Hinders(oldConfig, newConfig, plan, OtherConfigChanged) <==> Masked(oldConfig) != Masked(newConfig)
  {
    hide Trim, NamesSidecar, SeveralFit, SomeFitNeedsSidecar, NamedAt;
    MaskedEqualIff(oldConfig, newConfig);
  }

  lemma NodesHinder(oldConfig: Config, newConfig: Config, plan: ReloadPlan)
    ensures Hinders(oldConfig, newConfig, plan, SingleOutbound) <==> |Usable(newConfig.nodes)| <= 1
    ensures Hinders(oldConfig, newConfig, plan, OldNeedsSidecar) <==> Requires(ProfileById(oldConfig, Trim(oldConfig.activeNodeId)))
    ensures Hinders(oldConfig, newConfig, plan, NewNeedsSidecar) <==> Requires(ProfileById(newConfig, Trim(newConfig.activeNodeId)))
    ensures Hinders(oldConfig, newConfig, plan, AutoSetHasSidecar) <==> Trim(newConfig.activeNodeId) == "" && SomeNeedsSidecar(Usable(newConfig.nodes))
    ensures Hinders(oldConfig, newConfig, plan, NotFound) <==>
            Trim(newConfig.activeNodeId) != "" && ProfileById(newConfig, Trim(newConfig.activeNodeId)).None?
  {
    hide Usable, Trim, Requires, ProfileById, SomeNeedsSidecar, NamesSidecar, SeveralFit, SomeFitNeedsSidecar, NamedAt, Fit;
    ProfileNamed(oldConfig);
    ProfileNamed(newConfig);
    SeveralIff(newConfig.nodes);
    SidecarAmong(newConfig.nodes);
  }

  lemma TagsAreNotBlank(cfg: Config)
    ensures var found := ProfileById(cfg, Trim(cfg.activeNodeId)); found.Some? ==> Trim(found.value.tag) != ""
  {
    hide Usable, Trim, OutboundTag, NamedAt, Requires, NamesSidecar;
    ProfileNamed(cfg);
    if a: nat :| Trim(cfg.activeNodeId) != "" && NamedAt(cfg.nodes, a, Trim(cfg.activeNodeId)) {
      NamedIsFit(cfg.nodes, a, Trim(cfg.activeNodeId));
      TagIsPlain(cfg.nodes[a].profile, a);
    }
  }

  lemma DecisionHinders(oldConfig: Config, newConfig: Config, plan: ReloadPlan)
    ensures var d := Decide(oldConfig, newConfig, plan); !d.SwitchTo? ==> Hinders(oldConfig, newConfig, plan, d)
  {
    hide Usable, Trim, Requires, ProfileById, SomeNeedsSidecar, Masked, Hinders;
    SettingsHinder(oldConfig, newConfig, plan);
    NodesHinder(oldConfig, newConfig, plan);
    TagsAreNotBlank(newConfig);
  }

  lemma NotEarlier(oldConfig: Config, newConfig: Config, plan: ReloadPlan, reason: Decision)
    requires Hinders(oldConfig, newConfig, plan, reason)
    ensures var d := Decide(oldConfig, newConfig, plan); !d.SwitchTo? && Turn(d) <= Turn(reason)
  {
    hide Usable, Trim, Requires, ProfileById, SomeNeedsSidecar, Masked, Hinders;
    SettingsHinder(oldConfig, newConfig, plan);
    NodesHinder(oldConfig, newConfig, plan);
    NoOtherReasons(oldConfig, newConfig, plan, reason);
  }

  lemma NoOtherReasons(oldConfig: Config, newConfig: Config, plan: ReloadPlan, reason: Decision)
    requires Hinders(oldConfig, newConfig, plan, reason)
    ensures !reason.SwitchTo? && !reason.TagEmpty?
  {
    hide Trim, NamesSidecar, SeveralFit, SomeFitNeedsSidecar, NamedAt;
  }

  /** The selector is switched exactly when nothing stands against it, and otherwise the reason is the
      first one in the order of the checks. */
  lemma SwitchIff(oldConfig: Config, newConfig: Config, plan: ReloadPlan)
    ensures var d := Decide(oldConfig, newConfig, plan);
            if d.SwitchTo? then forall reason :: !Hinders(oldConfig, newConfig, plan, reason)
            else Hinders(oldConfig, newConfig, plan, d)
                 && forall reason :: Hinders(oldConfig, newConfig, plan, reason) ==> Turn(d) <= Turn(reason)
  {
    hide Decide, Hinders, Turn;
    DecisionHinders(oldConfig, newConfig, plan);
    forall reason | Hinders(oldConfig, newConfig, plan, reason)
      ensures !Decide(oldConfig, newConfig, plan).SwitchTo? && Turn(Decide(oldConfig, newConfig, plan)) <= Turn(reason)
    {
      NotEarlier(oldConfig, newConfig, plan, reason);
    }
  }

  /** The target is the tag of the node that the trimmed new ID names, or the automatic choice for a blank one. */
  lemma TargetMeans(oldConfig: Config, newConfig: Config, plan: ReloadPlan)
    requires Decide(oldConfig, newConfig, plan).SwitchTo?
    ensures var target, id := Decide(oldConfig, newConfig, plan).target, Trim(newConfig.activeNodeId);
            && (id == "" ==> target == "auto")
            && forall a: nat :: id != "" && NamedAt(newConfig.nodes, a, id) ==> Fit(newConfig.nodes[a]) && target == OutboundTag(newConfig.nodes[a].profile, a)
  {
    hide Usable, Trim, Decide, OutboundTag, RequiresXraySidecar;
    var id := Trim(newConfig.activeNodeId);
    SwitchMeansPlain(oldConfig, newConfig, plan);
    TrimFixed(id);
    forall a: nat | id != "" && NamedAt(newConfig.nodes, a, id)
      ensures Fit(newConfig.nodes[a]) && Decide(oldConfig, newConfig, plan).target == OutboundTag(newConfig.nodes[a].profile, a)
    {
      FoundAt(newConfig.nodes, id, a);
      TagIsPlain(newConfig.nodes[a].profile, a);
    }
  }

  // Rendering.

  /** What no rule decides on goes direct in the direct mode, and through the proxy in any other. */
  lemma LastResort(cfg: Config)
    ensures FinalOutbound(cfg) in ["direct", "proxy"] && (FinalOutbound(cfg) == "direct" <==> cfg.routingMode == "direct")
  {
  }

  /** The remote resolver is reached directly exactly if the effectively active node needs a sidecar. */
  lemma DetourMeans(cfg: Config, a: nat)
    requires ActiveAt(cfg, a) && Synced(cfg)
    ensures RemoteDetour(ResolveProfile(cfg)) == if NeedsSidecar(cfg.nodes[a].profile) then "direct" else "proxy"
  {
    hide Usable, OutboundTag, RequiresXraySidecar, NeedsSidecar, ResolveActive, ResolveProfile;
    ActiveIs(cfg, a);
    SyncedNeedsSidecar(cfg);
    SidecarMeans(At(cfg.nodes, a));
    SameNeeds(cfg.nodes, a);
  }

  lemma {:induction false} UsableIsFit(nodes: seq<StoredNode>, p: NodeProfile) returns (i: nat)
    requires p in Usable(nodes)
    ensures i < |nodes| && Fit(nodes[i]) && p == At(nodes, i)
  {
    hide Usable, Fit, OutboundTag;
    if nodes == [] {
      NothingUsable(nodes);
      assert false;
    } else {
      var n := |nodes| - 1;
      UsableStep(nodes);
      if p in Usable(nodes[..n]) {
        i := UsableIsFit(nodes[..n], p);
        assert At(nodes[..n], i) == At(nodes, i);
      } else {
        i := n;
      }
    }
  }

  /** Some fit node's address names this host. */
  ghost predicate HostsNode(nodes: seq<StoredNode>, host: string -> string, endpoint: string) {
    endpoint != "" && exists i :: 0 <= i < |nodes| && Fit(nodes[i]) && host(nodes[i].profile.address) == endpoint
  }

  lemma NamedHosts(cfg: Config, host: string -> string, endpoint: string)
    ensures HostsNode(cfg.nodes, host, endpoint) <==>
            exists k :: 0 <= k < |Usable(cfg.nodes)| && host(Usable(cfg.nodes)[k].address) != "" && host(Usable(cfg.nodes)[k].address) == endpoint
  {
    hide Usable, OutboundTag;
    var profiles := Usable(cfg.nodes);
    if k :| 0 <= k < |profiles| && host(profiles[k].address) != "" && host(profiles[k].address) == endpoint {
      var i := UsableIsFit(cfg.nodes, profiles[k]);
      assert Fit(cfg.nodes[i]);
    }
    if i :| endpoint != "" && 0 <= i < |cfg.nodes| && Fit(cfg.nodes[i]) && host(cfg.nodes[i].profile.address) == endpoint {
      UsableHas(cfg.nodes, i);
      var k :| 0 <= k < |profiles| && profiles[k] == At(cfg.nodes, i);
      assert host(profiles[k].address) == endpoint;
    }
  }

  /** The hosts that are kept out of the tunnel are those of the fit nodes, active or not; where these
      name none, that of the resolved node. */
  lemma EndpointsMean(cfg: Config, host: string -> string, endpoint: string)
    ensures endpoint in Endpoints(cfg, host) <==>
            HostsNode(cfg.nodes, host, endpoint)
            || (endpoint != "" && endpoint == host(ResolveProfile(cfg).address) && forall e :: !HostsNode(cfg.nodes, host, e))
  {
    hide Usable, HostsNode, ResolveProfile;
    forall e
      ensures HostsNode(cfg.nodes, host, e) <==>
              exists k :: 0 <= k < |Usable(cfg.nodes)| && host(Usable(cfg.nodes)[k].address) != "" && host(Usable(cfg.nodes)[k].address) == e
    {
      NamedHosts(cfg, host, e);
    }
    NamedOrResolved(cfg, host);
    var profiles := Usable(cfg.nodes);
    if k :| 0 <= k < |profiles| && host(profiles[k].address) != "" { assert HostsNode(cfg.nodes, host, host(profiles[k].address)); }
  }

  lemma NamedOrResolved(cfg: Config, host: string -> string)
    ensures var profiles, fallback := Usable(cfg.nodes), host(ResolveProfile(cfg).address);
            Endpoints(cfg, host) ==
            if forall k :: 0 <= k < |profiles| ==> host(profiles[k].address) == "" then (if fallback == "" then {} else {fallback})
            else set k | 0 <= k < |profiles| && host(profiles[k].address) != "" :: host(profiles[k].address)
  {
    hide Usable, ResolveProfile;
    var profiles := Usable(cfg.nodes);
    var named := set k | 0 <= k < |profiles| && host(profiles[k].address) != "" :: host(profiles[k].address);
    if k :| 0 <= k < |profiles| && host(profiles[k].address) != "" { assert host(profiles[k].address) in named; }
  }

  /** A configuration renders exactly if its local API, when it has one, has a secret and there is a
      graph; the resolved node is the effectively active one if that needs a sidecar, and the projected one otherwise. */
  lemma RenderMeans(cfg: Config, a: nat, renders: Renders, host: string -> string)
    requires ActiveAt(cfg, a)
    ensures var resolved := if NeedsSidecar(cfg.nodes[a].profile) then At(cfg.nodes, a) else FromNode(cfg.node);
            && ResolveProfile(cfg) == resolved
            && (Render(cfg, renders, host).Some? <==> (cfg.apiPort <= 0 || Trim(cfg.apiSecret) != "") && Outbounds(cfg, resolved, renders).Some?)
            && (Render(cfg, renders, host).Some? ==>
                  var rendered := Render(cfg, renders, host).value;
                  rendered.outbounds == Outbounds(cfg, resolved, renders).value && rendered.endpoints == Endpoints(cfg, host))
  {
    hide Usable, OutboundTag, RequiresXraySidecar, NeedsSidecar, ResolveActive, Outbounds, Endpoints, Trim, Plans, RemoteDetour;
    ActiveIs(cfg, a);
    SidecarMeans(At(cfg.nodes, a));
    SameNeeds(cfg.nodes, a);
  }
}
