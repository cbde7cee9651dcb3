/** Which stored nodes a rendered configuration is made of, and what its selectors hold. */
module GraphNodes {
  import opened Basics
  import opened Text
  import opened ProxyNode
  import opened OutboundGraph
  import opened SelectorSwitch

  /** A stored node that decodes, is not stale, and has an address, a port and a protocol. */
  predicate Fit(node: StoredNode) {
    node.Stored? && !node.profile.stale && node.profile.address != "" && node.profile.port != 0 && node.profile.protocol != ""
  }

  /** XHTTP over VLESS is what the core cannot do by itself. */
  predicate NeedsSidecar(p: NodeProfile) {
    Lower(Trim(p.protocol)) == "vless" && Lower(Trim(p.transport)) == "xhttp"
  }

  /** The node at place i under its tag. */
  function At(nodes: seq<StoredNode>, i: nat): NodeProfile
    requires i < |nodes| && Fit(nodes[i])
  {
    nodes[i].profile.(tag := OutboundTag(nodes[i].profile, i))
  }

  /** Whether place i makes an outbound, `sidecarId` being the ID that XHTTP nodes must have. */
  predicate Goes(nodes: seq<StoredNode>, i: nat, sidecarId: string, renders: Renders)
    requires i < |nodes|
  {
    Fit(nodes[i]) && (NeedsSidecar(nodes[i].profile) ==> nodes[i].profile.id == sidecarId) && renders(At(nodes, i))
  }

  /** How many of the first i places make an outbound. */
  function GoingBefore(nodes: seq<StoredNode>, i: nat, sidecarId: string, renders: Renders): nat
    requires i <= |nodes|
  {
    if i == 0 then 0 else GoingBefore(nodes, i - 1, sidecarId, renders) + if Goes(nodes, i - 1, sidecarId, renders) then 1 else 0
  }

  /** The place of the node that is effectively active: the first fit one with the stored ID, or the first fit one at all. */
  ghost predicate ActiveAt(cfg: Config, a: nat) {
    a < |cfg.nodes| && Fit(cfg.nodes[a])
    && if cfg.nodes[a].profile.id == cfg.activeNodeId then forall j :: 0 <= j < a && Fit(cfg.nodes[j]) ==> cfg.nodes[j].profile.id != cfg.activeNodeId
       else (forall j :: 0 <= j < |cfg.nodes| && Fit(cfg.nodes[j]) ==> cfg.nodes[j].profile.id != cfg.activeNodeId)
            && forall j :: 0 <= j < a ==> !Fit(cfg.nodes[j])
  }

  function SidecarId(cfg: Config, a: nat): string
    requires a < |cfg.nodes| && Fit(cfg.nodes[a])
  {
    if NeedsSidecar(cfg.nodes[a].profile) then cfg.nodes[a].profile.id else ""
  }

  /** The active ID names a fit node that would be rendered but cannot be. */
  ghost predicate ActiveBroken(cfg: Config, sidecarId: string, renders: Renders) {
    var id := Trim(cfg.activeNodeId);
    id != "" && exists i :: 0 <= i < |cfg.nodes| && Fit(cfg.nodes[i]) && cfg.nodes[i].profile.id == id
                         && (NeedsSidecar(cfg.nodes[i].profile) ==> id == sidecarId) && !renders(At(cfg.nodes, i))
  }

  // Steps.

  lemma SidecarMeans(p: NodeProfile)
    ensures RequiresXraySidecar(p) <==> NeedsSidecar(p)
  {
    LowerFixed("vless");
    LowerFixed("xhttp");
  }

  lemma UsableStep(nodes: seq<StoredNode>)
    requires nodes != []
    ensures var n := |nodes| - 1; Usable(nodes) == Usable(nodes[..n]) + if Fit(nodes[n]) then [At(nodes, n)] else []
  {
    hide OutboundTag;
  }

  lemma RenderableStep(front: seq<NodeProfile>, p: NodeProfile, activeId: string, xhttpId: string, renders: Renders)
    ensures var before, r := Renderable(front, activeId, xhttpId, renders), Renderable(front + [p], activeId, xhttpId, renders);
            if before.None? then r.None?
            else if NeedsSidecar(p) && p.id != xhttpId then r == before
            else if renders(p) then r == Some(before.value + [p])
            else if activeId != "" && p.id == activeId then r.None? else r == before
  {
    hide RequiresXraySidecar, NeedsSidecar;
    SidecarMeans(p);
    assert (front + [p])[..|front|] == front;
  }

  function Rendered(nodes: seq<StoredNode>, activeId: string, xhttpId: string, renders: Renders): Option<seq<NodeProfile>> {
    Renderable(Usable(nodes), activeId, xhttpId, renders)
  }

  lemma OneMoreNode(nodes: seq<StoredNode>, activeId: string, xhttpId: string, renders: Renders)
    requires nodes != []
    ensures var n := |nodes| - 1;
            var before, r := Rendered(nodes[..n], activeId, xhttpId, renders), Rendered(nodes, activeId, xhttpId, renders);
            if before.None? then r.None?
            else if Goes(nodes, n, xhttpId, renders) then r == Some(before.value + [At(nodes, n)])
            else if Fit(nodes[n]) && activeId != "" && nodes[n].profile.id == activeId && (NeedsSidecar(nodes[n].profile) ==> activeId == xhttpId) then r.None?
            else r == before
  {
    hide NeedsSidecar, Usable, Renderable, OutboundTag;
    var n := |nodes| - 1;
    UsableStep(nodes);
    if Fit(nodes[n]) {
      SameNeeds(nodes, n);
      RenderableStep(Usable(nodes[..n]), At(nodes, n), activeId, xhttpId, renders);
    } else {
      assert Usable(nodes) == Usable(nodes[..n]);
    }
  }

  lemma SameNeeds(nodes: seq<StoredNode>, n: nat)
    requires n < |nodes| && Fit(nodes[n])
    ensures NeedsSidecar(At(nodes, n)) <==> NeedsSidecar(nodes[n].profile)
  {
    hide OutboundTag;
  }

  lemma {:induction false} GoingFront(nodes: seq<StoredNode>, n: nat, i: nat, sidecarId: string, renders: Renders)
    requires i <= n <= |nodes|
    ensures GoingBefore(nodes[..n], i, sidecarId, renders) == GoingBefore(nodes, i, sidecarId, renders)
  {
    hide NeedsSidecar, OutboundTag;
    if i > 0 { GoingFront(nodes, n, i - 1, sidecarId, renders); }
  }

  lemma {:induction false} RenderedCount(nodes: seq<StoredNode>, activeId: string, xhttpId: string, renders: Renders)
    requires Rendered(nodes, activeId, xhttpId, renders).Some?
    ensures |Rendered(nodes, activeId, xhttpId, renders).value| == GoingBefore(nodes, |nodes|, xhttpId, renders)
  {
    hide Rendered, Goes;
    if nodes != [] {
      var n := |nodes| - 1;
      OneMoreNode(nodes, activeId, xhttpId, renders);
      RenderedCount(nodes[..n], activeId, xhttpId, renders);
      GoingFront(nodes, n, n, xhttpId, renders);
    } else {
      NothingRendered(activeId, xhttpId, renders);
    }
  }

  lemma NothingRendered(activeId: string, xhttpId: string, renders: Renders)
    ensures Rendered([], activeId, xhttpId, renders) == Some([])
  {
  }

  lemma {:induction false} RenderedAt(nodes: seq<StoredNode>, activeId: string, xhttpId: string, renders: Renders, i: nat)
    requires Rendered(nodes, activeId, xhttpId, renders).Some? && i < |nodes| && Goes(nodes, i, xhttpId, renders)
    ensures var r, at := Rendered(nodes, activeId, xhttpId, renders).value, GoingBefore(nodes, i, xhttpId, renders);
            at < |r| && r[at] == At(nodes, i)
  {
    hide Rendered, NeedsSidecar, OutboundTag;
    var n := |nodes| - 1;
    OneMoreNode(nodes, activeId, xhttpId, renders);
    RenderedCount(nodes[..n], activeId, xhttpId, renders);
    GoingFront(nodes, n, n, xhttpId, renders);
    if i < n {
      assert At(nodes[..n], i) == At(nodes, i);
      RenderedAt(nodes[..n], activeId, xhttpId, renders, i);
      GoingFront(nodes, n, i, xhttpId, renders);
    }
  }

  lemma {:induction false} RenderedRefuses(nodes: seq<StoredNode>, activeId: string, xhttpId: string, renders: Renders)
    ensures Rendered(nodes, activeId, xhttpId, renders).None? <==>
            activeId != "" && exists i :: 0 <= i < |nodes| && Fit(nodes[i]) && nodes[i].profile.id == activeId
                                       && (NeedsSidecar(nodes[i].profile) ==> activeId == xhttpId) && !renders(At(nodes, i))
  {
    hide Rendered, NeedsSidecar, OutboundTag;
    if nodes == [] {
      NothingRendered(activeId, xhttpId, renders);
    } else {
      var n := |nodes| - 1;
      OneMoreNode(nodes, activeId, xhttpId, renders);
      RenderedRefuses(nodes[..n], activeId, xhttpId, renders);
      forall i | 0 <= i < n && Fit(nodes[i]) ensures nodes[..n][i] == nodes[i] && At(nodes[..n], i) == At(nodes, i) {
      }
      if Rendered(nodes[..n], activeId, xhttpId, renders).None? {
        var i :| 0 <= i < n && Fit(nodes[..n][i]) && nodes[..n][i].profile.id == activeId
                 && (NeedsSidecar(nodes[..n][i].profile) ==> activeId == xhttpId) && !renders(At(nodes[..n], i));
        assert Fit(nodes[i]) && !renders(At(nodes, i));
      }
    }
  }

  // The effectively active node.

  lemma {:induction false} FindPlace(nodes: seq<StoredNode>, id: string, a: nat)
    requires a < |nodes| && Fit(nodes[a]) && nodes[a].profile.id == id
    requires forall j :: 0 <= j < a && Fit(nodes[j]) ==> nodes[j].profile.id != id
    ensures Find(Usable(nodes), id) == Some(At(nodes, a))
  {
    hide Usable, OutboundTag;
    var n := |nodes| - 1;
    UsableStep(nodes);
    if a < n {
      assert At(nodes[..n], a) == At(nodes, a);
      FindPlace(nodes[..n], id, a);
    } else {
      assert nodes[..n] == nodes[..a];
      FindNothing(nodes[..a], id);
    }
    if Fit(nodes[n]) { FindAppends(Usable(nodes[..n]), At(nodes, n), id); } else { assert Usable(nodes) == Usable(nodes[..n]); }
  }

  lemma {:induction false} FindNothing(nodes: seq<StoredNode>, id: string)
    requires forall j :: 0 <= j < |nodes| && Fit(nodes[j]) ==> nodes[j].profile.id != id
    ensures Find(Usable(nodes), id) == None
  {
    hide Usable, OutboundTag;
    if nodes == [] {
      NothingUsable(nodes);
    } else {
      var n := |nodes| - 1;
      UsableStep(nodes);
      FindNothing(nodes[..n], id);
      if Fit(nodes[n]) { FindAppends(Usable(nodes[..n]), At(nodes, n), id); } else { assert Usable(nodes) == Usable(nodes[..n]); }
    }
  }

  lemma {:induction false} NothingUsable(nodes: seq<StoredNode>)
    requires forall j :: 0 <= j < |nodes| ==> !Fit(nodes[j])
    ensures Usable(nodes) == []
  {
    if nodes != [] { NothingUsable(nodes[..|nodes| - 1]); }
  }

  lemma {:induction false} FirstUsable(nodes: seq<StoredNode>, a: nat)
    requires a < |nodes| && Fit(nodes[a]) && forall j :: 0 <= j < a ==> !Fit(nodes[j])
    ensures Usable(nodes) != [] && Usable(nodes)[0] == At(nodes, a)
  {
    hide Usable, OutboundTag;
    var n := |nodes| - 1;
    UsableStep(nodes);
    if a < n {
      assert At(nodes[..n], a) == At(nodes, a);
      FirstUsable(nodes[..n], a);
    } else {
      assert nodes[..n] == nodes[..a];
      NothingUsable(nodes[..a]);
    }
  }

  lemma ActiveIs(cfg: Config, a: nat)
    requires ActiveAt(cfg, a)
    ensures Usable(cfg.nodes) != [] && ResolveActive(cfg) == Some(At(cfg.nodes, a)) && ActiveXhttpId(cfg) == SidecarId(cfg, a)
  {
    hide Usable, OutboundTag, RequiresXraySidecar, NeedsSidecar;
    SidecarMeans(At(cfg.nodes, a));
    SameNeeds(cfg.nodes, a);
    if cfg.nodes[a].profile.id == cfg.activeNodeId {
      FindPlace(cfg.nodes, cfg.activeNodeId, a);
      FindIsIn(Usable(cfg.nodes), cfg.activeNodeId);
    } else {
      FindNothing(cfg.nodes, cfg.activeNodeId);
      FirstUsable(cfg.nodes, a);
    }
  }

  /** The first of the places up to i that are fit, under an ID if one is given. */
  lemma {:induction false} FirstFit(nodes: seq<StoredNode>, i: nat, any: bool, id: string) returns (a: nat)
    requires i < |nodes| && Fit(nodes[i]) && (any || nodes[i].profile.id == id)
    ensures a <= i && Fit(nodes[a]) && (any || nodes[a].profile.id == id)
    ensures forall j :: 0 <= j < a && Fit(nodes[j]) ==> !any && nodes[j].profile.id != id
  {
    a := i;
    if j :| 0 <= j < i && Fit(nodes[j]) && (any || nodes[j].profile.id == id) {
      a := FirstFit(nodes, j, any, id);
    }
  }

  /** Some node is effectively active as soon as one is fit. */
  lemma SomeIsActive(cfg: Config, i: nat) returns (a: nat)
    requires i < |cfg.nodes| && Fit(cfg.nodes[i])
    ensures ActiveAt(cfg, a)
  {
    if j :| 0 <= j < |cfg.nodes| && Fit(cfg.nodes[j]) && cfg.nodes[j].profile.id == cfg.activeNodeId {
      a := FirstFit(cfg.nodes, j, false, cfg.activeNodeId);
    } else {
      a := FirstFit(cfg.nodes, i, true, "");
    }
  }

  // The theorems.

  lemma SourcesAre(cfg: Config, resolved: NodeProfile, renders: Renders, a: nat)
    requires ActiveAt(cfg, a)
    ensures var r := Rendered(cfg.nodes, Trim(cfg.activeNodeId), SidecarId(cfg, a), renders);
            && RenderableNodes(cfg, renders) == r
            && Sources(cfg, resolved, renders) == if r.None? || r.value == [] then None else Some(Retagged(r.value))
  {
    hide Usable, OutboundTag, Trim, NeedsSidecar, Retagged, Renderable, ActiveXhttpId, Decimal;
    ActiveIs(cfg, a);
  }

  /** With a fit node there is a graph exactly when some place makes an outbound and the active ID does
      not name a node that should have and cannot. */
  lemma RendersIff(cfg: Config, resolved: NodeProfile, renders: Renders, a: nat)
    requires ActiveAt(cfg, a)
    ensures Outbounds(cfg, resolved, renders).Some? <==>
            GoingBefore(cfg.nodes, |cfg.nodes|, SidecarId(cfg, a), renders) > 0 && !ActiveBroken(cfg, SidecarId(cfg, a), renders)
  {
    hide OutboundTag, Trim, NeedsSidecar, Retagged, Rendered, Sources, Graph, Goes, SidecarId;
    var id, sidecar := Trim(cfg.activeNodeId), SidecarId(cfg, a);
    SourcesAre(cfg, resolved, renders, a);
    RenderedRefuses(cfg.nodes, id, sidecar, renders);
    if Rendered(cfg.nodes, id, sidecar, renders).Some? { RenderedCount(cfg.nodes, id, sidecar, renders); }
  }

  /** Where nothing is fit, the resolved node alone makes the graph, if it can. */
  lemma ResolvedAloneIff(cfg: Config, resolved: NodeProfile, renders: Renders)
    requires forall i :: 0 <= i < |cfg.nodes| ==> !Fit(cfg.nodes[i])
    ensures var only, outs := resolved.(tag := "proxy"), Outbounds(cfg, resolved, renders);
            && (outs.Some? <==> resolved.address != "" && resolved.port != 0 && renders(only))
            && (outs.Some? ==> outs.value[0] == NodeOut("proxy", only) && forall j :: 0 < j < |outs.value| ==> !outs.value[j].NodeOut?)
  {
    hide Fit, AllGroups, Plans;
    NothingUsable(cfg.nodes);
    if Outbounds(cfg, resolved, renders).Some? { NodesInFront(cfg, [resolved.(tag := "proxy")]); }
  }

  /** The nodes stand in front of everything else. */
  lemma NodesInFront(cfg: Config, sources: seq<NodeProfile>)
    ensures var outs := Graph(cfg, sources);
            && |sources| <= |outs|
            && (forall j :: 0 <= j < |sources| ==> outs[j] == NodeOut(sources[j].tag, sources[j]))
            && forall j :: |sources| <= j < |outs| ==> !outs[j].NodeOut?
  {
    hide Plans, AllGroups, Choice;
    var nodes, choice, groups := NodeOuts(sources), Choice(cfg, sources), AllGroups(Plans(sources));
    var outs := Graph(cfg, sources);
    NodeOutsCount(sources);
    assert outs == nodes + (choice + groups + [Direct("direct")]);
    forall j | |sources| <= j < |outs| ensures !outs[j].NodeOut? {
      ChoiceHasNoNode(cfg, sources);
      GroupsHaveNoNode(Plans(sources));
      assert outs[j] in choice || outs[j] in groups || outs[j] == Direct("direct");
    }
  }

  lemma ChoiceHasNoNode(cfg: Config, sources: seq<NodeProfile>)
    ensures forall o :: o in Choice(cfg, sources) ==> !o.NodeOut?
  {
    hide Plans, ActiveTag;
  }

  lemma {:induction false} GroupsHaveNoNode(plans: seq<Plan>)
    ensures forall o :: o in AllGroups(plans) ==> !o.NodeOut?
  {
    if plans != [] { GroupsHaveNoNode(plans[..|plans| - 1]); }
  }

  /** The nodes of a graph stand in front, in the order of the stored list: a place makes an outbound
      exactly if its node decodes, is not stale, has an address, a port and a protocol, is no inactive
      XHTTP node and renders. A single one is called `proxy`, several go under tags of their own. */
  lemma NodesOfGraph(cfg: Config, resolved: NodeProfile, renders: Renders, a: nat, i: nat)
    requires ActiveAt(cfg, a) && Outbounds(cfg, resolved, renders).Some? && i < |cfg.nodes|
    ensures var outs, count := Outbounds(cfg, resolved, renders).value, GoingBefore(cfg.nodes, |cfg.nodes|, SidecarId(cfg, a), renders);
            && 0 < count <= |outs| && (forall j :: 0 <= j < |outs| ==> (outs[j].NodeOut? <==> j < count))
            && (Goes(cfg.nodes, i, SidecarId(cfg, a), renders) ==>
                  var at, p := GoingBefore(cfg.nodes, i, SidecarId(cfg, a), renders), cfg.nodes[i].profile;
                  var tag := if count == 1 then "proxy" else OutboundTag(p, i);
                  at < count && outs[at] == NodeOut(tag, p.(tag := tag)))
  {
    hide OutboundTag, Trim, NeedsSidecar, Retagged, Rendered, Sources, Graph, SidecarId;
    var id, sidecar := Trim(cfg.activeNodeId), SidecarId(cfg, a);
    SourcesAre(cfg, resolved, renders, a);
    RenderedCount(cfg.nodes, id, sidecar, renders);
    var kept := Rendered(cfg.nodes, id, sidecar, renders).value;
    RetaggedCount(kept);
    NodesInFront(cfg, Retagged(kept));
    if Goes(cfg.nodes, i, sidecar, renders) {
      RenderedAt(cfg.nodes, id, sidecar, renders, i);
      TagIsNotBlank(cfg.nodes[i].profile, i);
      TagsSettle(kept, GoingBefore(cfg.nodes, i, sidecar, renders));
    }
  }

  lemma TagIsNotBlank(p: NodeProfile, i: nat)
    ensures OutboundTag(p, i) != ""
  {
    hide TagBase;
  }

  lemma TagsSettle(kept: seq<NodeProfile>, at: nat)
    requires at < |kept| && kept[at].tag != ""
    ensures at < |Retagged(kept)| && Retagged(kept)[at] == kept[at].(tag := if |kept| == 1 then "proxy" else kept[at].tag)
  {
    hide Decimal;
  }

  /** Every node of the graph comes from such a place. */
  lemma {:induction false} PlaceOfNode(nodes: seq<StoredNode>, n: nat, k: nat, sidecarId: string, renders: Renders) returns (i: nat)
    requires n <= |nodes| && k < GoingBefore(nodes, n, sidecarId, renders)
    ensures i < n && Goes(nodes, i, sidecarId, renders) && GoingBefore(nodes, i, sidecarId, renders) == k
  {
    hide Goes;
    if k < GoingBefore(nodes, n - 1, sidecarId, renders) { i := PlaceOfNode(nodes, n - 1, k, sidecarId, renders); } else { i := n - 1; }
  }

  /** In particular no stale or incomplete node carries traffic. */
  lemma OnlyFitNodesAreEmitted(cfg: Config, resolved: NodeProfile, renders: Renders, a: nat, o: Outbound)
    requires ActiveAt(cfg, a) && Outbounds(cfg, resolved, renders).Some?
    requires o in Outbounds(cfg, resolved, renders).value && o.NodeOut?
    ensures !o.profile.stale && o.profile.address != "" && o.profile.port != 0 && o.profile.protocol != "" && o.tag == o.profile.tag
    ensures exists i :: 0 <= i < |cfg.nodes| && cfg.nodes[i].Stored? && o.profile == cfg.nodes[i].profile.(tag := o.tag)
  {
    hide OutboundTag, NeedsSidecar, SidecarId, Outbounds, GoingBefore;
    var outs, sidecar := Outbounds(cfg, resolved, renders).value, SidecarId(cfg, a);
    var k :| 0 <= k < |outs| && outs[k] == o;
    NodesOfGraph(cfg, resolved, renders, a, a);
    var i := PlaceOfNode(cfg.nodes, |cfg.nodes|, k, sidecar, renders);
    NodesOfGraph(cfg, resolved, renders, a, i);
  }

  // The choices.

  function TagsIn(outs: seq<Outbound>, count: nat): seq<string>
    requires count <= |outs|
  {
    seq(count, j requires 0 <= j < count => outs[j].tag)
  }

  /** Several nodes are followed by the automatic choice between all of them, and by selector `proxy`,
      which also offers every group. */
  lemma ChoicesOfGraph(cfg: Config, resolved: NodeProfile, renders: Renders, a: nat)
    requires ActiveAt(cfg, a) && Outbounds(cfg, resolved, renders).Some?
    ensures var outs, count := Outbounds(cfg, resolved, renders).value, GoingBefore(cfg.nodes, |cfg.nodes|, SidecarId(cfg, a), renders);
            count > 1 ==>
              && count + 1 < |outs| && outs[count] == UrlTest("auto", TagsIn(outs, count))
              && outs[count + 1].Selector? && outs[count + 1].tag == "proxy"
              && outs[count + 1].members == ["auto"] + TagsIn(outs, count) + GroupTags(Plans(Sources(cfg, resolved, renders).value))
  {
    hide OutboundTag, Trim, NeedsSidecar, Retagged, Rendered, Sources, SidecarId, AllGroups, Plans, Goes, GroupTags, ActiveTag;
    var sources, count := Sources(cfg, resolved, renders).value, GoingBefore(cfg.nodes, |cfg.nodes|, SidecarId(cfg, a), renders);
    CountsSources(cfg, resolved, renders, a);
    NodesInFront(cfg, sources);
    NodeOutsCount(sources);
    if count > 1 {
      var outs := Graph(cfg, sources);
      assert TagsIn(outs, count) == Tags(sources);
      assert outs == NodeOuts(sources) + (Choice(cfg, sources) + (AllGroups(Plans(sources)) + [Direct("direct")]));
    }
  }

  lemma CountsSources(cfg: Config, resolved: NodeProfile, renders: Renders, a: nat)
    requires ActiveAt(cfg, a) && Outbounds(cfg, resolved, renders).Some?
    ensures Sources(cfg, resolved, renders).Some?
    ensures |Sources(cfg, resolved, renders).value| == GoingBefore(cfg.nodes, |cfg.nodes|, SidecarId(cfg, a), renders)
  {
    hide OutboundTag, Trim, NeedsSidecar, Retagged, Rendered, Sources, Graph, SidecarId, Goes;
    var id, sidecar := Trim(cfg.activeNodeId), SidecarId(cfg, a);
    SourcesAre(cfg, resolved, renders, a);
    RenderedCount(cfg.nodes, id, sidecar, renders);
    RetaggedCount(Rendered(cfg.nodes, id, sidecar, renders).value);
  }

  lemma {:induction false} KeptIds(nodes: seq<StoredNode>, activeId: string, xhttpId: string, renders: Renders, id: string)
    requires Rendered(nodes, activeId, xhttpId, renders).Some?
    requires forall j :: 0 <= j < |nodes| && Goes(nodes, j, xhttpId, renders) ==> nodes[j].profile.id != id
    ensures Find(Rendered(nodes, activeId, xhttpId, renders).value, id) == None
  {
    hide Rendered, OutboundTag, NeedsSidecar;
    if nodes == [] {
      NothingRendered(activeId, xhttpId, renders);
    } else {
      var n := |nodes| - 1;
      OneMoreNode(nodes, activeId, xhttpId, renders);
      forall j | 0 <= j < n && Goes(nodes[..n], j, xhttpId, renders) ensures nodes[..n][j].profile.id != id {
        assert Goes(nodes, j, xhttpId, renders);
      }
      KeptIds(nodes[..n], activeId, xhttpId, renders, id);
      if Goes(nodes, n, xhttpId, renders) { FindAppends(Rendered(nodes[..n], activeId, xhttpId, renders).value, At(nodes, n), id); }
    }
  }

  lemma {:induction false} KeptFind(nodes: seq<StoredNode>, activeId: string, xhttpId: string, renders: Renders, id: string, i: nat)
    requires Rendered(nodes, activeId, xhttpId, renders).Some?
    requires i < |nodes| && Goes(nodes, i, xhttpId, renders) && nodes[i].profile.id == id
    requires forall j :: 0 <= j < i && Goes(nodes, j, xhttpId, renders) ==> nodes[j].profile.id != id
    ensures Find(Rendered(nodes, activeId, xhttpId, renders).value, id) == Some(At(nodes, i))
  {
    hide Rendered, OutboundTag, NeedsSidecar;
    var n := |nodes| - 1;
    OneMoreNode(nodes, activeId, xhttpId, renders);
    forall j | 0 <= j < n && j < i && Goes(nodes[..n], j, xhttpId, renders) ensures nodes[..n][j].profile.id != id {
      assert Goes(nodes, j, xhttpId, renders);
    }
    if i < n {
      assert At(nodes[..n], i) == At(nodes, i);
      KeptFind(nodes[..n], activeId, xhttpId, renders, id, i);
    } else {
      KeptIds(nodes[..n], activeId, xhttpId, renders, id);
    }
    if Goes(nodes, n, xhttpId, renders) { FindAppends(Rendered(nodes[..n], activeId, xhttpId, renders).value, At(nodes, n), id); }
  }

  /** The first place that makes an outbound and whose node has this ID. */
  ghost predicate FirstNamed(nodes: seq<StoredNode>, i: nat, id: string, sidecarId: string, renders: Renders) {
    i < |nodes| && Goes(nodes, i, sidecarId, renders) && nodes[i].profile.id == id
    && forall j :: 0 <= j < i && Goes(nodes, j, sidecarId, renders) ==> nodes[j].profile.id != id
  }

  ghost predicate NoneNamed(nodes: seq<StoredNode>, id: string, sidecarId: string, renders: Renders) {
    forall j :: 0 <= j < |nodes| && Goes(nodes, j, sidecarId, renders) ==> nodes[j].profile.id != id
  }

  lemma ChosenByFind(cfg: Config, resolved: NodeProfile, renders: Renders, a: nat)
    requires ActiveAt(cfg, a) && Outbounds(cfg, resolved, renders).Some?
    requires GoingBefore(cfg.nodes, |cfg.nodes|, SidecarId(cfg, a), renders) > 1
    ensures Rendered(cfg.nodes, Trim(cfg.activeNodeId), SidecarId(cfg, a), renders).Some?
    ensures var outs, count, id := Outbounds(cfg, resolved, renders).value, GoingBefore(cfg.nodes, |cfg.nodes|, SidecarId(cfg, a), renders), Trim(cfg.activeNodeId);
            var found := Find(Rendered(cfg.nodes, id, SidecarId(cfg, a), renders).value, id);
            && count + 1 < |outs| && outs[count + 1].Selector?
            && outs[count + 1].chosen == if id == "" || found.None? || found.value.tag == "" then "auto" else found.value.tag
  {
    hide OutboundTag, Trim, NeedsSidecar, Rendered, Sources, SidecarId, Graph, RenderableNodes, Retagged, Goes;
    var sources := Sources(cfg, resolved, renders).value;
    CountsSources(cfg, resolved, renders, a);
    SourcesAre(cfg, resolved, renders, a);
    RenderableTagged(cfg, renders);
    SeveralKeepTags(cfg, resolved, renders, a);
    ChosenAt(cfg, sources);
    FirstTagIsFound(sources, Trim(cfg.activeNodeId));
  }

  /** Selector `proxy` starts with the automatic choice if the trimmed active ID names no emitted node. */
  lemma AutoIsChosen(cfg: Config, resolved: NodeProfile, renders: Renders, a: nat)
    requires ActiveAt(cfg, a) && Outbounds(cfg, resolved, renders).Some?
    requires GoingBefore(cfg.nodes, |cfg.nodes|, SidecarId(cfg, a), renders) > 1
    requires Trim(cfg.activeNodeId) == "" || NoneNamed(cfg.nodes, Trim(cfg.activeNodeId), SidecarId(cfg, a), renders)
    ensures var outs, count := Outbounds(cfg, resolved, renders).value, GoingBefore(cfg.nodes, |cfg.nodes|, SidecarId(cfg, a), renders);
            count + 1 < |outs| && outs[count + 1].Selector? && outs[count + 1].chosen == "auto"
  {
    hide OutboundTag, Trim, NeedsSidecar, Rendered, SidecarId, Outbounds, Goes, GoingBefore;
    ChosenByFind(cfg, resolved, renders, a);
    var id := Trim(cfg.activeNodeId);
    if id != "" { KeptIds(cfg.nodes, id, SidecarId(cfg, a), renders, id); }
  }

  /** And with the first node that it names otherwise. */
  lemma ActiveIsChosen(cfg: Config, resolved: NodeProfile, renders: Renders, a: nat, i: nat)
    requires ActiveAt(cfg, a) && Outbounds(cfg, resolved, renders).Some?
    requires GoingBefore(cfg.nodes, |cfg.nodes|, SidecarId(cfg, a), renders) > 1
    requires i < |cfg.nodes| && cfg.nodes[i].Stored?
    requires Trim(cfg.activeNodeId) != "" && FirstNamed(cfg.nodes, i, Trim(cfg.activeNodeId), SidecarId(cfg, a), renders)
    ensures var outs, count := Outbounds(cfg, resolved, renders).value, GoingBefore(cfg.nodes, |cfg.nodes|, SidecarId(cfg, a), renders);
            count + 1 < |outs| && outs[count + 1].Selector? && outs[count + 1].chosen == OutboundTag(cfg.nodes[i].profile, i)
  {
    hide OutboundTag, Trim, NeedsSidecar, Rendered, SidecarId, Outbounds, Goes, GoingBefore;
    ChosenByFind(cfg, resolved, renders, a);
    var id := Trim(cfg.activeNodeId);
    KeptFind(cfg.nodes, id, SidecarId(cfg, a), renders, id, i);
    GoesIsFit(cfg.nodes, i, SidecarId(cfg, a), renders);
    TagIsNotBlank(cfg.nodes[i].profile, i);
  }

  lemma GoesIsFit(nodes: seq<StoredNode>, i: nat, sidecarId: string, renders: Renders)
    requires i < |nodes| && Goes(nodes, i, sidecarId, renders)
    ensures Fit(nodes[i])
  {
  }

  lemma SeveralKeepTags(cfg: Config, resolved: NodeProfile, renders: Renders, a: nat)
    requires ActiveAt(cfg, a) && Outbounds(cfg, resolved, renders).Some?
    requires GoingBefore(cfg.nodes, |cfg.nodes|, SidecarId(cfg, a), renders) > 1
    ensures RenderableNodes(cfg, renders).Some? && Sources(cfg, resolved, renders) == RenderableNodes(cfg, renders)
  {
    hide OutboundTag, Trim, NeedsSidecar, Rendered, Sources, SidecarId, Graph, RenderableNodes, Retagged, Goes;
    CountsSources(cfg, resolved, renders, a);
    SourcesAre(cfg, resolved, renders, a);
    RenderableTagged(cfg, renders);
    RetaggedCount(RenderableNodes(cfg, renders).value);
    ManyKeepTags(RenderableNodes(cfg, renders).value);
  }

  lemma ChosenAt(cfg: Config, sources: seq<NodeProfile>)
    requires |sources| > 1
    ensures var outs, id := Graph(cfg, sources), Trim(cfg.activeNodeId);
            && |sources| + 1 < |outs| && outs[|sources| + 1].Selector?
            && outs[|sources| + 1].chosen == if id == "" || FirstTag(sources, id) == "" then "auto" else FirstTag(sources, id)
  {
    hide Trim, AllGroups, Plans, FirstTag;
    NodeOutsCount(sources);
    assert Graph(cfg, sources) == NodeOuts(sources) + (Choice(cfg, sources) + (AllGroups(Plans(sources)) + [Direct("direct")]));
  }
}
