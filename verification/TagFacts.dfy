/** When all the tags of a configuration's outbounds are distinct. */
module TagFacts {
  import opened Basics
  import opened Text
  import opened ProxyNode
  import opened OutboundGraph
  import opened GraphFacts
  import opened GroupNaming

  function TagsOf(outs: seq<Outbound>): seq<string> {
    seq(|outs|, i requires 0 <= i < |outs| => outs[i].tag)
  }

  /** No group is called like another group with an automatic choice, and `-auto`. */
  ghost predicate AutoFree(plans: seq<Plan>) {
    forall a, b :: 0 <= a < |plans| && 0 <= b < |plans| && |plans[a].tags| > 1 ==> plans[b].base != plans[a].base + "-auto"
  }

  ghost predicate Disjoint(a: seq<string>, b: seq<string>) {
    forall x :: x in a ==> x !in b
  }

  lemma DifferentAppend(a: seq<string>, b: seq<string>)
    ensures AllDifferent(a + b) <==> AllDifferent(a) && AllDifferent(b) && Disjoint(a, b)
  {
    var t := a + b;
    assert forall i :: 0 <= i < |b| ==> t[|a| + i] == b[i];
    if AllDifferent(t) {
      assert forall i :: 0 <= i < |a| ==> t[i] == a[i];
      forall i, j | 0 <= i < j < |b| ensures b[i] != b[j] {
        assert t[|a| + i] != t[|a| + j];
      }
      forall x | x in a ensures x !in b {
        var i :| 0 <= i < |a| && a[i] == x;
        forall j | 0 <= j < |b| ensures b[j] != x {
          assert t[i] != t[|a| + j];
        }
      }
    }
    if AllDifferent(a) && AllDifferent(b) && Disjoint(a, b) {
      forall i, j | 0 <= i < j < |t| ensures t[i] != t[j] {
        if i < |a| <= j { assert a[i] in a && b[j - |a|] in b; }
      }
    }
  }

  // The groups.

  ghost predicate Owns(plan: Plan, tag: string) {
    tag == GroupTag(plan) || (|plan.tags| > 1 && tag == AutoTag(plan))
  }

  lemma TagsAppend(a: seq<Outbound>, b: seq<Outbound>)
    ensures TagsOf(a + b) == TagsOf(a) + TagsOf(b)
  {
  }

  lemma OneGroupsTags(plan: Plan)
    requires plan.tags != []
    ensures TagsOf(GroupOutbounds(plan)) == if |plan.tags| == 1 then [GroupTag(plan)] else [AutoTag(plan), GroupTag(plan)]
    ensures AllDifferent(TagsOf(GroupOutbounds(plan)))
    ensures forall tag :: tag in TagsOf(GroupOutbounds(plan)) <==> Owns(plan, tag)
  {
    assert |AutoTag(plan)| > |GroupTag(plan)|;
  }

  lemma {:induction false} GroupTagsAre(plans: seq<Plan>, tag: string)
    requires AllTagged(plans)
    ensures tag in TagsOf(AllGroups(plans)) <==> exists i :: 0 <= i < |plans| && Owns(plans[i], tag)
  {
    hide Owns, GroupOutbounds;
    if plans != [] {
      var n := |plans| - 1;
      GroupTagsAre(plans[..n], tag);
      OneGroupsTags(plans[n]);
      TagsAppend(AllGroups(plans[..n]), GroupOutbounds(plans[n]));
      if i :| 0 <= i < n && Owns(plans[..n][i], tag) {
        assert Owns(plans[i], tag);
      }
      if i :| 0 <= i < |plans| && Owns(plans[i], tag) {
        if i < n { assert Owns(plans[..n][i], tag); }
      }
    }
  }

  /** Two groups that own no tag in common. */
  ghost predicate Apart(a: Plan, b: Plan) {
    && a.base != b.base
    && (|a.tags| > 1 ==> b.base != a.base + "-auto")
    && (|b.tags| > 1 ==> a.base != b.base + "-auto")
  }

  lemma TagsGiveBases(a: Plan, b: Plan)
    ensures GroupTag(a) == GroupTag(b) <==> a.base == b.base
    ensures GroupTag(b) == AutoTag(a) <==> b.base == a.base + "-auto"
    ensures AutoTag(a) == AutoTag(b) <==> a.base == b.base
  {
    assert GroupTag(a)[6..] == a.base && GroupTag(b)[6..] == b.base;
    assert AutoTag(a) == "group-" + (a.base + "-auto");
    assert AutoTag(a)[6..] == a.base + "-auto";
    assert AutoTag(b) == "group-" + (b.base + "-auto");
    assert AutoTag(b)[6..] == b.base + "-auto";
    assert (a.base + "-auto")[..|a.base + "-auto"| - 5] == a.base;
    assert (b.base + "-auto")[..|b.base + "-auto"| - 5] == b.base;
  }

  lemma ApartIff(a: Plan, b: Plan)
    ensures Apart(a, b) <==> forall tag :: Owns(a, tag) ==> !Owns(b, tag)
  {
    hide GroupTag, AutoTag;
    TagsGiveBases(a, b);
    TagsGiveBases(b, a);
    if !Apart(a, b) {
      assert (Owns(a, GroupTag(a)) && Owns(b, GroupTag(a))) || (Owns(a, AutoTag(a)) && Owns(b, AutoTag(a))) || (Owns(a, AutoTag(b)) && Owns(b, AutoTag(b)));
    }
  }

  ghost predicate AllApart(plans: seq<Plan>) {
    forall a, b :: 0 <= a < b < |plans| ==> Apart(plans[a], plans[b])
  }

  lemma AllApartIff(plans: seq<Plan>)
    ensures AllApart(plans) <==> AllDifferent(Bases(plans)) && AutoFree(plans)
  {
    if AllApart(plans) {
      forall a, b | 0 <= a < |plans| && 0 <= b < |plans| && |plans[a].tags| > 1 ensures plans[b].base != plans[a].base + "-auto" {
        if a < b {
          assert Apart(plans[a], plans[b]);
        } else if b < a {
          assert Apart(plans[b], plans[a]);
        } else {
          assert |plans[a].base + "-auto"| > |plans[a].base|;
        }
      }
      forall a, b | 0 <= a < b < |plans| ensures Bases(plans)[a] != Bases(plans)[b] {
        assert Apart(plans[a], plans[b]);
      }
    }
    if AllDifferent(Bases(plans)) && AutoFree(plans) {
      forall a, b | 0 <= a < b < |plans| ensures Apart(plans[a], plans[b]) {
        assert Bases(plans)[a] != Bases(plans)[b];
      }
    }
  }

  lemma {:induction false} GroupTagsDiffer(plans: seq<Plan>)
    requires AllTagged(plans)
    ensures AllDifferent(TagsOf(AllGroups(plans))) <==> AllApart(plans)
  {
    hide Owns, Apart, GroupOutbounds;
    if plans != [] {
      var n := |plans| - 1;
      var front, last := TagsOf(AllGroups(plans[..n])), TagsOf(GroupOutbounds(plans[n]));
      GroupTagsDiffer(plans[..n]);
      OneGroupsTags(plans[n]);
      TagsAppend(AllGroups(plans[..n]), GroupOutbounds(plans[n]));
      DifferentAppend(front, last);
      DisjointIff(plans);
      ApartStep(plans);
    }
  }

  lemma ApartStep(plans: seq<Plan>)
    requires plans != []
    ensures AllApart(plans) <==> AllApart(plans[..|plans| - 1]) && forall a :: 0 <= a < |plans| - 1 ==> Apart(plans[a], plans[|plans| - 1])
  {
    hide Apart;
    var n := |plans| - 1;
    assert forall a :: 0 <= a < n ==> plans[..n][a] == plans[a];
  }

  lemma DisjointIff(plans: seq<Plan>)
    requires plans != [] && AllTagged(plans)
    ensures var n := |plans| - 1;
            Disjoint(TagsOf(AllGroups(plans[..n])), TagsOf(GroupOutbounds(plans[n]))) <==> forall a :: 0 <= a < n ==> Apart(plans[a], plans[n])
  {
    hide Owns, Apart, GroupOutbounds, AllGroups, TagsOf;
    var n := |plans| - 1;
    var front, last := TagsOf(AllGroups(plans[..n])), TagsOf(GroupOutbounds(plans[n]));
    OneGroupsTags(plans[n]);
    forall tag ensures tag in front <==> exists i :: 0 <= i < n && Owns(plans[i], tag) {
      FrontTags(plans, n, tag);
    }
    forall a | 0 <= a < n ensures Apart(plans[a], plans[n]) <==> forall tag :: Owns(plans[a], tag) ==> !Owns(plans[n], tag) {
      ApartIff(plans[a], plans[n]);
    }
  }

  lemma FrontTags(plans: seq<Plan>, n: nat, tag: string)
    requires n <= |plans| && AllTagged(plans)
    ensures tag in TagsOf(AllGroups(plans[..n])) <==> exists i :: 0 <= i < n && Owns(plans[i], tag)
  {
    hide Owns, AllGroups, TagsOf;
    GroupTagsAre(plans[..n], tag);
    if i :| 0 <= i < n && Owns(plans[i], tag) { assert Owns(plans[..n][i], tag); }
    if i :| 0 <= i < |plans[..n]| && Owns(plans[..n][i], tag) { assert Owns(plans[i], tag); }
  }

  // The whole list.

  function ChoiceTags(profiles: seq<NodeProfile>): seq<string> {
    if |profiles| > 1 then ["auto", "proxy"] else []
  }

  lemma TagsOfGraph(cfg: Config, profiles: seq<NodeProfile>)
    ensures TagsOf(Graph(cfg, profiles)) == Tags(profiles) + ChoiceTags(profiles) + TagsOf(AllGroups(Plans(profiles))) + ["direct"]
  {
    hide AllGroups, Plans, ActiveTag;
    assert TagsOf(NodeOuts(profiles)) == Tags(profiles);
    assert TagsOf(Choice(cfg, profiles)) == ChoiceTags(profiles);
    assert TagsOf([Direct("direct")]) == ["direct"];
    TagsAppend(NodeOuts(profiles), Choice(cfg, profiles));
    TagsAppend(NodeOuts(profiles) + Choice(cfg, profiles), AllGroups(Plans(profiles)));
    TagsAppend(NodeOuts(profiles) + Choice(cfg, profiles) + AllGroups(Plans(profiles)), [Direct("direct")]);
  }

  /** The first letters keep nodes, choice, groups and the direct way out apart. */
  lemma KindsAreApart(profiles: seq<NodeProfile>)
    requires WellTagged(profiles)
    ensures var groups := TagsOf(AllGroups(Plans(profiles)));
            Disjoint(Tags(profiles), ChoiceTags(profiles)) && Disjoint(Tags(profiles) + ChoiceTags(profiles), groups)
            && Disjoint(Tags(profiles) + ChoiceTags(profiles) + groups, ["direct"])
  {
    hide AllGroups, Plans, NodeTag, TagsOf;
    var plans := Plans(profiles);
    var groups := TagsOf(AllGroups(plans));
    PlansAreTagged(profiles);
    forall x | x in Tags(profiles) ensures x != "" && (x[0] == 'n' || (x == "proxy" && |profiles| == 1)) {
      var i :| 0 <= i < |profiles| && Tags(profiles)[i] == x;
      assert profiles[i] in profiles;
      NodeLetter(x);
    }
    forall x | x in groups ensures x != "" && x[0] == 'g' {
      GroupTagsAre(plans, x);
      var i :| 0 <= i < |plans| && Owns(plans[i], x);
    }
  }

  lemma NodeLetter(tag: string)
    ensures NodeTag(tag) ==> tag != "" && tag[0] == 'n'
  {
    if NodeTag(tag) { assert tag[0] == "node-"[0]; }
  }

  lemma ChoiceTagsDiffer(profiles: seq<NodeProfile>)
    ensures AllDifferent(ChoiceTags(profiles)) && AllDifferent(["direct"])
  {
    assert |"auto"| == 4 && |"proxy"| == 5;
  }

  lemma GraphTagsDifferIff(cfg: Config, profiles: seq<NodeProfile>)
    requires WellTagged(profiles)
    ensures AllDifferent(TagsOf(Graph(cfg, profiles)))
       <==> AllDifferent(Tags(profiles)) && NoClash(Raws(GroupNames(profiles))) && AutoFree(Plans(profiles))
  {
    hide AllGroups, Plans, Graph, TagsOf, Tags, ChoiceTags, AllDifferent, Disjoint, NoClash, Raws, GroupNames, AutoFree, WellTagged, AllApart, AllTagged;
    var groups := TagsOf(AllGroups(Plans(profiles)));
    TagsOfGraph(cfg, profiles);
    KindsAreApart(profiles);
    ChoiceTagsDiffer(profiles);
    DifferentAppend(Tags(profiles), ChoiceTags(profiles));
    DifferentAppend(Tags(profiles) + ChoiceTags(profiles), groups);
    DifferentAppend(Tags(profiles) + ChoiceTags(profiles) + groups, ["direct"]);
    PlansAreTagged(profiles);
    GroupTagsDiffer(Plans(profiles));
    AllApartIff(Plans(profiles));
    BasesDifferIff(profiles);
  }

  /** The emitted tags are all distinct exactly when the node tags are, no group clashes, and no group
      is called like another one with an automatic choice and `-auto`. */
  lemma OutboundTagsDifferIff(cfg: Config, resolved: NodeProfile, renders: Renders)
    requires Outbounds(cfg, resolved, renders).Some?
    ensures var sources := Sources(cfg, resolved, renders).value;
            AllDifferent(TagsOf(Outbounds(cfg, resolved, renders).value)) <==>
            AllDifferent(Tags(sources)) && NoClash(Raws(GroupNames(sources))) && AutoFree(Plans(sources))
  {
    hide Sources, Graph, WellTagged, TagsOf, AllDifferent, NoClash, AutoFree;
    SourcesWellTagged(cfg, resolved, renders);
    GraphTagsDifferIff(cfg, Sources(cfg, resolved, renders).value);
  }

  // The tags of the nodes.

  /** The stored node at position i comes into the graph: it is usable, not an inactive XHTTP node, and renders. */
  predicate Kept(nodes: seq<StoredNode>, xhttpId: string, renders: Renders, i: nat)
    requires i < |nodes|
  {
    nodes[i].Stored? && IsUsable(nodes[i].profile) && !Skipped(nodes[i].profile, xhttpId)
    && renders(nodes[i].profile.(tag := OutboundTag(nodes[i].profile, i)))
  }

  /** Two positions that come into the graph are named differently. */
  ghost predicate BasesApart(nodes: seq<StoredNode>, xhttpId: string, renders: Renders) {
    forall i, j :: 0 <= i < j < |nodes| && Kept(nodes, xhttpId, renders, i) && Kept(nodes, xhttpId, renders, j) ==>
      TagBase(nodes[i].profile, i) != TagBase(nodes[j].profile, j)
  }

  ghost predicate LastApart(nodes: seq<StoredNode>, xhttpId: string, renders: Renders)
    requires nodes != []
  {
    var n := |nodes| - 1;
    Kept(nodes, xhttpId, renders, n) ==>
      forall i :: 0 <= i < n && Kept(nodes, xhttpId, renders, i) ==> TagBase(nodes[i].profile, i) != TagBase(nodes[n].profile, n)
  }

  lemma SkippedWhateverTheTag(profile: NodeProfile, tag: string, xhttpId: string)
    ensures Skipped(profile.(tag := tag), xhttpId) == Skipped(profile, xhttpId)
  {
    hide Trim, EqualFold;
  }

  lemma OneMoreStored(nodes: seq<StoredNode>, activeId: string, xhttpId: string, renders: Renders)
    requires nodes != [] && Renderable(Usable(nodes), activeId, xhttpId, renders).Some?
    ensures var n := |nodes| - 1;
            var front := Renderable(Usable(nodes[..n]), activeId, xhttpId, renders);
            front.Some? && Tags(Renderable(Usable(nodes), activeId, xhttpId, renders).value)
              == Tags(front.value) + if Kept(nodes, xhttpId, renders, n) then [OutboundTag(nodes[n].profile, n)] else []
  {
    hide Skipped, OutboundTag;
    var n := |nodes| - 1;
    if nodes[n].Stored? && IsUsable(nodes[n].profile) {
      var p := nodes[n].profile.(tag := OutboundTag(nodes[n].profile, n));
      SkippedWhateverTheTag(nodes[n].profile, OutboundTag(nodes[n].profile, n), xhttpId);
      assert Usable(nodes)[..|Usable(nodes)| - 1] == Usable(nodes[..n]);
    }
  }

  lemma {:induction false} KeptTags(nodes: seq<StoredNode>, activeId: string, xhttpId: string, renders: Renders, tag: string)
    requires Renderable(Usable(nodes), activeId, xhttpId, renders).Some?
    ensures tag in Tags(Renderable(Usable(nodes), activeId, xhttpId, renders).value)
       <==> exists i :: 0 <= i < |nodes| && Kept(nodes, xhttpId, renders, i) && OutboundTag(nodes[i].profile, i) == tag
  {
    hide Skipped, OutboundTag, Usable, Renderable;
    if nodes == [] {
      NothingStored(activeId, xhttpId, renders);
    } else {
      var n := |nodes| - 1;
      OneMoreStored(nodes, activeId, xhttpId, renders);
      KeptTags(nodes[..n], activeId, xhttpId, renders, tag);
      assert forall i :: 0 <= i < n ==> nodes[..n][i] == nodes[i] && Kept(nodes[..n], xhttpId, renders, i) == Kept(nodes, xhttpId, renders, i);
    }
  }

  lemma NothingStored(activeId: string, xhttpId: string, renders: Renders)
    ensures Usable([]) == [] && Renderable([], activeId, xhttpId, renders) == Some([])
  {
  }

  lemma TagOfBaseIff(a: string, b: string)
    ensures "node-" + a == "node-" + b <==> a == b
  {
    assert ("node-" + a)[5..] == a && ("node-" + b)[5..] == b;
  }

  lemma LastApartIff(nodes: seq<StoredNode>, activeId: string, xhttpId: string, renders: Renders)
    requires nodes != [] && Kept(nodes, xhttpId, renders, |nodes| - 1)
    requires Renderable(Usable(nodes[..|nodes| - 1]), activeId, xhttpId, renders).Some?
    ensures var n := |nodes| - 1;
            OutboundTag(nodes[n].profile, n) !in Tags(Renderable(Usable(nodes[..n]), activeId, xhttpId, renders).value) <==>
            LastApart(nodes, xhttpId, renders)
  {
    hide Skipped, TagBase, Usable, Renderable;
    var n := |nodes| - 1;
    KeptTags(nodes[..n], activeId, xhttpId, renders, OutboundTag(nodes[n].profile, n));
    forall i | 0 <= i < n && Kept(nodes, xhttpId, renders, i)
      ensures Kept(nodes[..n], xhttpId, renders, i)
      ensures OutboundTag(nodes[i].profile, i) == OutboundTag(nodes[n].profile, n) <==> TagBase(nodes[i].profile, i) == TagBase(nodes[n].profile, n)
    {
      KeptInFront(nodes, n, xhttpId, renders, i);
      TagOfBaseIff(TagBase(nodes[i].profile, i), TagBase(nodes[n].profile, n));
    }
  }

  lemma {:induction false} KeptTagsDifferIff(nodes: seq<StoredNode>, activeId: string, xhttpId: string, renders: Renders)
    requires Renderable(Usable(nodes), activeId, xhttpId, renders).Some?
    ensures AllDifferent(Tags(Renderable(Usable(nodes), activeId, xhttpId, renders).value)) <==> BasesApart(nodes, xhttpId, renders)
  {
    hide Usable, Renderable, Kept, TagBase, OutboundTag, AllDifferent, LastApart, BasesApart;
    if nodes == [] {
      NothingStored(activeId, xhttpId, renders);
      FewDiffer([]);
      NobodyStored(xhttpId, renders);
    } else {
      var n := |nodes| - 1;
      OneMoreStored(nodes, activeId, xhttpId, renders);
      var front := Tags(Renderable(Usable(nodes[..n]), activeId, xhttpId, renders).value);
      assert front + [] == front;
      KeptTagsDifferIff(nodes[..n], activeId, xhttpId, renders);
      ApartByOne(nodes, xhttpId, renders);
      if Kept(nodes, xhttpId, renders, n) {
        KeptIsStored(nodes, xhttpId, renders, n);
        DifferentStep(front, OutboundTag(nodes[n].profile, n));
        LastApartIff(nodes, activeId, xhttpId, renders);
      } else {
        assert Tags(Renderable(Usable(nodes), activeId, xhttpId, renders).value) == front;
        NotKeptIsApart(nodes, xhttpId, renders);
      }
    }
  }

  lemma NobodyStored(xhttpId: string, renders: Renders)
    ensures BasesApart([], xhttpId, renders)
  {
  }

  lemma NotKeptIsApart(nodes: seq<StoredNode>, xhttpId: string, renders: Renders)
    requires nodes != [] && !Kept(nodes, xhttpId, renders, |nodes| - 1)
    ensures LastApart(nodes, xhttpId, renders)
  {
  }

  lemma KeptIsStored(nodes: seq<StoredNode>, xhttpId: string, renders: Renders, i: nat)
    requires i < |nodes| && Kept(nodes, xhttpId, renders, i)
    ensures nodes[i].Stored?
  {
  }

  lemma KeptInFront(nodes: seq<StoredNode>, n: nat, xhttpId: string, renders: Renders, i: nat)
    requires i < n <= |nodes|
    ensures nodes[..n][i] == nodes[i] && Kept(nodes[..n], xhttpId, renders, i) == Kept(nodes, xhttpId, renders, i)
  {
    hide Skipped, OutboundTag;
  }

  lemma ApartByOne(nodes: seq<StoredNode>, xhttpId: string, renders: Renders)
    requires nodes != []
    ensures BasesApart(nodes, xhttpId, renders)
       <==> BasesApart(nodes[..|nodes| - 1], xhttpId, renders) && LastApart(nodes, xhttpId, renders)
  {
    hide Skipped, TagBase, OutboundTag;
    var n := |nodes| - 1;
    forall i | 0 <= i < n ensures nodes[..n][i] == nodes[i] && Kept(nodes[..n], xhttpId, renders, i) == Kept(nodes, xhttpId, renders, i) {
      KeptInFront(nodes, n, xhttpId, renders, i);
    }
  }

  /** The node tags are distinct exactly when the nodes that come into the graph differ in what their
      tags are made of. */
  lemma NodeTagsDifferIff(cfg: Config, resolved: NodeProfile, renders: Renders)
    requires Sources(cfg, resolved, renders).Some?
    ensures AllDifferent(Tags(Sources(cfg, resolved, renders).value)) <==> BasesApart(cfg.nodes, ActiveXhttpId(cfg), renders)
  {
    hide Usable, Decimal, Trim, BasesApart, ActiveXhttpId, Renderable, AllDifferent;
    var sources, id, xhttpId := Sources(cfg, resolved, renders).value, Trim(cfg.activeNodeId), ActiveXhttpId(cfg);
    if Usable(cfg.nodes) == [] {
      NothingStored(id, xhttpId, renders);
      KeptTagsDifferIff(cfg.nodes, id, xhttpId, renders);
      FewDiffer(Tags([]));
    } else {
      KeptTagsDifferIff(cfg.nodes, id, xhttpId, renders);
      RenderableAreUsable(Usable(cfg.nodes), id, xhttpId, renders);
      UsableTagged(cfg.nodes);
      var kept := RenderableNodes(cfg, renders).value;
      forall i | 0 <= i < |kept| && |kept| > 1 ensures sources[i] == kept[i] {
        assert kept[i] in kept;
      }
      if |kept| > 1 { assert sources == kept; }
      FewDiffer(Tags(kept));
    }
    FewDiffer(Tags(sources));
  }

  lemma FewDiffer(s: seq<string>)
    ensures |s| <= 1 ==> AllDifferent(s)
  {
  }
}
