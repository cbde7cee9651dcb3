/** The refresh of a whole document, in one statement. */
module RefreshDocument {
  import opened Text
  import opened ProfileModel
  import opened FreshIds
  import opened NodeMerge
  import opened NodeMergeFacts
  import opened ProviderOrder
  import opened SubscriptionRefresh
  import opened RefreshFacts
  import opened RefreshTheorems

  /** For any document and any linked, live feed: the provider's live nodes are exactly the feed's, its
      other nodes are kept as stale, every node outside it is where it was unless one of them takes in a
      node of the feed, keys and newly stale nodes are counted right, the document grows by at most the
      nodes counted as added, and by just those if its keys are distinct, IDs stay apart, and the active
      node is live if any node is. */
  lemma RefreshOutcome(current: Document, sub: Subscription, incoming: seq<Node>)
    requires Trim(sub.providerKey) != ""
    requires forall i :: 0 <= i < |incoming| ==> Linked(incoming[i]) && !incoming[i].stale
    ensures var p := Trim(sub.providerKey);
            var tagged := Tagged(incoming, p, Trim(sub.url));
            var keys := NonBlank(Keys(tagged));
            var (next, stats) := Refreshed(current, sub, incoming);
            LiveKeys(next.nodes, p) == keys
            && (forall n :: n in current.nodes && IsProviderNode(n, p) && NodeMatchKey(n) !in keys ==> n.(stale := true) in next.nodes)
            && (Others(next.nodes, p) == Others(current.nodes, p) <==> Separated(current.nodes, p, tagged))
            && stats.added + stats.updated + stats.same == |keys|
            && stats.stale == NewlyStale(current.nodes, p, keys)
            && |next.nodes| <= |current.nodes| + stats.added
            && (NoRepeats(Keys(current.nodes)) ==> |next.nodes| == |current.nodes| + stats.added)
            && (NoRepeats(TrimmedIds(current.nodes)) ==> NoRepeats(TrimmedIds(next.nodes)))
            && ((exists n :: n in next.nodes && !n.stale && n.id == next.activeNodeId)
                || (next.activeNodeId == "" && forall n :: n in next.nodes ==> n.stale))
            && next == current.(nodes := next.nodes, activeNodeId := next.activeNodeId)
  {
    hide Trim, Linked, IsProviderNode, NodeMatchKey, LinkedSubscriptionNode, Tagged, Keys, KeyIndex, NonBlank, NoRepeats,
         Absorbed, RefreshedNodes, NewlyStale, Repaired, Others, LiveKeys, TrimmedIds, Separated, ActiveAfter, AllProviders;
    var p, tagged := Trim(sub.providerKey), Tagged(incoming, Trim(sub.providerKey), Trim(sub.url));
    var nodes := current.nodes;
    FeedOf(incoming, p, Trim(sub.url));
    RefreshLiveKeys(nodes, p, tagged);
    RefreshLeavesOthersIff(nodes, p, tagged);
    forall n | n in nodes && IsProviderNode(n, p) && NodeMatchKey(n) !in NonBlank(Keys(tagged))
      ensures n.(stale := true) in RefreshedNodes(nodes, p, tagged)
    {
      RefreshKeepsAbsent(nodes, p, tagged, n);
    }
    MergeConserves(nodes, tagged);
    RefreshStaleCount(nodes, p, tagged);
    RefreshSize(nodes, p, tagged);
    if NoRepeats(TrimmedIds(nodes)) { RefreshKeepsIdsApart(nodes, p, tagged); }
    RepairedActiveIsLive(RefreshedNodes(nodes, p, tagged), Merged(current, tagged).0.activeNodeId);
  }

  lemma FeedOf(incoming: seq<Node>, p: string, url: string)
    requires forall i :: 0 <= i < |incoming| ==> Linked(incoming[i]) && !incoming[i].stale
    ensures Feed(Tagged(incoming, p, url), p) && AllLive(Tagged(incoming, p, url))
  {
    hide IsProviderNode, Linked, LinkedSubscriptionNode, Tagged;
    TaggedFeed(incoming, p, url);
  }

  lemma RefreshSize(stored: seq<Node>, p: string, tagged: seq<Node>)
    requires p != "" && AllLinked(tagged)
    ensures |RefreshedNodes(stored, p, tagged)| <= |Absorbed(stored, tagged).nodes|
    ensures NoRepeats(Keys(stored)) ==> |RefreshedNodes(stored, p, tagged)| == |Absorbed(stored, tagged).nodes|
  {
    hide Keys, NonBlank, NoRepeats, Absorbed, RefreshedNodes, LinkedSubscriptionNode, IsProviderNode, NodeMatchKey, Marked;
    var r, merged, seen := RefreshedNodes(stored, p, tagged), Absorbed(stored, tagged).nodes, NonBlank(Keys(tagged));
    var marked := Marked(merged, p, seen);
    MarkedFacts(merged, p, seen);
    RefreshWithin(stored, p, tagged);
    FewerNodes(r, marked);
    if NoRepeats(Keys(stored)) {
      RefreshPermutes(stored, p, tagged);
      FewerNodes(marked, r);
    }
  }

  lemma FewerNodes(a: seq<Node>, b: seq<Node>)
    requires multiset(a) <= multiset(b)
    ensures |a| <= |b|
  {
    assert |multiset(a)| == |a| && |multiset(b)| == |b|;
    assert multiset(b) == multiset(a) + (multiset(b) - multiset(a));
  }

  /** Without a link the key is made of the ID, so an imported node keeps its key, and with it its
      place among the live nodes, exactly when its own ID was still free. */
  lemma LinklessKeepsKeyIff(node: Node, used: set<string>)
    requires SourceType(node) == SUBSCRIPTION && !Linked(node) && Trim(node.id) != ""
    ensures NodeMatchKey(node.(id := ImportedId(node, used))) == NodeMatchKey(node) <==> Trim(node.id) !in used
  {
    hide Trim, Upper, Lower, SourceType, ImportedId, SourceScope;
    var id := ImportedId(node, used);
    ImportedIdFresh(node, used);
    ImportedIdWhenFree(node, used);
    LinklessKey(node);
    LinklessKey(node.(id := id));
    AppendInjective(SUBSCRIPTION + ":" + Trim(node.source.providerKey) + "|id:", Trim(node.id), id);
  }

  lemma LinklessKey(node: Node)
    requires SourceType(node) == SUBSCRIPTION && !Linked(node) && Trim(node.id) != ""
    ensures NodeMatchKey(node) == SUBSCRIPTION + ":" + Trim(node.source.providerKey) + "|id:" + Trim(node.id)
    ensures forall id :: SourceType(node.(id := id)) == SUBSCRIPTION && !Linked(node.(id := id))
  {
    hide Trim, Upper, Lower;
  }

  lemma ImportedIdWhenFree(node: Node, used: set<string>)
    requires Trim(node.id) != ""
    ensures Trim(node.id) !in used ==> ImportedId(node, used) == Trim(node.id)
  {
    hide Trim;
  }
}
