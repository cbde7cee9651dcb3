/** What a refreshed list holds for one provider: which nodes, in which order, and with which fields. */
module RefreshFields {
  import opened Text
  import opened ProfileModel
  import opened NodeMerge
  import opened NodeMergeFacts
  import opened ProviderOrder
  import opened SubscriptionRefresh
  import opened RefreshFacts
  import opened RefreshAgain
  import opened MergeFields

  /** The provider's stored nodes that did not come in again, in their order, as stale. */
  function LeftBehind(stored: seq<Node>, p: string, seen: set<string>): seq<Node> {
    if stored == [] then []
    else
      var front, last := LeftBehind(stored[..|stored| - 1], p, seen), stored[|stored| - 1];
      if IsProviderNode(last, p) && NodeMatchKey(last) !in seen then front + [last.(stale := true)] else front
  }

  /** How many distinct keys have come in before n. */
  function FedBefore(incoming: seq<Node>, n: nat): nat
    requires n <= |incoming|
  {
    |NonBlank(Keys(incoming[..n]))|
  }

  lemma DistinctCount(keys: seq<string>)
    ensures |Distinct(keys)| == |NonBlank(keys)|
  {
    DistinctFacts(keys);
    CountDecidesRepeats(Distinct(keys));
    assert NonBlank(Distinct(keys)) == NonBlank(keys);
  }

  lemma {:induction false} DistinctGrows(keys: seq<string>, n: nat)
    requires n <= |keys|
    ensures Distinct(keys[..n]) <= Distinct(keys)
  {
    if n == |keys| {
      assert keys[..n] == keys;
    } else {
      assert keys[..|keys| - 1][..n] == keys[..n];
      DistinctGrows(keys[..|keys| - 1], n);
    }
  }

  lemma DistinctAt(incoming: seq<Node>, n: nat)
    requires Foremost(incoming, n)
    ensures var order := Distinct(Keys(incoming)); FedBefore(incoming, n) < |order| && order[FedBefore(incoming, n)] == NodeMatchKey(incoming[n])
  {
    hide NodeMatchKey, NonBlank;
    var keys := Keys(incoming);
    ForemostIsFirst(incoming, n);
    DistinctCount(Keys(incoming[..n]));
    DistinctFacts(Keys(incoming[..n]));
    assert keys[..n + 1][..n] == keys[..n] == Keys(incoming[..n]);
    DistinctGrows(keys, n + 1);
    assert Distinct(keys[..n + 1]) == Distinct(keys[..n]) + [keys[n]];
  }

  lemma {:induction false} FrontHasAll(order: seq<string>, m: map<string, Node>)
    requires forall k :: k in order ==> k in m
    ensures |Front(order, m)| == |order| && forall j :: 0 <= j < |order| ==> Front(order, m)[j] == m[order[j]]
  {
    if order != [] {
      var n := |order| - 1;
      assert forall k :: k in order[..n] ==> k in order;
      FrontHasAll(order[..n], m);
    }
  }

  // The fields.

  /** Under a key of the feed the merged list ends with the stored holder as it takes the feed's node
      in, or with the feed's node itself under an ID of its own. */
  lemma HolderFields(stored: seq<Node>, incoming: seq<Node>, n: nat, i: nat)
    requires AllLinked(incoming) && Foremost(incoming, n)
    requires if NodeMatchKey(incoming[n]) in Keys(stored) then Hindmost(stored, i) && NodeMatchKey(stored[i]) == NodeMatchKey(incoming[n]) else true
    ensures var k, last := NodeMatchKey(incoming[n]), ByKey(Absorbed(stored, incoming).nodes);
            k in last && if k in Keys(stored) then i < |stored| && TakesIn(last[k], stored[i], incoming[n]) else last[k] == incoming[n].(id := last[k].id)
  {
    hide NodeMatchKey, Absorbed, Keys, KeyIndex, ByKey, NonBlank, Foremost, Hindmost, TakesIn, AllLinked;
    ForemostKey(incoming, n);
    var k, nodes := NodeMatchKey(incoming[n]), Absorbed(stored, incoming).nodes;
    ForemostIsFirst(incoming, n);
    NonBlankIsIn(Keys(stored), k);
    LinkedFrom(incoming, n);
    if k in Keys(stored) {
      HindmostIsThere(stored, i);
      MatchedPlace(stored, incoming, i, n);
      HindmostIsIndexed(stored, i);
      KeyOfTaken(stored[i], incoming[n], nodes[i]);
      LastPlace(stored, incoming, k, i);
    } else {
      var at := |stored| + NewBefore(stored, incoming, n);
      AddedPlace(stored, incoming, n);
      AddedKey(incoming[n], nodes[at].id);
      LastPlace(stored, incoming, k, at);
    }
  }

  lemma LinkedFrom(incoming: seq<Node>, n: nat)
    requires AllLinked(incoming) && n < |incoming|
    ensures LinkedSubscriptionNode(incoming[n])
  {
  }

  lemma KeyOfTaken(stored: Node, fed: Node, after: Node)
    requires LinkedSubscriptionNode(fed) && TakesIn(after, stored, fed)
    ensures NodeMatchKey(after) == NodeMatchKey(fed)
  {
    hide NodeMatchKey, Trim;
    LinkedKey(fed);
    SameLink(fed, after);
    LinkedKey(after);
  }

  lemma SameLink(a: Node, b: Node)
    requires a.link == b.link
    ensures Linked(a) == Linked(b)
  {
  }

  // The provider's nodes.

  /** What the ordered block holds in front: the last node under each key of the feed, in the order of the feed. */
  lemma RefreshedInFeedOrder(stored: seq<Node>, p: string, tagged: seq<Node>, n: nat)
    requires p != "" && Feed(tagged, p) && Foremost(tagged, n)
    ensures var provided, last, k := Provided(RefreshedNodes(stored, p, tagged), p), ByKey(Absorbed(stored, tagged).nodes), NodeMatchKey(tagged[n]);
            k in last && FedBefore(tagged, n) < |provided| && provided[FedBefore(tagged, n)] == last[k]
  {
    hide IsProviderNode, NodeMatchKey, Absorbed, Keys, KeyIndex, ByKey, Provided, Distinct, Reordered, NonBlank, LinkedSubscriptionNode, Marked,
         AllProviders, Foremost, FedBefore, Front;
    var merged, seen, order := Absorbed(stored, tagged).nodes, NonBlank(Keys(tagged)), Distinct(Keys(tagged));
    var marked := Marked(merged, p, seen);
    ForemostKey(tagged, n);
    DistinctAt(tagged, n);
    DistinctFacts(Keys(tagged));
    ReorderIsIdempotent(marked, p, order);
    forall k | k in order ensures k in ByKey(Provided(marked, p)) && k in ByKey(merged) && ByKey(Provided(marked, p))[k] == ByKey(merged)[k] {
      MarkedHolder(stored, p, tagged, k);
    }
    FrontHasAll(order, ByKey(Provided(marked, p)));
  }

  lemma MarkedHolder(stored: seq<Node>, p: string, tagged: seq<Node>, k: string)
    requires Feed(tagged, p) && k in NonBlank(Keys(tagged))
    ensures var merged := Absorbed(stored, tagged).nodes;
            var marked := Marked(merged, p, NonBlank(Keys(tagged)));
            k in ByKey(merged) && k in ByKey(Provided(marked, p)) && ByKey(Provided(marked, p))[k] == ByKey(merged)[k]
  {
    hide IsProviderNode, NodeMatchKey, Absorbed, Keys, KeyIndex, ByKey, Provided, NonBlank, LinkedSubscriptionNode;
    var merged, seen := Absorbed(stored, tagged).nodes, NonBlank(Keys(tagged));
    var marked := Marked(merged, p, seen);
    LastIsFeeds(stored, p, tagged, k);
    LastIsIndexed(merged, k);
    MarkedFacts(merged, p, seen);
    LastIsIndexed(marked, k);
    assert marked[KeyIndex(Keys(merged))[k]] == merged[KeyIndex(Keys(merged))[k]];
    LastOfProvider(marked, p, k);
  }

  /** The provider's nodes after a refresh: in the order of the feed, each stored holder of a key as it
      takes the feed's node in, and each new node as it came; then those that did not come in again. */
  lemma RefreshedProvider(stored: seq<Node>, p: string, tagged: seq<Node>, n: nat, i: nat)
    requires p != "" && Feed(tagged, p) && Foremost(tagged, n)
    requires if NodeMatchKey(tagged[n]) in Keys(stored) then Hindmost(stored, i) && NodeMatchKey(stored[i]) == NodeMatchKey(tagged[n]) else true
    ensures var provided, at := Provided(RefreshedNodes(stored, p, tagged), p), FedBefore(tagged, n);
            at < |provided|
            && if NodeMatchKey(tagged[n]) in Keys(stored) then i < |stored| && TakesIn(provided[at], stored[i], tagged[n])
               else provided[at] == tagged[n].(id := provided[at].id)
  {
    hide NodeMatchKey, IsProviderNode, Absorbed, Keys, ByKey, Provided, RefreshedNodes, FedBefore, Foremost, Hindmost, TakesIn, AllLinked,
         AllProviders;
    HolderFields(stored, tagged, n, i);
    RefreshedInFeedOrder(stored, p, tagged, n);
  }

  // Those that did not come in again.

  lemma {:induction false} BackOfMarked(nodes: seq<Node>, p: string, seen: set<string>, used: set<string>)
    requires used == seen && "" !in seen
    ensures Back(Provided(Marked(nodes, p, seen), p), used) == LeftBehind(nodes, p, seen)
  {
    hide NodeMatchKey, IsProviderNode;
    if nodes != [] {
      var n := |nodes| - 1;
      var last := Mark(nodes[n], p, seen);
      assert Marked(nodes, p, seen)[..n] == Marked(nodes[..n], p, seen);
      BackOfMarked(nodes[..n], p, seen, used);
      StaleKeepsKey(nodes[n]);
      BackOneMore(Provided(Marked(nodes[..n], p, seen), p), last, used);
    } else {
      assert Marked(nodes, p, seen) == [];
    }
  }

  lemma BackOneMore(nodes: seq<Node>, node: Node, used: set<string>)
    ensures Back(nodes + [node], used) == Back(nodes, used) + if Taken(node, used) then [] else [node]
  {
    hide Taken;
    assert (nodes + [node])[..|nodes|] == nodes;
  }

  lemma {:induction false} LeftPointwise(a: seq<Node>, b: seq<Node>, p: string, seen: set<string>)
    requires |a| == |b|
    requires forall i :: 0 <= i < |a| ==> a[i] == b[i] || (NodeMatchKey(a[i]) in seen && NodeMatchKey(b[i]) in seen)
    ensures LeftBehind(a, p, seen) == LeftBehind(b, p, seen)
  {
    hide NodeMatchKey, IsProviderNode;
    if a != [] {
      var n := |a| - 1;
      assert forall i :: 0 <= i < n ==> a[..n][i] == a[i] && b[..n][i] == b[i];
      LeftPointwise(a[..n], b[..n], p, seen);
    }
  }

  lemma {:induction false} LeftAppends(a: seq<Node>, b: seq<Node>, p: string, seen: set<string>)
    requires forall i :: 0 <= i < |b| ==> NodeMatchKey(b[i]) in seen
    ensures LeftBehind(a + b, p, seen) == LeftBehind(a, p, seen)
  {
    hide NodeMatchKey, IsProviderNode;
    if b == [] {
      assert a + b == a;
    } else {
      assert (a + b)[..|a + b| - 1] == a + b[..|b| - 1];
      LeftAppends(a, b[..|b| - 1], p, seen);
    }
  }

  lemma MergedLeavesBehind(stored: seq<Node>, p: string, tagged: seq<Node>)
    requires AllLinked(tagged)
    ensures LeftBehind(Absorbed(stored, tagged).nodes, p, NonBlank(Keys(tagged))) == LeftBehind(stored, p, NonBlank(Keys(tagged)))
  {
    hide NodeMatchKey, IsProviderNode, Absorbed, Keys, KeyIndex, Fresh, LeftBehind, LinkedSubscriptionNode, NonBlank;
    var merged, seen := Absorbed(stored, tagged).nodes, NonBlank(Keys(tagged));
    LinkedKeys(stored, tagged);
    FreshFacts(stored, tagged);
    KeysLength(stored);
    KeysLength(merged);
    forall i | 0 <= i < |merged|
      ensures i < |stored| ==> merged[i] == stored[i] || (NodeMatchKey(merged[i]) in seen && NodeMatchKey(stored[i]) in seen)
      ensures i >= |stored| ==> NodeMatchKey(merged[i]) in seen
    {
      KeyAt(merged, i);
      if i < |stored| {
        KeyAt(stored, i);
        if !Hit(stored, i, tagged) { NotHitStays(stored, tagged, i); }
      } else {
        assert Keys(merged)[i] == Fresh(stored, tagged)[i - |stored|];
      }
    }
    LeftPointwise(merged[..|stored|], stored, p, seen);
    LeftAppends(merged[..|stored|], merged[|stored|..], p, seen);
    assert merged == merged[..|stored|] + merged[|stored|..];
  }

  /** After the nodes of the feed come the provider's stored nodes that did not come in again, in their
      order, as stale, and nothing else. */
  lemma RefreshedLeftBehind(stored: seq<Node>, p: string, tagged: seq<Node>)
    requires p != "" && Feed(tagged, p)
    ensures var provided, fed := Provided(RefreshedNodes(stored, p, tagged), p), NonBlank(Keys(tagged));
            |fed| <= |provided| && provided[|fed|..] == LeftBehind(stored, p, fed)
  {
    hide IsProviderNode, NodeMatchKey, Absorbed, Keys, KeyIndex, ByKey, Provided, Distinct, Reordered, NonBlank, LinkedSubscriptionNode, Marked,
         AllProviders, Front, Back, LeftBehind;
    var merged, seen, order := Absorbed(stored, tagged).nodes, NonBlank(Keys(tagged)), Distinct(Keys(tagged));
    var marked := Marked(merged, p, seen);
    DistinctCount(Keys(tagged));
    DistinctFacts(Keys(tagged));
    ReorderIsIdempotent(marked, p, order);
    forall k | k in order ensures k in ByKey(Provided(marked, p)) {
      MarkedHolder(stored, p, tagged, k);
    }
    FrontHasAll(order, ByKey(Provided(marked, p)));
    assert Used(order, ByKey(Provided(marked, p))) == seen;
    NonBlankIsIn(Keys(tagged), "");
    BackOfMarked(merged, p, seen, seen);
    MergedLeavesBehind(stored, p, tagged);
  }

  // The document.

  /** A refresh gives every incoming node the subscription's kind, key and URL, and works on these; a
      blank key changes nothing, and nothing but nodes and active ID is touched in any case. */
  lemma RefreshTags(current: Document, sub: Subscription, incoming: seq<Node>) returns (tagged: seq<Node>)
    ensures |tagged| == |incoming|
    ensures forall i :: 0 <= i < |incoming| ==>
              tagged[i] == incoming[i].(source := Source("SUBSCRIPTION", Trim(sub.url), Trim(sub.providerKey), incoming[i].source.lastSeenAt))
    ensures var after := Refreshed(current, sub, incoming).0;
            after == if Trim(sub.providerKey) == "" then current
                     else current.(nodes := RefreshedNodes(current.nodes, Trim(sub.providerKey), tagged), activeNodeId := after.activeNodeId)
    ensures Trim(sub.providerKey) == "" ==> Refreshed(current, sub, incoming).1 == Stats(0, 0, 0, 0)
  {
    hide Trim, RefreshedNodes, Absorbed, ActiveAfter, Repaired, NewlyStale;
    tagged := Tagged(incoming, Trim(sub.providerKey), Trim(sub.url));
  }
}
