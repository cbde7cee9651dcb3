/** The promises of a subscription refresh: what is live afterwards, what is kept, and that
    refreshing again with the same feed changes nothing. */
module RefreshTheorems {
  import opened Text
  import opened ProfileModel
  import opened NodeMerge
  import opened NodeMergeFacts
  import opened ProviderOrder
  import opened SubscriptionRefresh
  import opened RefreshFacts

  ghost predicate AllLive(tagged: seq<Node>) {
    forall n :: n in tagged ==> !n.stale
  }

  /** The keys of the provider's live nodes. */
  ghost function LiveKeys(nodes: seq<Node>, p: string): set<string> {
    set n | n in nodes && IsProviderNode(n, p) && !n.stale :: NodeMatchKey(n)
  }

  /** After a refresh with a linked, live feed the provider's live nodes are exactly the feed's. */
  lemma RefreshLiveKeys(stored: seq<Node>, p: string, tagged: seq<Node>)
    requires p != "" && Feed(tagged, p) && AllLive(tagged)
    ensures LiveKeys(RefreshedNodes(stored, p, tagged), p) == NonBlank(Keys(tagged))
  {
    hide IsProviderNode, NodeMatchKey, Absorbed, RefreshedNodes, LinkedSubscriptionNode;
    var r := RefreshedNodes(stored, p, tagged);
    forall k | k in LiveKeys(r, p) ensures k in NonBlank(Keys(tagged)) {
      var n :| n in r && IsProviderNode(n, p) && !n.stale && NodeMatchKey(n) == k;
      LiveIsSeen(stored, p, tagged, n);
    }
    forall k | k in NonBlank(Keys(tagged)) ensures k in LiveKeys(r, p) {
      var n := SeenIsLive(stored, p, tagged, k);
    }
  }

  lemma LiveIsSeen(stored: seq<Node>, p: string, tagged: seq<Node>, n: Node)
    requires n in RefreshedNodes(stored, p, tagged) && IsProviderNode(n, p) && !n.stale
    ensures NodeMatchKey(n) in NonBlank(Keys(tagged))
  {
    hide IsProviderNode, NodeMatchKey, Absorbed, RefreshedNodes, Keys, NonBlank;
    var merged, seen := Absorbed(stored, tagged).nodes, NonBlank(Keys(tagged));
    RefreshWithin(stored, p, tagged);
    assert n in multiset(RefreshedNodes(stored, p, tagged));
    var i :| 0 <= i < |Marked(merged, p, seen)| && Marked(merged, p, seen)[i] == n;
    StaleKeepsKey(merged[i]);
  }

  lemma SeenIsLive(stored: seq<Node>, p: string, tagged: seq<Node>, k: string) returns (n: Node)
    requires p != "" && Feed(tagged, p) && AllLive(tagged) && k in NonBlank(Keys(tagged))
    ensures n in RefreshedNodes(stored, p, tagged) && IsProviderNode(n, p) && !n.stale && NodeMatchKey(n) == k
  {
    hide IsProviderNode, NodeMatchKey, Absorbed, Keys, KeyIndex, ByKey, Provided, Distinct, Reordered, NonBlank, LinkedSubscriptionNode;
    var merged, seen := Absorbed(stored, tagged).nodes, NonBlank(Keys(tagged));
    var marked := Marked(merged, p, seen);
    LastIsFeeds(stored, p, tagged, k);
    MarkedFacts(merged, p, seen);
    n := merged[KeyIndex(Keys(merged))[k]];
    assert marked[KeyIndex(Keys(merged))[k]] == n;
    LastIsIndexed(marked, k);
    LastOfProvider(marked, p, k);
    DistinctFacts(Keys(tagged));
    LastStays(marked, p, Distinct(Keys(tagged)), k);
  }

  /** The provider's nodes that did not come in again are kept, and kept as stale, whatever is stored
      and whatever comes in. */
  lemma RefreshKeepsAbsent(stored: seq<Node>, p: string, tagged: seq<Node>, n: Node)
    requires p != "" && n in stored && IsProviderNode(n, p) && NodeMatchKey(n) !in NonBlank(Keys(tagged))
    ensures n.(stale := true) in RefreshedNodes(stored, p, tagged)
  {
    hide IsProviderNode, NodeMatchKey, Absorbed, Keys, KeyIndex, Reordered, Distinct, NonBlank;
    var i :| 0 <= i < |stored| && stored[i] == n;
    var merged, seen := Absorbed(stored, tagged).nodes, NonBlank(Keys(tagged));
    NotHitStays(stored, tagged, i);
    StaleKeepsKey(n);
    DistinctFacts(Keys(tagged));
    assert Marked(merged, p, seen)[i] == n.(stale := true);
    UnnamedStays(Marked(merged, p, seen), p, Distinct(Keys(tagged)), n.(stale := true));
  }

  /** The rest of the document is left alone, node for node and in order, exactly when no node
      outside the provider takes in a node of the feed. */
  lemma RefreshLeavesOthersIff(stored: seq<Node>, p: string, tagged: seq<Node>)
    requires p != "" && AllProviders(tagged, p)
    ensures Others(RefreshedNodes(stored, p, tagged), p) == Others(stored, p) <==> Separated(stored, p, tagged)
  {
    hide IsProviderNode, NodeMatchKey, Absorbed, Others, Keys, NonBlank, Distinct, Provided, FirstProvider, Reordered, OrderedProvider,
         Marked, Separated;
    var merged, seen := Absorbed(stored, tagged).nodes, NonBlank(Keys(tagged));
    MergedOthersIff(stored, p, tagged);
    MarkedOthers(merged, p, seen);
    ReorderIsIdempotent(Marked(merged, p, seen), p, Distinct(Keys(tagged)));
  }

  /** With distinct keys and a linked feed, that is: no node outside the provider has a key of the feed. */
  lemma SeparatedByKeys(stored: seq<Node>, p: string, tagged: seq<Node>)
    requires NoRepeats(Keys(stored))
    ensures Separated(stored, p, tagged) <==>
            forall n :: n in stored && NodeMatchKey(n) in NonBlank(Keys(tagged)) ==> IsProviderNode(n, p)
  {
    hide IsProviderNode, NodeMatchKey, KeyIndex;
    KeysLength(stored);
    forall i | 0 <= i < |stored| ensures Hit(stored, i, tagged) <==> NodeMatchKey(stored[i]) in NonBlank(Keys(tagged)) {
      KeyAt(stored, i);
      var k := NodeMatchKey(stored[i]);
      if k in NonBlank(Keys(tagged)) {
        assert k in NonBlank(Keys(stored));
        assert KeyIndex(Keys(stored))[k] == i;
      }
    }
    assert forall n :: n in stored ==> exists i :: 0 <= i < |stored| && stored[i] == n;
  }

  // The stale count.

  lemma {:induction false} StaleCountPointwise(a: seq<Node>, b: seq<Node>, p: string, seen: set<string>)
    requires |a| == |b|
    requires forall i :: 0 <= i < |a| ==> (Gone(a[i], p, seen) && !a[i].stale) == (Gone(b[i], p, seen) && !b[i].stale)
    ensures NewlyStale(a, p, seen) == NewlyStale(b, p, seen)
  {
    hide Gone;
    if a != [] {
      assert forall i :: 0 <= i < |a| - 1 ==> a[..|a| - 1][i] == a[i] && b[..|a| - 1][i] == b[i];
      StaleCountPointwise(a[..|a| - 1], b[..|a| - 1], p, seen);
    }
  }

  lemma {:induction false} NoneNewlyStale(a: seq<Node>, b: seq<Node>, p: string, seen: set<string>)
    requires forall n :: n in b ==> !(Gone(n, p, seen) && !n.stale)
    ensures NewlyStale(a + b, p, seen) == NewlyStale(a, p, seen)
  {
    hide Gone;
    if b == [] {
      assert a + b == a;
    } else {
      assert (a + b)[..|a + b| - 1] == a + b[..|b| - 1];
      NoneNewlyStale(a, b[..|b| - 1], p, seen);
    }
  }

  /** The stale count of a refresh is the number of stored nodes of the provider that were live
      and did not come in again. */
  lemma RefreshStaleCount(stored: seq<Node>, p: string, tagged: seq<Node>)
    requires AllLinked(tagged)
    ensures NewlyStale(Absorbed(stored, tagged).nodes, p, NonBlank(Keys(tagged))) ==
            NewlyStale(stored, p, NonBlank(Keys(tagged)))
  {
    hide IsProviderNode, NodeMatchKey, Absorbed, Fresh, LinkedSubscriptionNode, NewlyStale, Keys, KeyIndex, NonBlank;
    var merged, seen := Absorbed(stored, tagged).nodes, NonBlank(Keys(tagged));
    var head, tail := merged[..|stored|], merged[|stored|..];
    LinkedKeys(stored, tagged);
    FreshFacts(stored, tagged);
    KeysLength(stored);
    KeysLength(merged);
    forall i | 0 <= i < |merged|
      ensures i < |stored| ==> (Gone(merged[i], p, seen) && !merged[i].stale) == (Gone(stored[i], p, seen) && !stored[i].stale)
      ensures i >= |stored| ==> !Gone(merged[i], p, seen)
    {
      KeyAt(merged, i);
      if i < |stored| {
        KeyAt(stored, i);
        assert Keys(merged)[i] == Keys(stored)[i];
        if !Hit(stored, i, tagged) { NotHitStays(stored, tagged, i); }
      } else {
        assert Keys(merged)[i] == Fresh(stored, tagged)[i - |stored|];
      }
    }
    StaleCountPointwise(head, stored, p, seen);
    NoneNewlyStale(head, tail, p, seen);
    assert merged == head + tail;
  }

  // IDs.

  /** A refresh keeps the IDs of the document apart, whatever comes in. */
  lemma RefreshKeepsIdsApart(stored: seq<Node>, p: string, tagged: seq<Node>)
    requires NoRepeats(TrimmedIds(stored))
    ensures NoRepeats(TrimmedIds(RefreshedNodes(stored, p, tagged)))
  {
    hide NodeMatchKey, Keys, TrimmedIds, NonBlank, NoRepeats, Absorbed, RefreshedNodes, Marked;
    var merged, seen := Absorbed(stored, tagged).nodes, NonBlank(Keys(tagged));
    MergeKeepsIdsApart(stored, tagged);
    MarkedFacts(merged, p, seen);
    RefreshWithin(stored, p, tagged);
    FewerIds(Marked(merged, p, seen), RefreshedNodes(stored, p, tagged));
  }

  // The active node.

  lemma {:induction false} FirstLiveFacts(nodes: seq<Node>)
    ensures (exists n :: n in nodes && !n.stale) ==> exists n :: n in nodes && !n.stale && n.id == FirstLiveId(nodes)
    ensures (forall n :: n in nodes ==> n.stale) ==> FirstLiveId(nodes) == ""
  {
    if nodes != [] && nodes[0].stale {
      FirstLiveFacts(nodes[1..]);
      assert forall n :: n in nodes <==> n == nodes[0] || n in nodes[1..];
    }
  }

  lemma {:induction false} NamesLiveFacts(nodes: seq<Node>, id: string)
    requires NamesLive(nodes, id)
    ensures exists n :: n in nodes && !n.stale && n.id == id
  {
    if nodes[0].id != id {
      NamesLiveFacts(nodes[1..], id);
      var n :| n in nodes[1..] && !n.stale && n.id == id;
      assert n in nodes;
    }
  }

  /** Whatever came in, the active node of the refreshed document is a live node of it, or blank
      when nothing in it is live. */
  lemma RepairedActiveIsLive(nodes: seq<Node>, active: string)
    ensures var a := Repaired(nodes, active);
            (exists n :: n in nodes && !n.stale && n.id == a)
            || (a == "" && forall n :: n in nodes ==> n.stale)
  {
    FirstLiveFacts(nodes);
    if NamesLive(nodes, active) { NamesLiveFacts(nodes, active); }
  }
}
