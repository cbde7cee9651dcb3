/** What a subscription refresh guarantees, for documents and feeds of any length. */
module RefreshFacts {
  import opened Text
  import opened ProfileModel
  import opened NodeMerge
  import opened NodeMergeFacts
  import opened ProviderOrder
  import opened SubscriptionRefresh

  // The feed after tagging.

  lemma TaggedFeed(incoming: seq<Node>, p: string, url: string)
    ensures |Tagged(incoming, p, url)| == |incoming|
    ensures forall n :: n in Tagged(incoming, p, url) ==> IsProviderNode(n, p) && n.source.kind == SUBSCRIPTION
    ensures (forall i :: 0 <= i < |incoming| ==> Linked(incoming[i])) ==> AllLinked(Tagged(incoming, p, url))
    ensures Tidy(incoming) ==> Tidy(Tagged(incoming, p, url))
    ensures (forall i :: 0 <= i < |incoming| ==> !incoming[i].stale) ==> forall n :: n in Tagged(incoming, p, url) ==> !n.stale
    ensures Tagged(Tagged(incoming, p, url), p, url) == Tagged(incoming, p, url)
  {
    hide Trim, Lower;
  }

  // Permutations keep keys and IDs apart.

  lemma TwiceInMultiset(a: seq<Node>, i: nat, j: nat)
    requires i < j < |a| && a[i] == a[j]
    ensures multiset(a)[a[i]] >= 2
  {
    assert a == a[..j] + [a[j]] + a[j + 1..];
    assert a[..j][i] == a[i];
    assert multiset(a[..j])[a[i]] >= 1;
  }

  lemma TwicePlaces(a: seq<Node>, x: Node) returns (i: nat, j: nat)
    requires multiset(a)[x] >= 2
    ensures i < j < |a| && a[i] == x == a[j]
  {
    var k :| 0 <= k < |a| && a[k] == x;
    var rest := a[..k] + a[k + 1..];
    assert a == a[..k] + [a[k]] + a[k + 1..];
    assert multiset(a) == multiset(rest) + multiset{a[k]};
    assert x in rest;
    var m :| 0 <= m < |rest| && rest[m] == x;
    if m < k { i, j := m, k; } else { i, j := k, m + 1; }
  }

  lemma PermutedKeys(a: seq<Node>, b: seq<Node>)
    requires multiset(a) == multiset(b) && NoRepeats(Keys(a))
    ensures NoRepeats(Keys(b)) && NonBlank(Keys(b)) == NonBlank(Keys(a))
  {
    hide NodeMatchKey;
    forall i, j | 0 <= i < j < |b| && NodeMatchKey(b[i]) != "" ensures NodeMatchKey(b[i]) != NodeMatchKey(b[j]) {
      assert b[i] in multiset(b) && b[j] in multiset(b);
      var k, l;
      if b[i] == b[j] {
        TwiceInMultiset(b, i, j);
        k, l := TwicePlaces(a, b[i]);
      } else {
        k :| 0 <= k < |a| && a[k] == b[i];
        l :| 0 <= l < |a| && a[l] == b[j];
      }
      KeyAt(a, k);
      KeyAt(a, l);
      assert Keys(a)[k] == NodeMatchKey(b[i]) && Keys(a)[l] == NodeMatchKey(b[j]);
    }
    SameKeys(a, b);
    SameKeys(b, a);
  }

  lemma SameKeys(a: seq<Node>, b: seq<Node>)
    requires multiset(a) == multiset(b)
    ensures NonBlank(Keys(a)) <= NonBlank(Keys(b))
  {
    hide NodeMatchKey;
    forall k | k in NonBlank(Keys(a)) ensures k in Keys(b) {
      var i :| 0 <= i < |Keys(a)| && Keys(a)[i] == k;
      assert a[i] in multiset(b);
      var j :| 0 <= j < |b| && b[j] == a[i];
      KeyAt(b, j);
    }
  }

  /** Dropping nodes, in whatever order the rest stands, keeps IDs apart. */
  lemma FewerIds(a: seq<Node>, b: seq<Node>)
    requires multiset(b) <= multiset(a) && NoRepeats(TrimmedIds(a))
    ensures NoRepeats(TrimmedIds(b))
  {
    hide Trim;
    forall i, j | 0 <= i < j < |b| && Trim(b[i].id) != "" ensures Trim(b[i].id) != Trim(b[j].id) {
      assert b[i] in multiset(b) && b[j] in multiset(b);
      var k, l;
      if b[i] == b[j] {
        TwiceInMultiset(b, i, j);
        k, l := TwicePlaces(a, b[i]);
      } else {
        k :| 0 <= k < |a| && a[k] == b[i];
        l :| 0 <= l < |a| && a[l] == b[j];
      }
      assert TrimmedIds(a)[k] == Trim(b[i].id) && TrimmedIds(a)[l] == Trim(b[j].id);
    }
  }

  // Marking.

  lemma MarkedFacts(nodes: seq<Node>, p: string, seen: set<string>)
    ensures Keys(Marked(nodes, p, seen)) == Keys(nodes)
    ensures TrimmedIds(Marked(nodes, p, seen)) == TrimmedIds(nodes)
    ensures |Marked(nodes, p, seen)| == |nodes|
  {
    hide IsProviderNode, Trim, Lower, Upper, SourceScope, LinkKey, JoinBar, NormalizeProtocol, DecimalInt;
    forall i | 0 <= i < |nodes| ensures NodeMatchKey(Mark(nodes[i], p, seen)) == NodeMatchKey(nodes[i]) {
      StaleKeepsKey(nodes[i]);
    }
  }

  lemma StaleKeepsKey(node: Node)
    ensures NodeMatchKey(node.(stale := true)) == NodeMatchKey(node)
    ensures forall p :: IsProviderNode(node.(stale := true), p) == IsProviderNode(node, p)
  {
    hide Trim, Lower, Upper, LinkKey, JoinBar, NormalizeProtocol, DecimalInt;
    assert SourceScope(node.(stale := true)) == SourceScope(node);
  }

  /** Lists that agree outside the provider have the same nodes outside it, in the same order. */
  lemma {:induction false} OthersPointwise(a: seq<Node>, b: seq<Node>, p: string)
    requires |a| == |b|
    requires forall i :: 0 <= i < |a| ==> IsProviderNode(a[i], p) == IsProviderNode(b[i], p)
    requires forall i :: 0 <= i < |a| ==> IsProviderNode(a[i], p) || a[i] == b[i]
    ensures Others(a, p) == Others(b, p)
  {
    hide IsProviderNode;
    if a != [] {
      var n := |a| - 1;
      assert forall i :: 0 <= i < n ==> a[..n][i] == a[i] && b[..n][i] == b[i];
      OthersPointwise(a[..n], b[..n], p);
    }
  }

  lemma MarkedOthers(nodes: seq<Node>, p: string, seen: set<string>)
    ensures Others(Marked(nodes, p, seen), p) == Others(nodes, p)
  {
    hide IsProviderNode, NodeMatchKey, Others;
    forall i | 0 <= i < |nodes| ensures IsProviderNode(Mark(nodes[i], p, seen), p) == IsProviderNode(nodes[i], p) {
      StaleKeepsKey(nodes[i]);
    }
    OthersPointwise(Marked(nodes, p, seen), nodes, p);
  }

  // The merged list of a refresh.

  /** No stored node that takes in a node of the feed, as the last one under its key, lies outside
      the provider. */
  ghost predicate Separated(stored: seq<Node>, p: string, tagged: seq<Node>) {
    forall i :: 0 <= i < |stored| && Hit(stored, i, tagged) ==> IsProviderNode(stored[i], p)
  }

  ghost predicate AllProviders(tagged: seq<Node>, p: string) {
    forall n :: n in tagged ==> IsProviderNode(n, p)
  }

  ghost predicate Feed(tagged: seq<Node>, p: string) {
    AllLinked(tagged) && AllProviders(tagged, p)
  }

  /** What takes in a node of the feed belongs to the provider, and is as live as that node. */
  lemma TakenInIsProviders(stored: seq<Node>, p: string, tagged: seq<Node>, i: nat)
    requires AllProviders(tagged, p) && i < |stored| && Hit(stored, i, tagged)
    ensures var n := Absorbed(stored, tagged).nodes[i];
            NodeMatchKey(stored[i]) in Keys(tagged) && First(tagged, NodeMatchKey(stored[i])) in tagged
            && IsProviderNode(n, p) && n.stale == First(tagged, NodeMatchKey(stored[i])).stale
  {
    hide NodeMatchKey, Keys, KeyIndex, First, Absorbed, Lower, FirstNonEmpty, Fresh;
    MergeShape(stored, tagged);
    assert StoredShape(Absorbed(stored, tagged).nodes[i], stored, i, tagged);
    NonBlankIsIn(Keys(tagged), NodeMatchKey(stored[i]));
    FirstHasKey(tagged, NodeMatchKey(stored[i]));
  }

  lemma AddedIsProviders(stored: seq<Node>, p: string, tagged: seq<Node>, i: nat)
    requires AllProviders(tagged, p) && |stored| <= i < |Absorbed(stored, tagged).nodes|
    ensures var n := Absorbed(stored, tagged).nodes[i];
            IsProviderNode(n, p) && exists f :: f in tagged && n == f.(id := n.id)
  {
    hide NodeMatchKey, Keys, KeyIndex, First, Absorbed, Lower, Fresh, StoredShape;
    MergeShape(stored, tagged);
    var j, added := i - |stored|, Fresh(stored, tagged);
    assert FreshShape(Absorbed(stored, tagged).nodes[|stored| + j], added[j], tagged);
    FirstHasKey(tagged, added[j]);
  }

  lemma NotHitStays(stored: seq<Node>, tagged: seq<Node>, i: nat)
    requires i < |stored| && !Hit(stored, i, tagged)
    ensures |stored| <= |Absorbed(stored, tagged).nodes| && Absorbed(stored, tagged).nodes[i] == stored[i]
  {
    hide NodeMatchKey, Absorbed, Fresh, Hit, First, Updated;
    MergeShape(stored, tagged);
    assert StoredShape(Absorbed(stored, tagged).nodes[i], stored, i, tagged);
  }

  lemma {:induction false} OthersShrink(a: seq<Node>, b: seq<Node>, p: string)
    requires |a| == |b| && forall i :: 0 <= i < |a| && IsProviderNode(b[i], p) ==> IsProviderNode(a[i], p)
    ensures |Others(a, p)| <= |Others(b, p)|
    ensures (exists i :: 0 <= i < |a| && IsProviderNode(a[i], p) && !IsProviderNode(b[i], p)) ==> |Others(a, p)| < |Others(b, p)|
  {
    hide IsProviderNode;
    if a != [] {
      var n := |a| - 1;
      assert forall i :: 0 <= i < n ==> a[..n][i] == a[i] && b[..n][i] == b[i];
      OthersShrink(a[..n], b[..n], p);
      if i :| 0 <= i < |a| && IsProviderNode(a[i], p) && !IsProviderNode(b[i], p) {
        if i < n { assert IsProviderNode(a[..n][i], p) && !IsProviderNode(b[..n][i], p); }
      }
    }
  }

  /** A merge leaves the nodes outside the provider as they were exactly when none of them takes in
      a node of the feed. */
  lemma MergedOthersIff(stored: seq<Node>, p: string, tagged: seq<Node>)
    requires AllProviders(tagged, p)
    ensures Others(Absorbed(stored, tagged).nodes, p) == Others(stored, p) <==> Separated(stored, p, tagged)
  {
    hide IsProviderNode, NodeMatchKey, Others, Absorbed, Hit, Provided, AllProviders;
    var merged := Absorbed(stored, tagged).nodes;
    var head, tail := merged[..|stored|], merged[|stored|..];
    forall i | 0 <= i < |stored|
      ensures Hit(stored, i, tagged) ==> IsProviderNode(merged[i], p)
      ensures !Hit(stored, i, tagged) ==> merged[i] == stored[i]
    {
      if Hit(stored, i, tagged) { TakenInIsProviders(stored, p, tagged, i); } else { NotHitStays(stored, tagged, i); }
    }
    forall i | |stored| <= i < |merged| ensures IsProviderNode(merged[i], p) {
      AddedIsProviders(stored, p, tagged, i);
    }
    AllProvided(tail, p);
    FiltersAppend(head, tail, p);
    assert merged == head + tail;
    OthersShrink(head, stored, p);
    if Separated(stored, p, tagged) {
      OthersPointwise(head, stored, p);
    } else {
      var i :| 0 <= i < |stored| && Hit(stored, i, tagged) && !IsProviderNode(stored[i], p);
      assert IsProviderNode(head[i], p);
    }
  }

  /** With distinct stored keys and a linked feed, the refreshed list is a reordering of the marked one. */
  lemma RefreshPermutes(stored: seq<Node>, p: string, tagged: seq<Node>)
    requires p != "" && NoRepeats(Keys(stored)) && AllLinked(tagged)
    ensures var marked := Marked(Absorbed(stored, tagged).nodes, p, NonBlank(Keys(tagged)));
            multiset(RefreshedNodes(stored, p, tagged)) == multiset(marked)
            && NoRepeats(Keys(RefreshedNodes(stored, p, tagged)))
            && NonBlank(Keys(RefreshedNodes(stored, p, tagged))) == NonBlank(Keys(stored)) + NonBlank(Keys(tagged))
  {
    hide NodeMatchKey, IsProviderNode, Absorbed, Marked, Keys, Distinct, Reordered, NonBlank, NoRepeats,
         LinkedSubscriptionNode, Claimed, Provided, ByKey, Used;
    var merged, seen, order := Absorbed(stored, tagged).nodes, NonBlank(Keys(tagged)), Distinct(Keys(tagged));
    var marked := Marked(merged, p, seen);
    ApartKeys(stored, tagged);
    MarkedFacts(merged, p, seen);
    DistinctFacts(Keys(tagged));
    ReorderPermutesIff(marked, p, order);
    ClaimedApart(marked, p, Used(order, ByKey(Provided(marked, p))));
    PermutedKeys(marked, RefreshedNodes(stored, p, tagged));
  }

  /** Whatever is stored and whatever comes in, a refresh invents no node and repeats none. */
  lemma RefreshWithin(stored: seq<Node>, p: string, tagged: seq<Node>)
    ensures multiset(RefreshedNodes(stored, p, tagged)) <= multiset(Marked(Absorbed(stored, tagged).nodes, p, NonBlank(Keys(tagged))))
  {
    hide NodeMatchKey, Absorbed, Marked, Keys, Distinct, Reordered, NonBlank, NoRepeats;
    DistinctFacts(Keys(tagged));
    ReorderWithin(Marked(Absorbed(stored, tagged).nodes, p, NonBlank(Keys(tagged))), p, Distinct(Keys(tagged)));
  }

  // The last node under a key.

  lemma {:induction false} KeyIndexJoined(a: seq<string>, b: seq<string>, k: string)
    requires k in KeyIndex(a) && k !in b
    ensures k in KeyIndex(a + b) && KeyIndex(a + b)[k] == KeyIndex(a)[k]
  {
    if b == [] {
      assert a + b == a;
    } else {
      var n := |b| - 1;
      assert (a + b)[..|a + b| - 1] == a + b[..n];
      KeyIndexJoined(a, b[..n], k);
    }
  }

  /** The last node under a key is the one at the last position that holds it. */
  lemma {:induction false} LastIsIndexed(nodes: seq<Node>, k: string)
    ensures |Keys(nodes)| == |nodes|
    ensures k in ByKey(nodes) <==> k in KeyIndex(Keys(nodes))
    ensures k in ByKey(nodes) ==> ByKey(nodes)[k] == nodes[KeyIndex(Keys(nodes))[k]]
  {
    hide NodeMatchKey;
    KeysLength(nodes);
    if nodes != [] {
      var n := |nodes| - 1;
      assert Keys(nodes)[..n] == Keys(nodes[..n]);
      LastIsIndexed(nodes[..n], k);
    }
  }

  /** If the last node under a key is the provider's, it is the last of the provider's under it. */
  lemma {:induction false} LastOfProvider(nodes: seq<Node>, p: string, k: string)
    requires k in ByKey(nodes) && IsProviderNode(ByKey(nodes)[k], p)
    ensures k in ByKey(Provided(nodes, p)) && ByKey(Provided(nodes, p))[k] == ByKey(nodes)[k]
  {
    hide NodeMatchKey, IsProviderNode;
    if nodes != [] {
      var n := |nodes| - 1;
      if IsProviderNode(nodes[n], p) { ByKeyStep(Provided(nodes[..n], p), nodes[n]); }
      if NodeMatchKey(nodes[n]) != k { LastOfProvider(nodes[..n], p, k); }
    }
  }

  lemma InFront(a: seq<string>, b: seq<string>, i: nat)
    requires i < |a + b|
    ensures i < |a| ==> (a + b)[i] in a
  {
  }

  /** After a merge, the last node under a key of a linked feed belongs to the provider and is as live
      as the first node that came in under it. */
  lemma LastIsFeeds(stored: seq<Node>, p: string, tagged: seq<Node>, k: string)
    requires Feed(tagged, p) && k in NonBlank(Keys(tagged))
    ensures var nodes := Absorbed(stored, tagged).nodes;
            |Keys(nodes)| == |nodes| && k in KeyIndex(Keys(nodes))
            && var n := nodes[KeyIndex(Keys(nodes))[k]];
               IsProviderNode(n, p) && NodeMatchKey(n) == k && exists f :: f in tagged && n.stale == f.stale
  {
    hide NodeMatchKey, IsProviderNode, Absorbed, KeyIndex, Fresh, First, LinkedSubscriptionNode, AllProviders;
    var nodes, added := Absorbed(stored, tagged).nodes, Fresh(stored, tagged);
    LinkedKeys(stored, tagged);
    FreshFacts(stored, tagged);
    ApartKeys(stored, tagged);
    KeysLength(nodes);
    KeysLength(stored);
    NonBlankIsIn(Keys(stored), k);
    var at := KeyIndex(Keys(nodes))[k];
    KeyAt(nodes, at);
    if k in Keys(stored) {
      KeyIndexJoined(Keys(stored), added, k);
      KeyAt(stored, at);
      assert Hit(stored, at, tagged);
      TakenInIsProviders(stored, p, tagged, at);
    } else {
      InFront(Keys(stored), added, at);
      AddedIsProviders(stored, p, tagged, at);
    }
  }

  lemma {:induction false} DistinctFacts(keys: seq<string>)
    ensures NoRepeats(Distinct(keys)) && "" !in Distinct(keys)
    ensures forall k :: k in Distinct(keys) <==> k in NonBlank(keys)
  {
    if keys != [] {
      var n := |keys| - 1;
      DistinctFacts(keys[..n]);
      assert keys == keys[..n] + [keys[n]];
      NonBlankStep(keys[..n], keys[n]);
      NoRepeatsStep(Distinct(keys[..n]), keys[n]);
    }
  }

  /** A list with distinct keys still has them when filtered. */
  lemma ClaimedApart(nodes: seq<Node>, p: string, used: set<string>)
    requires NoRepeats(Keys(nodes))
    ensures NoRepeats(Keys(Claimed(Provided(nodes, p), used)))
  {
    ProvidedApart(nodes, p);
    ClaimedSubApart(Provided(nodes, p), used);
  }

  lemma {:induction false} ProvidedApart(nodes: seq<Node>, p: string)
    requires NoRepeats(Keys(nodes))
    ensures NoRepeats(Keys(Provided(nodes, p))) && NonBlank(Keys(Provided(nodes, p))) <= NonBlank(Keys(nodes))
  {
    hide NodeMatchKey, IsProviderNode, Keys, NonBlank, NoRepeats;
    KeysLast(nodes);
    if nodes != [] {
      var front, last := nodes[..|nodes| - 1], nodes[|nodes| - 1];
      NoRepeatsStep(Keys(front), NodeMatchKey(last));
      NonBlankStep(Keys(front), NodeMatchKey(last));
      ProvidedApart(front, p);
      ApartAppend(Provided(front, p), last);
    }
  }

  lemma ApartAppend(nodes: seq<Node>, last: Node)
    ensures NoRepeats(Keys(nodes + [last])) <==> NoRepeats(Keys(nodes)) && NodeMatchKey(last) !in NonBlank(Keys(nodes))
    ensures NonBlank(Keys(nodes + [last])) == NonBlank(Keys(nodes)) + (if NodeMatchKey(last) == "" then {} else {NodeMatchKey(last)})
  {
    hide NodeMatchKey, NoRepeats, NonBlank;
    KeysAppend(nodes, [last]);
    SingleKey(last);
    NoRepeatsStep(Keys(nodes), NodeMatchKey(last));
    NonBlankStep(Keys(nodes), NodeMatchKey(last));
  }

  lemma {:induction false} ClaimedSubApart(nodes: seq<Node>, used: set<string>)
    requires NoRepeats(Keys(nodes))
    ensures NoRepeats(Keys(Claimed(nodes, used))) && NonBlank(Keys(Claimed(nodes, used))) <= NonBlank(Keys(nodes))
  {
    hide NodeMatchKey, Taken, Keys, NonBlank, NoRepeats;
    KeysLast(nodes);
    if nodes != [] {
      var front, last := nodes[..|nodes| - 1], nodes[|nodes| - 1];
      NoRepeatsStep(Keys(front), NodeMatchKey(last));
      NonBlankStep(Keys(front), NodeMatchKey(last));
      ClaimedSubApart(front, used);
      ApartAppend(Claimed(front, used), last);
    }
  }
}
