/** When refreshing twice with the same feed is refreshing once. */
module RefreshAgain {
  import opened Text
  import opened ProfileModel
  import opened FreshIds
  import opened NodeMerge
  import opened NodeMergeFacts
  import opened ProviderOrder
  import opened SubscriptionRefresh
  import opened RefreshFacts
  import opened RefreshTheorems

  // Who stands behind whom.

  /** Nobody outside the provider stands behind one of its nodes and answers to this key. */
  ghost predicate NobodyBehind(nodes: seq<Node>, p: string, k: string) {
    forall i, j :: 0 <= i < j < |nodes| && IsProviderNode(nodes[i], p) && !IsProviderNode(nodes[j], p) ==> NodeMatchKey(nodes[j]) != k
  }

  lemma NotBehind(nodes: seq<Node>, p: string, k: string)
    requires nodes != [] && NobodyBehind(nodes, p, k) && k in ByKey(Provided(nodes[..|nodes| - 1], p))
    ensures !IsProviderNode(nodes[|nodes| - 1], p) ==> NodeMatchKey(nodes[|nodes| - 1]) != k
  {
    hide NodeMatchKey, IsProviderNode;
    var n := |nodes| - 1;
    ProvidedMembers(nodes[..n], p);
    var i :| 0 <= i < n && nodes[..n][i] == ByKey(Provided(nodes[..n], p))[k];
    assert IsProviderNode(nodes[i], p);
  }

  /** Then the last node under the key is the last of the provider's. */
  lemma {:induction false} LastIsTheProviders(nodes: seq<Node>, p: string, k: string)
    requires k in ByKey(Provided(nodes, p)) && NobodyBehind(nodes, p, k)
    ensures k in ByKey(nodes) && ByKey(nodes)[k] == ByKey(Provided(nodes, p))[k]
  {
    hide NodeMatchKey, IsProviderNode;
    if nodes != [] {
      var n := |nodes| - 1;
      if IsProviderNode(nodes[n], p) {
        ByKeyStep(Provided(nodes[..n], p), nodes[n]);
      } else {
        NotBehind(nodes, p, k);
      }
      if NodeMatchKey(nodes[n]) != k { LastIsTheProviders(nodes[..n], p, k); }
    }
  }

  lemma NobodyInTheRest(nodes: seq<Node>, p: string, k: string, f: nat)
    requires f == FirstProvider(nodes, p) && NobodyBehind(nodes, p, k)
    ensures forall n :: n in nodes[f..] && !IsProviderNode(n, p) ==> NodeMatchKey(n) != k
  {
    hide NodeMatchKey, IsProviderNode;
    forall j | f <= j < |nodes| && !IsProviderNode(nodes[j], p) ensures NodeMatchKey(nodes[j]) != k {
      assert j != f;
    }
  }

  lemma SomebodyInTheRest(nodes: seq<Node>, p: string, k: string, f: nat)
    requires f == FirstProvider(nodes, p) && !NobodyBehind(nodes, p, k)
    ensures exists n :: n in nodes[f..] && !IsProviderNode(n, p) && NodeMatchKey(n) == k
  {
    hide NodeMatchKey, IsProviderNode;
    var i, j :| 0 <= i < j < |nodes| && IsProviderNode(nodes[i], p) && !IsProviderNode(nodes[j], p) && NodeMatchKey(nodes[j]) == k;
    assert nodes[f..][j - f] == nodes[j];
  }

  lemma BehindFirst(nodes: seq<Node>, p: string, k: string)
    ensures NobodyBehind(nodes, p, k) <==> forall n :: n in Others(nodes[FirstProvider(nodes, p)..], p) ==> NodeMatchKey(n) != k
  {
    hide NodeMatchKey, IsProviderNode, FirstProvider, Others, NobodyBehind;
    var f := FirstProvider(nodes, p);
    ProvidedMembers(nodes[f..], p);
    if NobodyBehind(nodes, p, k) { NobodyInTheRest(nodes, p, k, f); } else { SomebodyInTheRest(nodes, p, k, f); }
  }

  /** Reordering moves nobody from in front of the provider's nodes to behind them, or back. */
  lemma ReorderKeepsBehind(nodes: seq<Node>, p: string, order: seq<string>, k: string)
    requires p != ""
    ensures NobodyBehind(Reordered(nodes, p, order), p, k) <==> NobodyBehind(nodes, p, k)
  {
    hide NodeMatchKey, IsProviderNode, FirstProvider, Others, Provided, OrderedProvider, NobodyBehind;
    var f, r := FirstProvider(nodes, p), Reordered(nodes, p, order);
    ReorderIsIdempotent(nodes, p, order);
    BehindFirst(nodes, p, k);
    BehindFirst(r, p, k);
    if f < |nodes| {
      var block := OrderedProvider(Provided(nodes, p), order);
      OrderAgain(Provided(nodes, p), order);
      SplitAtFirst(nodes, p);
      assert block != [] && |r| > f;
      SplitAtFirst(r, p);
      assert r[..f] == nodes[..f];
      assert nodes[..f] + Others(r[f..], p) == nodes[..f] + Others(nodes[f..], p);
      assert (nodes[..f] + Others(r[f..], p))[f..] == Others(r[f..], p);
      assert (nodes[..f] + Others(nodes[f..], p))[f..] == Others(nodes[f..], p);
    }
  }

  /** The provider's nodes stand together: a node outside it that stands behind one of them stands behind all. */
  lemma BehindOneBehindAll(nodes: seq<Node>, p: string, order: seq<string>, i: nat, j: nat, t: nat)
    requires p != "" && i < j < t < |Reordered(nodes, p, order)|
    requires IsProviderNode(Reordered(nodes, p, order)[i], p) && !IsProviderNode(Reordered(nodes, p, order)[j], p)
    ensures !IsProviderNode(Reordered(nodes, p, order)[t], p)
  {
    hide IsProviderNode, FirstProvider, Others, Provided, OrderedProvider;
    var f, block := FirstProvider(nodes, p), OrderedProvider(Provided(nodes, p), order);
    ReorderIsIdempotent(nodes, p, order);
    ProvidedMembers(Reordered(nodes, p, order), p);
    if f < |nodes| {
      SplitAtFirst(nodes, p);
      var post := Others(nodes[f..], p);
      assert forall m :: 0 <= m < |block| ==> block[m] in block;
      assert forall m :: 0 <= m < |post| ==> post[m] in post;
    }
  }

  // The conditions.

  /** The stored node is the provider's, or takes in a node of the feed and becomes the provider's. */
  predicate Claims(stored: seq<Node>, p: string, tagged: seq<Node>, i: nat)
    requires i < |stored|
  {
    IsProviderNode(stored[i], p) || Hit(stored, i, tagged)
  }

  /** No stored node that stays outside the provider, but answers to a key of the feed, stands behind
      one that is or becomes the provider's. */
  ghost predicate InLine(stored: seq<Node>, p: string, tagged: seq<Node>) {
    forall i, j :: 0 <= i < j < |stored| && Claims(stored, p, tagged, i) && !Claims(stored, p, tagged, j) ==>
      NodeMatchKey(stored[j]) !in NonBlank(Keys(tagged))
  }

  /** What is new comes with trimmed names and groups. */
  ghost predicate FreshTidy(stored: seq<Node>, tagged: seq<Node>) {
    forall k :: k in Fresh(stored, tagged) && k in Keys(tagged) ==> Trimmed(First(tagged, k).name) && Trimmed(First(tagged, k).group)
  }

  lemma MergedClaims(stored: seq<Node>, p: string, tagged: seq<Node>, i: nat)
    requires AllProviders(tagged, p) && i < |Absorbed(stored, tagged).nodes|
    ensures IsProviderNode(Absorbed(stored, tagged).nodes[i], p) <==> i >= |stored| || Claims(stored, p, tagged, i)
    ensures i < |stored| && !Claims(stored, p, tagged, i) ==> Absorbed(stored, tagged).nodes[i] == stored[i]
  {
    hide IsProviderNode, NodeMatchKey, Absorbed, Hit, AllProviders;
    if i >= |stored| {
      AddedIsProviders(stored, p, tagged, i);
    } else if Hit(stored, i, tagged) {
      TakenInIsProviders(stored, p, tagged, i);
    } else {
      NotHitStays(stored, tagged, i);
    }
  }

  lemma MergedInLine(stored: seq<Node>, p: string, tagged: seq<Node>)
    requires AllProviders(tagged, p)
    ensures (forall k :: k in NonBlank(Keys(tagged)) ==> NobodyBehind(Absorbed(stored, tagged).nodes, p, k)) <==> InLine(stored, p, tagged)
  {
    hide IsProviderNode, NodeMatchKey, Absorbed, Claims, AllProviders, NonBlank, Keys;
    var merged := Absorbed(stored, tagged).nodes;
    forall i | 0 <= i < |merged|
      ensures IsProviderNode(merged[i], p) <==> i >= |stored| || Claims(stored, p, tagged, i)
      ensures i < |stored| && !Claims(stored, p, tagged, i) ==> merged[i] == stored[i]
    {
      MergedClaims(stored, p, tagged, i);
    }
    if !InLine(stored, p, tagged) {
      var i, j :| 0 <= i < j < |stored| && Claims(stored, p, tagged, i) && !Claims(stored, p, tagged, j)
                  && NodeMatchKey(stored[j]) in NonBlank(Keys(tagged));
      assert !NobodyBehind(merged, p, NodeMatchKey(merged[j]));
    }
  }

  lemma BehindPointwise(a: seq<Node>, b: seq<Node>, p: string, k: string)
    requires |a| == |b| && NobodyBehind(a, p, k)
    requires forall i :: 0 <= i < |a| ==> IsProviderNode(a[i], p) == IsProviderNode(b[i], p) && NodeMatchKey(a[i]) == NodeMatchKey(b[i])
    ensures NobodyBehind(b, p, k)
  {
    hide IsProviderNode, NodeMatchKey;
    forall i, j | 0 <= i < j < |b| && IsProviderNode(b[i], p) && !IsProviderNode(b[j], p) ensures NodeMatchKey(b[j]) != k {
      assert IsProviderNode(a[i], p) && !IsProviderNode(a[j], p);
    }
  }

  lemma MarkedBehind(nodes: seq<Node>, p: string, seen: set<string>, k: string)
    ensures NobodyBehind(Marked(nodes, p, seen), p, k) <==> NobodyBehind(nodes, p, k)
  {
    hide IsProviderNode, NodeMatchKey, NobodyBehind;
    var marked := Marked(nodes, p, seen);
    forall i | 0 <= i < |nodes|
      ensures IsProviderNode(marked[i], p) == IsProviderNode(nodes[i], p) && NodeMatchKey(marked[i]) == NodeMatchKey(nodes[i])
    {
      StaleKeepsKey(nodes[i]);
    }
    if NobodyBehind(nodes, p, k) { BehindPointwise(nodes, marked, p, k); }
    if NobodyBehind(marked, p, k) { BehindPointwise(marked, nodes, p, k); }
  }

  lemma RefreshedInLine(stored: seq<Node>, p: string, tagged: seq<Node>)
    requires p != "" && AllProviders(tagged, p)
    ensures (forall k :: k in NonBlank(Keys(tagged)) ==> NobodyBehind(RefreshedNodes(stored, p, tagged), p, k)) <==> InLine(stored, p, tagged)
  {
    hide IsProviderNode, NodeMatchKey, Absorbed, AllProviders, NonBlank, Keys, NobodyBehind, InLine, Marked, Reordered, Distinct;
    var merged, seen, order := Absorbed(stored, tagged).nodes, NonBlank(Keys(tagged)), Distinct(Keys(tagged));
    MergedInLine(stored, p, tagged);
    forall k | k in seen ensures NobodyBehind(RefreshedNodes(stored, p, tagged), p, k) <==> NobodyBehind(merged, p, k) {
      MarkedBehind(merged, p, seen, k);
      ReorderKeepsBehind(Marked(merged, p, seen), p, order, k);
    }
  }

  // What the refreshed list holds under the keys of the feed.

  /** Of a provider's nodes, the last under a key of the feed is the very node the merge left there. */
  lemma RefreshedHolder(stored: seq<Node>, p: string, tagged: seq<Node>, k: string)
    requires p != "" && Feed(tagged, p) && k in NonBlank(Keys(tagged))
    ensures var merged, provided := Absorbed(stored, tagged).nodes, Provided(RefreshedNodes(stored, p, tagged), p);
            k in ByKey(merged) && k in ByKey(provided) && ByKey(provided)[k] == ByKey(merged)[k]
  {
    hide IsProviderNode, NodeMatchKey, Absorbed, Keys, KeyIndex, ByKey, Provided, Distinct, Reordered, OrderedProvider, NonBlank,
         LinkedSubscriptionNode;
    var merged, seen, order := Absorbed(stored, tagged).nodes, NonBlank(Keys(tagged)), Distinct(Keys(tagged));
    var marked := Marked(merged, p, seen);
    LastIsFeeds(stored, p, tagged, k);
    LastIsIndexed(merged, k);
    MarkedFacts(merged, p, seen);
    assert marked[KeyIndex(Keys(merged))[k]] == merged[KeyIndex(Keys(merged))[k]];
    LastIsIndexed(marked, k);
    LastOfProvider(marked, p, k);
    DistinctFacts(Keys(tagged));
    ReorderIsIdempotent(marked, p, order);
    BlockByKey(Provided(marked, p), order, k);
  }

  lemma ReflectsFreshIff(node: Node, incoming: Node)
    requires node == incoming.(id := node.id)
    ensures Reflects(node, incoming) <==> Trimmed(incoming.name) && Trimmed(incoming.group)
  {
    hide Trim, Trimmed;
    RepeatFirstNonEmpty(incoming.name, incoming.name);
    RepeatFirstNonEmpty(incoming.group, incoming.group);
    TwoNames(incoming.name, incoming.name);
    TwoNames(incoming.group, incoming.group);
  }

  /** What the merge leaves under a key of the feed takes in the feed's node again without a change,
      unless it is new there and its name or group is not trimmed. */
  lemma HolderReflectsIff(stored: seq<Node>, tagged: seq<Node>, k: string)
    requires AllLinked(tagged) && k in NonBlank(Keys(tagged))
    ensures k in Keys(tagged) && k in ByKey(Absorbed(stored, tagged).nodes)
    ensures Reflects(ByKey(Absorbed(stored, tagged).nodes)[k], First(tagged, k))
       <==> k in Fresh(stored, tagged) ==> Trimmed(First(tagged, k).name) && Trimmed(First(tagged, k).group)
  {
    hide NodeMatchKey, Absorbed, KeyIndex, Fresh, First, LinkedSubscriptionNode, Reflects, Updated, Trimmed, ByKey, Keys, NonBlank;
    var nodes, added := Absorbed(stored, tagged).nodes, Fresh(stored, tagged);
    NonBlankIsIn(Keys(tagged), k);
    LinkedKeys(stored, tagged);
    FreshFacts(stored, tagged);
    MergeShape(stored, tagged);
    KeysLength(stored);
    LastIsIndexed(nodes, k);
    NonBlankIsIn(Keys(stored), k);
    if k in Keys(stored) {
      KeyIndexJoined(Keys(stored), added, k);
      var at := KeyIndex(Keys(stored))[k];
      KeyAt(stored, at);
      assert StoredShape(nodes[at], stored, at, tagged);
      UpdateReflects(stored[at], First(tagged, k));
    } else {
      FreshHolder(Keys(stored), added, k);
      var at := KeyIndex(Keys(nodes))[k];
      assert FreshShape(nodes[|stored| + (at - |stored|)], added[at - |stored|], tagged);
      ReflectsFreshIff(nodes[at], First(tagged, k));
    }
  }

  lemma FreshHolder(a: seq<string>, b: seq<string>, k: string)
    requires k in b && k != "" && k !in a
    ensures k in KeyIndex(a + b) && |a| <= KeyIndex(a + b)[k] && b[KeyIndex(a + b)[k] - |a|] == k
  {
    hide KeyIndex;
    var j :| 0 <= j < |b| && b[j] == k;
    assert (a + b)[|a| + j] == k;
    NonBlankIsIn(a + b, k);
    InFront(a, b, KeyIndex(a + b)[k]);
  }

  // The second merge finds nothing to do.

  /** The list already reflects everything the feed brings. */
  ghost predicate UpToDate(nodes: seq<Node>, incoming: seq<Node>) {
    forall k :: k in Keys(incoming) && k != "" ==> k in ByKey(nodes) && Reflects(ByKey(nodes)[k], First(incoming, k))
  }

  /** The node to activate, read off the final list. */
  function PickFrom(last: map<string, Node>, incoming: seq<Node>): string {
    if incoming == [] then ""
    else
      var n := |incoming| - 1;
      var picked, key := PickFrom(last, incoming[..n]), NodeMatchKey(incoming[n]);
      if key == "" || key in NonBlank(Keys(incoming[..n])) || key !in last then picked else Pick(picked, last[key])
  }

  lemma {:induction false} PickSame(a: map<string, Node>, b: map<string, Node>, incoming: seq<Node>)
    requires forall k :: k in NonBlank(Keys(incoming)) ==> k in a && k in b && a[k] == b[k]
    ensures PickFrom(a, incoming) == PickFrom(b, incoming)
  {
    hide NodeMatchKey, Keys;
    KeysLast(incoming);
    if incoming != [] {
      NonBlankStep(Keys(incoming[..|incoming| - 1]), NodeMatchKey(incoming[|incoming| - 1]));
      PickSame(a, b, incoming[..|incoming| - 1]);
    }
  }

  lemma {:induction false} FirstIs(incoming: seq<Node>, n: nat)
    requires n < |incoming| && NodeMatchKey(incoming[n]) !in Keys(incoming[..n])
    ensures NodeMatchKey(incoming[n]) in Keys(incoming) && First(incoming, NodeMatchKey(incoming[n])) == incoming[n]
  {
    hide NodeMatchKey;
    KeyAt(incoming, n);
    KeysLast(incoming);
    var m := |incoming| - 1;
    if n < m {
      assert incoming[..m][..n] == incoming[..n];
      FirstIs(incoming[..m], n);
    }
  }

  ghost predicate Idle(p: Progress, nodes: seq<Node>, picked: string) {
    p.nodes == nodes && p.stats.added == 0 && p.stats.updated == 0 && p.picked == picked
  }

  lemma {:induction false} NothingToMerge(nodes: seq<Node>, incoming: seq<Node>, n: nat)
    requires n <= |incoming| && UpToDate(nodes, incoming)
    ensures Idle(Absorbed(nodes, incoming[..n]), nodes, PickFrom(ByKey(nodes), incoming[..n]))
  {
    hide NodeMatchKey, Keys, KeyIndex, First, FirstNonEmpty, UsedIds, ImportedId, NonBlank, ByKey;
    if n > 0 {
      var node, before := incoming[n - 1], incoming[..n - 1];
      var key, index := NodeMatchKey(node), KeyIndex(Keys(nodes));
      KeysLength(nodes);
      NothingToMerge(nodes, incoming, n - 1);
      AbsorbStep(index, Start(nodes), incoming, n - 1);
      AbsorbAllBalanced(index, nodes, before);
      assert incoming[..n][..n - 1] == before;
      if key != "" && key !in NonBlank(Keys(before)) {
        NonBlankIsIn(Keys(before), key);
        FirstIs(incoming, n - 1);
        LastIsIndexed(nodes, key);
        IdleStep(index, Absorbed(nodes, before), nodes, node);
      }
    }
  }

  lemma IdleStep(index: map<string, nat>, p: Progress, nodes: seq<Node>, node: Node)
    requires Within(index, |p.nodes|) && Idle(p, nodes, p.picked)
    requires NodeMatchKey(node) != "" && NodeMatchKey(node) !in p.seen && NodeMatchKey(node) in index
    requires Reflects(nodes[index[NodeMatchKey(node)]], node)
    ensures Idle(Absorb(index, p, node), nodes, Pick(p.picked, nodes[index[NodeMatchKey(node)]]))
  {
    hide NodeMatchKey, FirstNonEmpty;
    var i := index[NodeMatchKey(node)];
    assert nodes[i := nodes[i]] == nodes;
    assert Updated(nodes[i], node).outbound == node.outbound;
  }

  // What the first merge activates is read off its result.

  lemma AbsorbKeeps(index: map<string, nat>, p: Progress, node: Node, i: nat)
    requires Within(index, |p.nodes|) && i < |p.nodes| && NodeMatchKey(p.nodes[i]) in p.seen
    requires forall k :: k in index ==> NodeMatchKey(p.nodes[index[k]]) == k
    ensures Absorb(index, p, node).nodes[i] == p.nodes[i]
  {
    hide NodeMatchKey, Updated, ImportedId;
  }

  /** A node that is settled under a key of the feed stays as it is. */
  lemma {:induction false} LaterKeeps(stored: seq<Node>, incoming: seq<Node>, n: nat, i: nat)
    requires AllLinked(incoming) && n <= |incoming| && i < |Absorbed(stored, incoming[..n]).nodes|
    requires NodeMatchKey(Absorbed(stored, incoming[..n]).nodes[i]) in NonBlank(Keys(incoming[..n]))
    ensures i < |Absorbed(stored, incoming).nodes|
    ensures Absorbed(stored, incoming).nodes[i] == Absorbed(stored, incoming[..n]).nodes[i]
    decreases |incoming|
  {
    hide NodeMatchKey, Keys, KeyIndex, Absorb, Absorbed, NonBlank, First, LinkedSubscriptionNode;
    var m := |incoming| - 1;
    if n == |incoming| {
      assert incoming[..n] == incoming;
    } else {
      assert incoming[..m][..n] == incoming[..n];
      LaterKeeps(stored, incoming[..m], n, i);
      SeenGrows(incoming[..m], n);
      OneMore(stored, incoming, i);
    }
  }

  lemma SeenGrows(incoming: seq<Node>, n: nat)
    requires n <= |incoming|
    ensures NonBlank(Keys(incoming[..n])) <= NonBlank(Keys(incoming))
  {
    hide NodeMatchKey;
    assert incoming == incoming[..n] + incoming[n..];
    KeysAppend(incoming[..n], incoming[n..]);
  }

  lemma OneMore(stored: seq<Node>, incoming: seq<Node>, i: nat)
    requires incoming != [] && AllLinked(incoming) && i < |Absorbed(stored, incoming[..|incoming| - 1]).nodes|
    requires NodeMatchKey(Absorbed(stored, incoming[..|incoming| - 1]).nodes[i]) in NonBlank(Keys(incoming[..|incoming| - 1]))
    ensures i < |Absorbed(stored, incoming).nodes|
    ensures Absorbed(stored, incoming).nodes[i] == Absorbed(stored, incoming[..|incoming| - 1]).nodes[i]
  {
    hide NodeMatchKey, KeyIndex, Absorb, NonBlank, First, LinkedSubscriptionNode, Fresh;
    var before := incoming[..|incoming| - 1];
    var index, p := KeyIndex(Keys(stored)), Absorbed(stored, before);
    KeysLength(stored);
    AbsorbAllBalanced(index, stored, before);
    LinkedKeys(stored, before);
    forall k | k in index ensures NodeMatchKey(p.nodes[index[k]]) == k {
      KeyAt(p.nodes, index[k]);
      assert Keys(p.nodes)[index[k]] == Keys(stored)[index[k]] == k;
    }
    AbsorbKeeps(index, p, incoming[|incoming| - 1], i);
  }

  lemma {:induction false} PickedPrefix(stored: seq<Node>, incoming: seq<Node>, n: nat)
    requires AllLinked(incoming) && n <= |incoming|
    ensures Absorbed(stored, incoming[..n]).picked == PickFrom(ByKey(Absorbed(stored, incoming).nodes), incoming[..n])
  {
    hide NodeMatchKey, Keys, KeyIndex, First, UsedIds, ImportedId, NonBlank, ByKey, Updated, LinkedSubscriptionNode;
    if n > 0 {
      var node, before := incoming[n - 1], incoming[..n - 1];
      var index := KeyIndex(Keys(stored));
      KeysLength(stored);
      PickedPrefix(stored, incoming, n - 1);
      AbsorbStep(index, Start(stored), incoming, n - 1);
      AbsorbAllBalanced(index, stored, before);
      assert incoming[..n][..n - 1] == before;
      if NodeMatchKey(node) != "" && NodeMatchKey(node) !in NonBlank(Keys(before)) {
        SettledHere(stored, incoming, n);
      }
    }
  }

  /** Where a step settles a node: where its key last was, or at the end. */
  lemma StepPlace(stored: seq<Node>, incoming: seq<Node>, n: nat) returns (at: nat)
    requires AllLinked(incoming) && 0 < n <= |incoming|
    requires NodeMatchKey(incoming[n - 1]) != "" && NodeMatchKey(incoming[n - 1]) !in NonBlank(Keys(incoming[..n - 1]))
    ensures var key, index, p, q := NodeMatchKey(incoming[n - 1]), KeyIndex(Keys(stored)), Absorbed(stored, incoming[..n - 1]), Absorbed(stored, incoming[..n]);
            at < |q.nodes| && NodeMatchKey(q.nodes[at]) == key && q.picked == Pick(p.picked, q.nodes[at])
            && if key in index then at == index[key] else at >= |stored|
  {
    hide NodeMatchKey, Updated, UsedIds, ImportedId, NonBlank, KeyIndex, Keys, LinkedSubscriptionNode;
    var node, before, index := incoming[n - 1], incoming[..n - 1], KeyIndex(Keys(stored));
    var key, p := NodeMatchKey(node), Absorbed(stored, before);
    KeysLength(stored);
    AbsorbStep(index, Start(stored), incoming, n - 1);
    AbsorbAllBalanced(index, stored, before);
    assert incoming[..n] == incoming[..n - 1 + 1];
    assert node in incoming;
    if key in index {
      at := index[key];
      UpdatedKey(p.nodes[at], node);
    } else {
      at := |p.nodes|;
      AddedKey(node, ImportedId(node, p.used));
    }
  }

  /** The node that a step settles is the last one under its key in the end. */
  lemma SettledHere(stored: seq<Node>, incoming: seq<Node>, n: nat)
    requires AllLinked(incoming) && 0 < n <= |incoming|
    requires NodeMatchKey(incoming[n - 1]) != "" && NodeMatchKey(incoming[n - 1]) !in NonBlank(Keys(incoming[..n - 1]))
    ensures var key, last, p := NodeMatchKey(incoming[n - 1]), ByKey(Absorbed(stored, incoming).nodes), Absorbed(stored, incoming[..n - 1]);
            key in last && Absorbed(stored, incoming[..n]).picked == Pick(p.picked, last[key])
  {
    hide NodeMatchKey, Absorbed, NonBlank, KeyIndex, Keys, ByKey, AllLinked;
    var at := StepPlace(stored, incoming, n);
    SeenHere(incoming, n);
    SeenGrows(incoming, n);
    LaterKeeps(stored, incoming, n, at);
    LastPlace(stored, incoming, NodeMatchKey(incoming[n - 1]), at);
  }

  lemma SeenHere(incoming: seq<Node>, n: nat)
    requires 0 < n <= |incoming| && NodeMatchKey(incoming[n - 1]) != ""
    ensures NodeMatchKey(incoming[n - 1]) in NonBlank(Keys(incoming[..n]))
  {
    hide NodeMatchKey;
    KeyAt(incoming[..n], n - 1);
  }

  /** The last place of a key of the feed in the merged list: where it last was, or where it came in. */
  lemma LastPlace(stored: seq<Node>, incoming: seq<Node>, key: string, at: nat)
    requires AllLinked(incoming) && key != "" && at < |Absorbed(stored, incoming).nodes|
    requires NodeMatchKey(Absorbed(stored, incoming).nodes[at]) == key
    requires if key in KeyIndex(Keys(stored)) then at == KeyIndex(Keys(stored))[key] else at >= |stored|
    requires key in NonBlank(Keys(incoming))
    ensures var nodes := Absorbed(stored, incoming).nodes; key in ByKey(nodes) && ByKey(nodes)[key] == nodes[at]
  {
    hide NodeMatchKey, Absorbed, KeyIndex, Keys, ByKey, Fresh, LinkedSubscriptionNode;
    var nodes, added := Absorbed(stored, incoming).nodes, Fresh(stored, incoming);
    KeysLength(stored);
    LinkedKeys(stored, incoming);
    FreshFacts(stored, incoming);
    KeyAt(nodes, at);
    LastIsIndexed(nodes, key);
    NonBlankIsIn(Keys(stored), key);
    if key in KeyIndex(Keys(stored)) {
      KeyIndexJoined(Keys(stored), added, key);
    } else {
      FreshHolder(Keys(stored), added, key);
    }
  }

  // The whole refresh.

  lemma RefreshedUpToDate(stored: seq<Node>, p: string, tagged: seq<Node>)
    requires p != "" && Feed(tagged, p) && InLine(stored, p, tagged) && FreshTidy(stored, tagged)
    ensures var r, merged := RefreshedNodes(stored, p, tagged), Absorbed(stored, tagged).nodes;
            UpToDate(r, tagged)
            && forall k :: k in NonBlank(Keys(tagged)) ==> k in ByKey(merged) && k in ByKey(r) && ByKey(merged)[k] == ByKey(r)[k]
  {
    hide IsProviderNode, NodeMatchKey, Absorbed, First, Reflects, LinkedSubscriptionNode, AllProviders, RefreshedNodes, Provided, ByKey, InLine,
         NobodyBehind, Keys, Fresh, Trimmed;
    var r := RefreshedNodes(stored, p, tagged);
    RefreshedInLine(stored, p, tagged);
    forall k | k in NonBlank(Keys(tagged))
      ensures k in ByKey(Absorbed(stored, tagged).nodes) && k in ByKey(r) && ByKey(Absorbed(stored, tagged).nodes)[k] == ByKey(r)[k]
      ensures k in Keys(tagged) && Reflects(ByKey(r)[k], First(tagged, k))
    {
      RefreshedHolder(stored, p, tagged, k);
      LastIsTheProviders(r, p, k);
      HolderReflectsIff(stored, tagged, k);
    }
  }

  lemma {:induction false} NothingGone(nodes: seq<Node>, p: string, seen: set<string>)
    requires forall n :: n in nodes && Gone(n, p, seen) ==> n.stale
    ensures Marked(nodes, p, seen) == nodes && NewlyStale(nodes, p, seen) == 0
  {
    hide Gone;
    assert forall i :: 0 <= i < |nodes| ==> nodes[i] in nodes && Mark(nodes[i], p, seen) == nodes[i];
    if nodes != [] {
      assert nodes == nodes[..|nodes| - 1] + [nodes[|nodes| - 1]];
      NothingGone(nodes[..|nodes| - 1], p, seen);
    }
  }

  lemma RefreshLeavesNoneGone(stored: seq<Node>, p: string, tagged: seq<Node>)
    ensures forall n :: n in RefreshedNodes(stored, p, tagged) && Gone(n, p, NonBlank(Keys(tagged))) ==> n.stale
  {
    hide IsProviderNode, NodeMatchKey, RefreshedNodes, Keys;
    forall n | n in RefreshedNodes(stored, p, tagged) && IsProviderNode(n, p) ensures n.stale || NodeMatchKey(n) in NonBlank(Keys(tagged)) {
      if !n.stale { LiveIsSeen(stored, p, tagged, n); }
    }
  }

  lemma RefreshNodesAgain(stored: seq<Node>, p: string, tagged: seq<Node>)
    requires p != "" && Feed(tagged, p) && InLine(stored, p, tagged) && FreshTidy(stored, tagged)
    ensures var r := RefreshedNodes(stored, p, tagged);
            Idle(Absorbed(r, tagged), r, Absorbed(stored, tagged).picked)
            && RefreshedNodes(r, p, tagged) == r && NewlyStale(r, p, NonBlank(Keys(tagged))) == 0
  {
    hide IsProviderNode, NodeMatchKey, First, Reflects, LinkedSubscriptionNode, Trimmed, ByKey, KeyIndex, InLine, FreshTidy, UpToDate,
         Keys, NonBlank, AbsorbAll, PickFrom, Reordered, Marked, Distinct;
    var r, merged, seen := RefreshedNodes(stored, p, tagged), Absorbed(stored, tagged).nodes, NonBlank(Keys(tagged));
    RefreshedUpToDate(stored, p, tagged);
    assert tagged[..|tagged|] == tagged;
    NothingToMerge(r, tagged, |tagged|);
    PickedPrefix(stored, tagged, |tagged|);
    PickSame(ByKey(merged), ByKey(r), tagged);
    RefreshLeavesNoneGone(stored, p, tagged);
    NothingGone(r, p, seen);
    ReorderIsIdempotent(Marked(merged, p, seen), p, Distinct(Keys(tagged)));
  }

  /** A node outside the provider behind its nodes, under a key of the feed, is taken over the second time. */
  lemma OutOfLineChanges(stored: seq<Node>, p: string, tagged: seq<Node>)
    requires p != "" && Feed(tagged, p) && !InLine(stored, p, tagged)
    ensures var r := RefreshedNodes(stored, p, tagged); RefreshedNodes(r, p, tagged) != r
  {
    hide IsProviderNode, NodeMatchKey, Absorbed, LinkedSubscriptionNode, AllProviders, RefreshedNodes, InLine, Keys, KeyIndex, ByKey, NonBlank, Others;
    var r := RefreshedNodes(stored, p, tagged);
    RefreshedInLine(stored, p, tagged);
    var k :| k in NonBlank(Keys(tagged)) && !NobodyBehind(r, p, k);
    LastIsBehind(stored, p, tagged, k);
    RefreshLeavesOthersIff(r, p, tagged);
  }

  lemma LastIsBehind(stored: seq<Node>, p: string, tagged: seq<Node>, k: string)
    requires p != "" && k in NonBlank(Keys(tagged)) && !NobodyBehind(RefreshedNodes(stored, p, tagged), p, k)
    ensures !Separated(RefreshedNodes(stored, p, tagged), p, tagged)
  {
    hide IsProviderNode, NodeMatchKey, Absorbed, Marked, Reordered, Distinct, Keys, KeyIndex, ByKey;
    var r, order := RefreshedNodes(stored, p, tagged), Distinct(Keys(tagged));
    var i, j :| 0 <= i < j < |r| && IsProviderNode(r[i], p) && !IsProviderNode(r[j], p) && NodeMatchKey(r[j]) == k;
    KeyAt(r, j);
    var t := LastIndex(Keys(r), j);
    KeyAt(r, t);
    if j < t { BehindOneBehindAll(Marked(Absorbed(stored, tagged).nodes, p, NonBlank(Keys(tagged))), p, order, i, j, t); }
    assert Hit(r, t, tagged);
  }

  lemma {:induction false} LastIndex(keys: seq<string>, j: nat) returns (t: nat)
    requires j < |keys| && keys[j] != ""
    ensures j <= t < |keys| && keys[j] in KeyIndex(keys) && KeyIndex(keys)[keys[j]] == t
  {
    var n := |keys| - 1;
    if keys[n] == keys[j] { t := n; } else { t := LastIndex(keys[..n], j); }
  }

  /** A new node with an untrimmed name or group is trimmed the second time. */
  lemma UntidyChanges(stored: seq<Node>, p: string, tagged: seq<Node>)
    requires p != "" && Feed(tagged, p) && !FreshTidy(stored, tagged)
    ensures var r := RefreshedNodes(stored, p, tagged); RefreshedNodes(r, p, tagged) != r
  {
    hide IsProviderNode, NodeMatchKey, Absorbed, First, Reflects, LinkedSubscriptionNode, AllProviders, RefreshedNodes, Provided, ByKey, Keys,
         Fresh, Trimmed, NonBlank;
    var r := RefreshedNodes(stored, p, tagged);
    var k :| k in Fresh(stored, tagged) && k in Keys(tagged) && !(Trimmed(First(tagged, k).name) && Trimmed(First(tagged, k).group));
    FreshFacts(stored, tagged);
    RefreshedHolder(stored, p, tagged, k);
    HolderReflectsIff(stored, tagged, k);
    RefreshedHolder(r, p, tagged, k);
    HolderReflectsIff(r, tagged, k);
    FreshFacts(r, tagged);
    HeldIsStored(r, p, k);
  }

  lemma HeldIsStored(nodes: seq<Node>, p: string, k: string)
    requires k in ByKey(Provided(nodes, p))
    ensures k in NonBlank(Keys(nodes))
  {
    hide NodeMatchKey, IsProviderNode, Provided;
    ProvidedMembers(nodes, p);
    var i :| 0 <= i < |nodes| && nodes[i] == ByKey(Provided(nodes, p))[k];
    KeyAt(nodes, i);
  }

  lemma RepairSettles(nodes: seq<Node>, picked: string, active: string)
    ensures var once := Repaired(nodes, active);
            Repaired(nodes, ActiveAfter(nodes, "", once)) == once
  {
    hide FirstLiveId, NamesLive;
  }

  /** Refreshing again with the same linked feed changes nothing, not a node, not the order, not the
      active node, exactly when what is new comes with trimmed names and groups and no node outside
      the provider, but under a key of the feed, stands behind the provider's nodes. Then nothing is
      counted as added, updated or newly stale. */
  lemma RefreshIsIdempotentIff(current: Document, sub: Subscription, incoming: seq<Node>)
    requires forall i :: 0 <= i < |incoming| ==> Linked(incoming[i])
    ensures var p := Trim(sub.providerKey);
            var tagged := Tagged(incoming, p, Trim(sub.url));
            var (next, _) := Refreshed(current, sub, incoming);
            var (again, stats) := Refreshed(next, sub, incoming);
            (again == next <==> p == "" || (InLine(current.nodes, p, tagged) && FreshTidy(current.nodes, tagged)))
            && (again == next ==> stats.added == 0 && stats.updated == 0 && stats.stale == 0)
  {
    hide Trim, Trimmed, Linked, IsProviderNode, NodeMatchKey, LinkedSubscriptionNode, Tagged, Keys, KeyIndex, NonBlank, InLine, FreshTidy,
         Absorbed, RefreshedNodes, FirstLiveId, NamesLive, NewlyStale, Repaired;
    var p, url := Trim(sub.providerKey), Trim(sub.url);
    if p != "" {
      var tagged := Tagged(incoming, p, url);
      var r, first := RefreshedNodes(current.nodes, p, tagged), Absorbed(current.nodes, tagged);
      TaggedFeed(incoming, p, url);
      if !InLine(current.nodes, p, tagged) {
        OutOfLineChanges(current.nodes, p, tagged);
      } else if !FreshTidy(current.nodes, tagged) {
        UntidyChanges(current.nodes, p, tagged);
      } else {
        RefreshNodesAgain(current.nodes, p, tagged);
        RepairSettles(r, first.picked, ActiveAfter(first.nodes, first.picked, current.activeNodeId));
      }
    }
  }

  lemma DistinctInLine(stored: seq<Node>, p: string, tagged: seq<Node>)
    requires NoRepeats(Keys(stored))
    ensures InLine(stored, p, tagged)
  {
    hide NodeMatchKey, IsProviderNode, KeyIndex;
    KeysLength(stored);
    forall j | 0 <= j < |stored| && NodeMatchKey(stored[j]) in NonBlank(Keys(tagged)) ensures Hit(stored, j, tagged) {
      KeyAt(stored, j);
      var k := NodeMatchKey(stored[j]);
      assert k in NonBlank(Keys(stored));
      assert Keys(stored)[KeyIndex(Keys(stored))[k]] == k;
    }
  }

  /** In particular, with distinct keys in the document and trimmed names and groups in the feed. */
  lemma RefreshIsIdempotent(current: Document, sub: Subscription, incoming: seq<Node>)
    requires NoRepeats(Keys(current.nodes)) && Tidy(incoming)
    requires forall i :: 0 <= i < |incoming| ==> Linked(incoming[i])
    ensures var (next, _) := Refreshed(current, sub, incoming);
            var (again, stats) := Refreshed(next, sub, incoming);
            again == next && stats.added == 0 && stats.updated == 0 && stats.stale == 0
  {
    hide Trim, Trimmed, Linked, IsProviderNode, NodeMatchKey, Tagged, Keys, First, Fresh, InLine, Refreshed;
    var p, url := Trim(sub.providerKey), Trim(sub.url);
    var tagged := Tagged(incoming, p, url);
    TaggedFeed(incoming, p, url);
    DistinctInLine(current.nodes, p, tagged);
    forall k | k in Keys(tagged) ensures First(tagged, k) in tagged {
      FirstHasKey(tagged, k);
    }
    RefreshIsIdempotentIff(current, sub, incoming);
  }
}
