/** Putting one provider's nodes into the order the provider sent them. */
module ProviderOrder {
  import opened Text
  import opened ProfileModel
  import opened NodeMergeFacts

  // What the loops compute.

  /** The distinct non-blank strings of a list in the order of their first occurrence. */
  function Distinct(keys: seq<string>): seq<string> {
    if keys == [] then []
    else
      var front, last := Distinct(keys[..|keys| - 1]), keys[|keys| - 1];
      if last == "" || last in front then front else front + [last]
  }

  function Provided(nodes: seq<Node>, p: string): seq<Node> {
    if nodes == [] then []
    else
      var front, last := Provided(nodes[..|nodes| - 1], p), nodes[|nodes| - 1];
      if IsProviderNode(last, p) then front + [last] else front
  }

  function Others(nodes: seq<Node>, p: string): seq<Node> {
    if nodes == [] then []
    else
      var front, last := Others(nodes[..|nodes| - 1], p), nodes[|nodes| - 1];
      if IsProviderNode(last, p) then front else front + [last]
  }

  /** The last node under each non-blank key. */
  function ByKey(nodes: seq<Node>): (m: map<string, Node>)
    ensures forall k :: k in m ==> k != "" && m[k] in nodes && NodeMatchKey(m[k]) == k
  {
    if nodes == [] then map[]
    else
      var m, last := ByKey(nodes[..|nodes| - 1]), nodes[|nodes| - 1];
      if NodeMatchKey(last) == "" then m else m[NodeMatchKey(last) := last]
  }

  /** The nodes the order names, in that order. */
  function Front(order: seq<string>, m: map<string, Node>): seq<Node> {
    if order == [] then []
    else
      var front, last := Front(order[..|order| - 1], m), order[|order| - 1];
      if last in m then front + [m[last]] else front
  }

  function Used(order: seq<string>, m: map<string, Node>): set<string> {
    set k | k in order && k in m
  }

  predicate Taken(node: Node, used: set<string>) {
    NodeMatchKey(node) != "" && NodeMatchKey(node) in used
  }

  /** The nodes the order does not name, in their old order. */
  function Back(nodes: seq<Node>, used: set<string>): seq<Node> {
    if nodes == [] then []
    else
      var front, last := Back(nodes[..|nodes| - 1], used), nodes[|nodes| - 1];
      if Taken(last, used) then front else front + [last]
  }

  function OrderedProvider(provided: seq<Node>, order: seq<string>): seq<Node> {
    Front(order, ByKey(provided)) + Back(provided, Used(order, ByKey(provided)))
  }

  function FirstProvider(nodes: seq<Node>, p: string): (f: nat)
    ensures f <= |nodes|
    ensures forall i :: 0 <= i < f ==> !IsProviderNode(nodes[i], p)
    ensures f < |nodes| ==> IsProviderNode(nodes[f], p)
  {
    if nodes == [] || IsProviderNode(nodes[0], p) then 0 else 1 + FirstProvider(nodes[1..], p)
  }

  /** Everything up to the first provider node, the given block, everything else after it. */
  function Replaced(nodes: seq<Node>, p: string, block: seq<Node>): seq<Node> {
    var f := FirstProvider(nodes, p);
    if f == |nodes| then nodes else nodes[..f] + block + Others(nodes[f..], p)
  }

  function Reordered(nodes: seq<Node>, p: string, order: seq<string>): seq<Node> {
    if p == "" then nodes else Replaced(nodes, p, OrderedProvider(Provided(nodes, p), order))
  }

  // Filters over concatenations.

  lemma {:induction false} FiltersAppend(a: seq<Node>, b: seq<Node>, p: string)
    ensures Provided(a + b, p) == Provided(a, p) + Provided(b, p)
    ensures Others(a + b, p) == Others(a, p) + Others(b, p)
  {
    hide IsProviderNode;
    if b == [] {
      assert a + b == a;
    } else {
      var n := |b| - 1;
      FiltersAppend(a, b[..n], p);
      assert (a + b)[..|a + b| - 1] == a + b[..n];
    }
  }

  lemma {:induction false} NoneProvided(nodes: seq<Node>, p: string)
    requires forall i :: 0 <= i < |nodes| ==> !IsProviderNode(nodes[i], p)
    ensures Provided(nodes, p) == [] && Others(nodes, p) == nodes
  {
    hide IsProviderNode;
    if nodes != [] { NoneProvided(nodes[..|nodes| - 1], p); }
  }

  lemma {:induction false} AllProvided(nodes: seq<Node>, p: string)
    requires forall i :: 0 <= i < |nodes| ==> IsProviderNode(nodes[i], p)
    ensures Provided(nodes, p) == nodes && Others(nodes, p) == []
  {
    hide IsProviderNode;
    if nodes != [] { AllProvided(nodes[..|nodes| - 1], p); }
  }

  lemma {:induction false} ProvidedMembers(nodes: seq<Node>, p: string)
    ensures forall n :: n in Provided(nodes, p) <==> n in nodes && IsProviderNode(n, p)
    ensures forall n :: n in Others(nodes, p) <==> n in nodes && !IsProviderNode(n, p)
    ensures multiset(Provided(nodes, p)) + multiset(Others(nodes, p)) == multiset(nodes)
  {
    hide IsProviderNode;
    if nodes != [] {
      ProvidedMembers(nodes[..|nodes| - 1], p);
      assert nodes == nodes[..|nodes| - 1] + [nodes[|nodes| - 1]];
    }
  }

  lemma {:induction false} BackMembers(nodes: seq<Node>, used: set<string>)
    ensures forall n :: n in Back(nodes, used) <==> n in nodes && !Taken(n, used)
  {
    hide NodeMatchKey, Taken;
    if nodes != [] {
      BackMembers(nodes[..|nodes| - 1], used);
      assert nodes == nodes[..|nodes| - 1] + [nodes[|nodes| - 1]];
    }
  }

  lemma {:induction false} BackAppend(a: seq<Node>, b: seq<Node>, used: set<string>)
    ensures Back(a + b, used) == Back(a, used) + Back(b, used)
  {
    hide Taken;
    if b == [] {
      assert a + b == a;
    } else {
      BackAppend(a, b[..|b| - 1], used);
      assert (a + b)[..|a + b| - 1] == a + b[..|b| - 1];
    }
  }

  lemma {:induction false} BackKeepsAll(nodes: seq<Node>, used: set<string>)
    requires forall n :: n in nodes ==> !Taken(n, used)
    ensures Back(nodes, used) == nodes
  {
    hide Taken;
    if nodes != [] {
      assert forall n :: n in nodes[..|nodes| - 1] ==> n in nodes;
      BackKeepsAll(nodes[..|nodes| - 1], used);
    }
  }

  lemma {:induction false} BackDropsAll(nodes: seq<Node>, used: set<string>)
    requires forall n :: n in nodes ==> Taken(n, used)
    ensures Back(nodes, used) == []
  {
    hide Taken;
    if nodes != [] {
      assert forall n :: n in nodes[..|nodes| - 1] ==> n in nodes;
      BackDropsAll(nodes[..|nodes| - 1], used);
    }
  }

  lemma {:induction false} ByKeyDomain(nodes: seq<Node>)
    ensures forall n :: n in nodes && NodeMatchKey(n) != "" ==> NodeMatchKey(n) in ByKey(nodes)
  {
    hide NodeMatchKey;
    if nodes != [] { ByKeyDomain(nodes[..|nodes| - 1]); }
  }

  lemma {:induction false} FrontMembers(order: seq<string>, m: map<string, Node>)
    ensures forall n :: n in Front(order, m) <==> exists k :: k in order && k in m && n == m[k]
  {
    if order != [] {
      FrontMembers(order[..|order| - 1], m);
      assert order == order[..|order| - 1] + [order[|order| - 1]];
    }
  }

  lemma {:induction false} FrontSame(order: seq<string>, m: map<string, Node>, m': map<string, Node>)
    requires forall k :: k in order ==> (k in m <==> k in m') && (k in m ==> m[k] == m'[k])
    ensures Front(order, m) == Front(order, m')
  {
    if order != [] {
      assert forall k :: k in order[..|order| - 1] ==> k in order;
      FrontSame(order[..|order| - 1], m, m');
    }
  }

  // The ordered block is a fixed point of ordering.

  lemma OrderAgain(provided: seq<Node>, order: seq<string>)
    ensures var block := OrderedProvider(provided, order);
            OrderedProvider(block, order) == block && (provided != [] ==> block != [])
  {
    hide NodeMatchKey, Taken, ByKey, Front, Back, Used;
    var m := ByKey(provided);
    var used := Used(order, m);
    var front, back := Front(order, m), Back(provided, used);
    FrontSameAgain(provided, order);
    UsedSameAgain(provided, order);
    BackSameAgain(provided, order);
    if provided != [] {
      BackMembers(provided, used);
      if Taken(provided[0], used) { FrontHasTaken(provided, order, provided[0]); }
      if !Taken(provided[0], used) { assert provided[0] in back; }
    }
  }

  /** The ordered block has, under each key that the order names, the node that was there before. */
  lemma BlockByKey(provided: seq<Node>, order: seq<string>, k: string)
    requires k in order
    ensures var m, again := ByKey(provided), ByKey(OrderedProvider(provided, order));
            (k in m <==> k in again) && (k in m ==> m[k] == again[k])
  {
    hide NodeMatchKey, Taken, Back, Front;
    var m := ByKey(provided);
    var used := Used(order, m);
    var front, back := Front(order, m), Back(provided, used);
    var again := ByKey(front + back);
    ByKeyDomain(provided);
    ByKeyDomain(front + back);
    FrontMembers(order, m);
    BackMembers(provided, used);
    TakenMeansUsed(provided, order);
    if k in m {
      assert m[k] in front && m[k] in front + back && NodeMatchKey(m[k]) == k;
      assert again[k] in front + back && NodeMatchKey(again[k]) == k;
    }
    if k in again {
      assert again[k] in front + back && NodeMatchKey(again[k]) == k;
    }
  }

  lemma FrontSameAgain(provided: seq<Node>, order: seq<string>)
    ensures Front(order, ByKey(OrderedProvider(provided, order))) == Front(order, ByKey(provided))
  {
    hide OrderedProvider, ByKey, Front;
    var m, again := ByKey(provided), ByKey(OrderedProvider(provided, order));
    forall k | k in order ensures (k in m <==> k in again) && (k in m ==> m[k] == again[k]) {
      BlockByKey(provided, order, k);
    }
    FrontSame(order, m, again);
  }

  lemma UsedSameAgain(provided: seq<Node>, order: seq<string>)
    ensures Used(order, ByKey(OrderedProvider(provided, order))) == Used(order, ByKey(provided))
  {
    hide OrderedProvider, ByKey;
    forall k | k in order ensures k in ByKey(provided) <==> k in ByKey(OrderedProvider(provided, order)) {
      BlockByKey(provided, order, k);
    }
  }

  lemma BackSameAgain(provided: seq<Node>, order: seq<string>)
    ensures var used := Used(order, ByKey(provided));
            Back(OrderedProvider(provided, order), used) == Back(provided, used)
  {
    hide NodeMatchKey, Taken, ByKey, Front, Back, Used;
    var used := Used(order, ByKey(provided));
    var front, back := Front(order, ByKey(provided)), Back(provided, used);
    BackMembers(provided, used);
    forall n | n in front ensures Taken(n, used) {
      FrontIsTaken(order, ByKey(provided), n);
    }
    BackAppend(front, back, used);
    BackDropsAll(front, used);
    BackKeepsAll(back, used);
  }

  lemma FrontIsTaken(order: seq<string>, m: map<string, Node>, n: Node)
    requires n in Front(order, m) && forall k :: k in m ==> k != "" && NodeMatchKey(m[k]) == k
    ensures Taken(n, Used(order, m))
  {
    hide NodeMatchKey, Front;
    FrontMembers(order, m);
  }

  lemma FrontHasTaken(provided: seq<Node>, order: seq<string>, n: Node)
    requires n in provided && Taken(n, Used(order, ByKey(provided)))
    ensures ByKey(provided)[NodeMatchKey(n)] in Front(order, ByKey(provided))
  {
    hide NodeMatchKey, Front, ByKey;
    FrontMembers(order, ByKey(provided));
  }

  /** A provider node is passed over exactly when the order names its key. */
  lemma TakenMeansUsed(provided: seq<Node>, order: seq<string>)
    ensures forall n :: n in provided ==>
              (Taken(n, Used(order, ByKey(provided))) <==> NodeMatchKey(n) in order && NodeMatchKey(n) in ByKey(provided))
  {
    hide NodeMatchKey;
  }

  /** Reordering puts the provider's nodes into one block where its first node was, keeps every
      other node in its place relative to the rest, and a second reordering changes nothing. */
  lemma ReorderIsIdempotent(nodes: seq<Node>, p: string, order: seq<string>)
    requires p != ""
    ensures var r := Reordered(nodes, p, order);
            Provided(r, p) == OrderedProvider(Provided(nodes, p), order)
            && Others(r, p) == Others(nodes, p)
            && FirstProvider(r, p) == FirstProvider(nodes, p)
            && Reordered(r, p, order) == r
  {
    hide IsProviderNode, OrderedProvider, Provided, Others, FirstProvider;
    var f, provided := FirstProvider(nodes, p), Provided(nodes, p);
    var block := OrderedProvider(provided, order);
    OrderAgain(provided, order);
    if f == |nodes| {
      NoneProvided(nodes, p);
      NothingToOrder(order);
    } else {
      SplitAtFirst(nodes, p);
      OrderedMembers(provided, order);
      ProvidedMembers(nodes, p);
      BlockShape(nodes[..f], block, Others(nodes[f..], p), p);
    }
  }

  lemma SplitAtFirst(nodes: seq<Node>, p: string)
    requires FirstProvider(nodes, p) < |nodes|
    ensures var f := FirstProvider(nodes, p);
            Provided(nodes, p) == Provided(nodes[f..], p) != []
            && Others(nodes, p) == nodes[..f] + Others(nodes[f..], p)
            && (forall n :: n in Others(nodes[f..], p) ==> !IsProviderNode(n, p))
  {
    hide IsProviderNode;
    var f := FirstProvider(nodes, p);
    assert nodes == nodes[..f] + nodes[f..];
    NoneProvided(nodes[..f], p);
    FiltersAppend(nodes[..f], nodes[f..], p);
    ProvidedMembers(nodes[f..], p);
    assert nodes[f] in nodes[f..] && nodes[f] in Provided(nodes[f..], p);
  }

  lemma BlockShape(pre: seq<Node>, block: seq<Node>, post: seq<Node>, p: string)
    requires forall i :: 0 <= i < |pre| ==> !IsProviderNode(pre[i], p)
    requires block != [] && forall n :: n in block ==> IsProviderNode(n, p)
    requires forall n :: n in post ==> !IsProviderNode(n, p)
    ensures var r := pre + block + post;
            FirstProvider(r, p) == |pre| < |r| && Provided(r, p) == block && Others(r, p) == pre + post
            && r[..|pre|] == pre && Others(r[|pre|..], p) == post
  {
    hide IsProviderNode, Provided, Others, FirstProvider;
    AllProvided(block, p);
    NoneProvided(pre, p);
    NoneProvided(post, p);
    FiltersAppend(block, post, p);
    FiltersAppend(pre, block + post, p);
    FirstAfter(pre, block + post, p);
    assert pre + block + post == pre + (block + post);
    assert (pre + block + post)[|pre|..] == block + post;
  }

  lemma NothingToOrder(order: seq<string>)
    ensures OrderedProvider([], order) == []
  {
    FrontMembers(order, map[]);
    assert Front(order, map[]) == [] || Front(order, map[])[0] in Front(order, map[]);
  }

  lemma OrderedMembers(provided: seq<Node>, order: seq<string>)
    ensures forall n :: n in OrderedProvider(provided, order) ==> n in provided
  {
    hide NodeMatchKey, Taken;
    FrontMembers(order, ByKey(provided));
    BackMembers(provided, Used(order, ByKey(provided)));
  }

  lemma {:induction false} FirstAfter(pre: seq<Node>, rest: seq<Node>, p: string)
    requires forall i :: 0 <= i < |pre| ==> !IsProviderNode(pre[i], p)
    requires rest != [] && IsProviderNode(rest[0], p)
    ensures FirstProvider(pre + rest, p) == |pre|
  {
    hide IsProviderNode;
    if pre == [] {
      assert pre + rest == rest;
    } else {
      assert (pre + rest)[1..] == pre[1..] + rest;
      FirstAfter(pre[1..], rest, p);
    }
  }

  // When ordering is a permutation.

  /** The provider nodes whose keys the order names. */
  function Claimed(nodes: seq<Node>, used: set<string>): seq<Node> {
    if nodes == [] then []
    else
      var front, last := Claimed(nodes[..|nodes| - 1], used), nodes[|nodes| - 1];
      if Taken(last, used) then front + [last] else front
  }

  lemma {:induction false} ClaimedMembers(nodes: seq<Node>, used: set<string>)
    ensures forall n :: n in Claimed(nodes, used) <==> n in nodes && Taken(n, used)
    ensures multiset(Claimed(nodes, used)) + multiset(Back(nodes, used)) == multiset(nodes)
  {
    hide Taken;
    if nodes != [] {
      ClaimedMembers(nodes[..|nodes| - 1], used);
      assert nodes == nodes[..|nodes| - 1] + [nodes[|nodes| - 1]];
    }
  }

  lemma {:induction false} FrontKeys(order: seq<string>, m: map<string, Node>)
    requires NoRepeats(order)
    requires forall k :: k in m ==> k != "" && NodeMatchKey(m[k]) == k
    ensures NoRepeats(Keys(Front(order, m))) && "" !in Keys(Front(order, m))
    ensures NonBlank(Keys(Front(order, m))) == Used(order, m)
  {
    hide NodeMatchKey;
    if order == [] {
      assert Keys([]) == [];
    } else {
      var n := |order| - 1;
      assert order == order[..n] + [order[n]];
      NoRepeatsStep(order[..n], order[n]);
      FrontKeys(order[..n], m);
      var front := Front(order[..n], m);
      if order[n] in m {
        KeysAppend(front, [m[order[n]]]);
        SingleKey(m[order[n]]);
        NonBlankStep(Keys(front), order[n]);
        NoRepeatsStep(Keys(front), order[n]);
      }
    }
  }

  /** A list without repeated keys is, up to order, the set of its nodes. */
  lemma {:induction false} DistinctKeysAreASet(nodes: seq<Node>)
    requires NoRepeats(Keys(nodes)) && "" !in Keys(nodes)
    ensures multiset(nodes) == multiset(set n | n in nodes)
  {
    hide NodeMatchKey;
    if nodes == [] {
      assert (set n | n in nodes) == {};
    } else {
      var i := |nodes| - 1;
      var front, last := nodes[..i], nodes[i];
      KeysLast(nodes);
      assert Keys(nodes)[..i] == Keys(front);
      NoRepeatsStep(Keys(front), NodeMatchKey(last));
      DistinctKeysAreASet(front);
      assert nodes == front + [last];
      forall j | 0 <= j < i ensures front[j] != last {
        KeyAt(front, j);
        KeyAt(nodes, i);
        assert Keys(front)[j] in NonBlank(Keys(front));
      }
      assert (set n | n in nodes) == (set n | n in front) + {last};
    }
  }

  /** The ordered block holds the provider's nodes, each as often as before, exactly when no two
      of them share a key that the order names. */
  lemma BlockPermutesIff(provided: seq<Node>, order: seq<string>)
    requires NoRepeats(order)
    ensures multiset(OrderedProvider(provided, order)) == multiset(provided) <==>
            NoRepeats(Keys(Claimed(provided, Used(order, ByKey(provided)))))
  {
    hide NodeMatchKey, Taken, Keys, Front, Back, Claimed, NoRepeats, NonBlank;
    var m := ByKey(provided);
    var used := Used(order, m);
    var front, back, claimed := Front(order, m), Back(provided, used), Claimed(provided, used);
    Cancel(multiset(front), multiset(claimed), multiset(back));
    assert multiset(front + back) == multiset(front) + multiset(back);
    ClaimedMembers(provided, used);
    FrontKeys(order, m);
    ClaimedKeys(provided, order);
    CountDecidesRepeats(Keys(front));
    CountDecidesRepeats(Keys(claimed));
    KeysLengthIs(front);
    KeysLengthIs(claimed);
    DistinctKeysAreASet(front);
    if multiset(front) == multiset(claimed) {
      assert |front| == |multiset(front)| == |multiset(claimed)| == |claimed|;
    } else if NoRepeats(Keys(claimed)) {
      DistinctKeysAreASet(claimed);
      SameSet(provided, order);
    }
  }

  lemma Cancel(a: multiset<Node>, b: multiset<Node>, c: multiset<Node>)
    ensures a + c == b + c <==> a == b
  {
    if a + c == b + c {
      forall n ensures a[n] == b[n] {
        assert (a + c)[n] == (b + c)[n];
      }
    }
  }

  lemma KeysLengthIs(nodes: seq<Node>)
    ensures |Keys(nodes)| == |nodes|
  {
  }

  lemma ClaimedKeys(provided: seq<Node>, order: seq<string>)
    ensures var used := Used(order, ByKey(provided));
            NonBlank(Keys(Claimed(provided, used))) == used && "" !in Keys(Claimed(provided, used))
  {
    hide NodeMatchKey;
    var m := ByKey(provided);
    var used := Used(order, m);
    var claimed := Claimed(provided, used);
    ClaimedMembers(provided, used);
    forall k | k in Keys(claimed) ensures k in used && k != "" {
      var i :| 0 <= i < |Keys(claimed)| && Keys(claimed)[i] == k;
      KeyAt(claimed, i);
      assert claimed[i] in claimed;
    }
    forall k | k in used ensures k in Keys(claimed) {
      assert m[k] in claimed;
      var i :| 0 <= i < |claimed| && claimed[i] == m[k];
      KeyAt(claimed, i);
    }
  }

  lemma SameSet(provided: seq<Node>, order: seq<string>)
    requires NoRepeats(Keys(Claimed(provided, Used(order, ByKey(provided)))))
    ensures (set n | n in Front(order, ByKey(provided))) == (set n | n in Claimed(provided, Used(order, ByKey(provided))))
  {
    hide NodeMatchKey, Claimed, Front, ByKey, NoRepeats, Keys;
    var m := ByKey(provided);
    var used := Used(order, m);
    var claimed := Claimed(provided, used);
    FrontMembers(order, m);
    ClaimedMembers(provided, used);
    forall n | n in claimed ensures n == m[NodeMatchKey(n)] {
      OneHolder(claimed, n, m[NodeMatchKey(n)]);
    }
  }

  lemma OneHolder(nodes: seq<Node>, a: Node, b: Node)
    requires NoRepeats(Keys(nodes)) && a in nodes && b in nodes && NodeMatchKey(a) == NodeMatchKey(b) != ""
    ensures a == b
  {
    hide NodeMatchKey, Keys;
    var i :| 0 <= i < |nodes| && nodes[i] == a;
    var j :| 0 <= j < |nodes| && nodes[j] == b;
    KeyAt(nodes, i);
    KeyAt(nodes, j);
  }

  /** Reordering is a permutation of the whole list exactly when no two of the provider's nodes
      share a key that the order names; otherwise it loses the earlier of the two. */
  lemma ReorderPermutesIff(nodes: seq<Node>, p: string, order: seq<string>)
    requires p != "" && NoRepeats(order)
    ensures multiset(Reordered(nodes, p, order)) == multiset(nodes) <==>
            NoRepeats(Keys(Claimed(Provided(nodes, p), Used(order, ByKey(Provided(nodes, p))))))
  {
    hide IsProviderNode, NodeMatchKey, OrderedProvider, Keys, Claimed, Used, NoRepeats, Provided, Others;
    var provided, f := Provided(nodes, p), FirstProvider(nodes, p);
    BlockPermutesIff(provided, order);
    ProvidedMembers(nodes, p);
    if f == |nodes| {
      NoneProvided(nodes, p);
      NothingToOrder(order);
    } else {
      SplitAtFirst(nodes, p);
      var block, post := OrderedProvider(provided, order), Others(nodes[f..], p);
      var rest := multiset(nodes[..f] + post);
      assert multiset(nodes[..f] + block + post) == multiset(block) + rest;
      Cancel(multiset(block), multiset(provided), rest);
    }
  }

  /** Ordering never makes a node occur more often than it did. */
  lemma BlockWithin(provided: seq<Node>, order: seq<string>)
    requires NoRepeats(order)
    ensures multiset(OrderedProvider(provided, order)) <= multiset(provided)
  {
    hide NodeMatchKey, Taken, Keys, Front, Back, Claimed, NoRepeats, NonBlank, ByKey, Used;
    var m := ByKey(provided);
    var used := Used(order, m);
    var front, back, claimed := Front(order, m), Back(provided, used), Claimed(provided, used);
    ClaimedMembers(provided, used);
    FrontKeys(order, m);
    DistinctKeysAreASet(front);
    OrderedMembers(provided, order);
    forall n ensures multiset(front)[n] <= multiset(claimed)[n] {
      if n in front {
        FrontIsTaken(order, m, n);
        assert n in front + back;
        assert n in multiset(claimed);
      }
    }
    assert multiset(front + back) == multiset(front) + multiset(back);
  }

  lemma ReorderWithin(nodes: seq<Node>, p: string, order: seq<string>)
    requires NoRepeats(order)
    ensures multiset(Reordered(nodes, p, order)) <= multiset(nodes)
  {
    hide IsProviderNode, OrderedProvider, NoRepeats, Provided, Others, FirstProvider;
    var provided, f := Provided(nodes, p), FirstProvider(nodes, p);
    BlockWithin(provided, order);
    ProvidedMembers(nodes, p);
    if p != "" && f < |nodes| {
      SplitAtFirst(nodes, p);
      var block, post := OrderedProvider(provided, order), Others(nodes[f..], p);
      assert multiset(nodes[..f] + block + post) == multiset(block) + multiset(nodes[..f] + post);
    }
  }

  /** A node stays unless the order names its key. */
  lemma UnnamedStays(nodes: seq<Node>, p: string, order: seq<string>, n: Node)
    requires p != "" && n in nodes && (NodeMatchKey(n) == "" || NodeMatchKey(n) !in order)
    ensures n in Reordered(nodes, p, order)
  {
    hide NodeMatchKey, IsProviderNode, Reordered, Back, Front, ByKey, Provided, Others;
    var r := Reordered(nodes, p, order);
    ReorderIsIdempotent(nodes, p, order);
    ProvidedMembers(nodes, p);
    ProvidedMembers(r, p);
    if IsProviderNode(n, p) {
      BackMembers(Provided(nodes, p), Used(order, ByKey(Provided(nodes, p))));
      assert n in OrderedProvider(Provided(nodes, p), order);
    }
  }

  /** Of the provider's nodes under a key that the order names, the last one stays. */
  lemma LastStays(nodes: seq<Node>, p: string, order: seq<string>, k: string)
    requires p != "" && k in order && k in ByKey(Provided(nodes, p))
    ensures ByKey(Provided(nodes, p))[k] in Reordered(nodes, p, order)
  {
    hide NodeMatchKey, IsProviderNode, Reordered, Back, Front, ByKey, Provided, Others;
    var m := ByKey(Provided(nodes, p));
    FrontMembers(order, m);
    ReorderIsIdempotent(nodes, p, order);
    ProvidedMembers(Reordered(nodes, p, order), p);
    assert m[k] in OrderedProvider(Provided(nodes, p), order);
  }

  // The loops.

  method OrderedNodeMatchKeys(nodes: seq<Node>) returns (keys: seq<string>)
    ensures keys == Distinct(Keys(nodes))
  {
    hide NodeMatchKey;
    keys := [];
    var seen: set<string> := {};
    for i := 0 to |nodes|
      invariant keys == Distinct(Keys(nodes[..i]))
      invariant seen == set k | k in keys
    {
      KeysLast(nodes[..i + 1]);
      assert nodes[..i + 1][..i] == nodes[..i];
      var key := NodeMatchKey(nodes[i]);
      assert Keys(nodes[..i + 1])[..i] == Keys(nodes[..i]);
      if key == "" || key in seen {
        continue;
      }
      seen := seen + {key};
      keys := keys + [key];
    }
    assert nodes[..|nodes|] == nodes;
  }

  lemma OthersStep(nodes: seq<Node>, f: nat, i: nat, p: string)
    requires f <= i < |nodes|
    ensures Others(nodes[f..i + 1], p) == if IsProviderNode(nodes[i], p) then Others(nodes[f..i], p) else Others(nodes[f..i], p) + [nodes[i]]
  {
    hide IsProviderNode;
    assert nodes[f..i + 1][..i - f] == nodes[f..i];
  }

  lemma NoOthers(nodes: seq<Node>, f: nat, p: string)
    requires f <= |nodes|
    ensures Others(nodes[f..f], p) == [] && nodes[f..|nodes|] == nodes[f..]
  {
  }

  method ReplaceProviderNodes(nodes: seq<Node>, p: string, block: seq<Node>) returns (result: seq<Node>)
    ensures result == Replaced(nodes, p, block)
  {
    hide IsProviderNode, Others;
    result := [];
    var inserted := false;
    var f := FirstProvider(nodes, p);
    NoOthers(nodes, f, p);
    for i := 0 to |nodes|
      invariant inserted == (f < i)
      invariant result == if f < i then nodes[..f] + block + Others(nodes[f..i], p) else nodes[..i]
    {
      var node := nodes[i];
      if f <= i { OthersStep(nodes, f, i, p); }
      if IsProviderNode(node, p) {
        if !inserted {
          result := result + block;
          inserted := true;
        }
        continue;
      }
      result := result + [node];
    }
  }

  method IndexProviderNodes(nodes: seq<Node>, p: string) returns (byKey: map<string, Node>, any: bool)
    ensures byKey == ByKey(Provided(nodes, p)) && any == (Provided(nodes, p) != [])
  {
    hide IsProviderNode, NodeMatchKey, ByKey, Provided;
    byKey, any := map[], false;
    NothingProvided(p);
    for i := 0 to |nodes|
      invariant byKey == ByKey(Provided(nodes[..i], p))
      invariant any == (Provided(nodes[..i], p) != [])
    {
      ProvidedStep(nodes, i, p);
      var node := nodes[i];
      if !IsProviderNode(node, p) {
        continue;
      }
      any := true;
      ByKeyStep(Provided(nodes[..i], p), node);
      var key := NodeMatchKey(node);
      if key != "" {
        byKey := byKey[key := node];
      }
    }
    assert nodes[..|nodes|] == nodes;
  }

  method TakeOrdered(order: seq<string>, byKey: map<string, Node>) returns (ordered: seq<Node>, used: set<string>)
    ensures ordered == Front(order, byKey) && used == Used(order, byKey)
  {
    ordered, used := [], {};
    for i := 0 to |order|
      invariant ordered == Front(order[..i], byKey)
      invariant used == Used(order[..i], byKey)
    {
      assert order[..i + 1] == order[..i] + [order[i]];
      var key := order[i];
      if key !in byKey {
        continue;
      }
      ordered := ordered + [byKey[key]];
      used := used + {key};
    }
    assert order[..|order|] == order;
  }

  method ReorderProviderNodes(nodes: seq<Node>, p: string, order: seq<string>) returns (result: seq<Node>)
    ensures result == Reordered(nodes, p, order)
  {
    hide IsProviderNode, NodeMatchKey, FirstProvider, Others, ByKey, Provided, Front, Used, Taken;
    if p == "" {
      return nodes;
    }
    var providerByKey, hasProviderNodes := IndexProviderNodes(nodes, p);
    if !hasProviderNodes {
      NoProviderMeansNoFirst(nodes, p);
      return nodes;
    }
    var ordered, used := TakeOrdered(order, providerByKey);
    ghost var front := ordered;
    NothingProvided(p);
    for i := 0 to |nodes|
      invariant ordered == front + Back(Provided(nodes[..i], p), used)
    {
      ProvidedStep(nodes, i, p);
      var node := nodes[i];
      if !IsProviderNode(node, p) {
        continue;
      }
      if Taken(node, used) {
        continue;
      }
      ordered := ordered + [node];
    }
    assert nodes[..|nodes|] == nodes;
    result := ReplaceProviderNodes(nodes, p, ordered);
  }

  lemma NothingProvided(p: string)
    ensures Provided([], p) == [] && ByKey([]) == map[]
  {
  }

  lemma ByKeyStep(nodes: seq<Node>, node: Node)
    ensures ByKey(nodes + [node]) == if NodeMatchKey(node) == "" then ByKey(nodes) else ByKey(nodes)[NodeMatchKey(node) := node]
  {
    hide NodeMatchKey;
    assert (nodes + [node])[..|nodes|] == nodes;
  }

  lemma ProvidedStep(nodes: seq<Node>, i: nat, p: string)
    requires i < |nodes|
    ensures Provided(nodes[..i + 1], p) ==
            if IsProviderNode(nodes[i], p) then Provided(nodes[..i], p) + [nodes[i]] else Provided(nodes[..i], p)
    ensures IsProviderNode(nodes[i], p) ==> Provided(nodes[..i + 1], p)[..|Provided(nodes[..i], p)|] == Provided(nodes[..i], p)
  {
    hide IsProviderNode;
    assert nodes[..i + 1][..i] == nodes[..i];
  }

  lemma NoProviderMeansNoFirst(nodes: seq<Node>, p: string)
    requires Provided(nodes, p) == []
    ensures FirstProvider(nodes, p) == |nodes|
  {
    hide IsProviderNode;
    if FirstProvider(nodes, p) < |nodes| { SplitAtFirst(nodes, p); }
  }
}
