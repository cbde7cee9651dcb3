/** What a merge keeps, for lists of any length. */
module NodeMergeFacts {
  import opened Text
  import opened ProfileModel
  import opened FreshIds
  import opened NodeMerge

  lemma KeysUpdate(nodes: seq<Node>, i: nat, node: Node)
    requires i < |nodes|
    ensures Keys(nodes[i := node]) == Keys(nodes)[i := NodeMatchKey(node)]
    ensures TrimmedIds(nodes[i := node]) == TrimmedIds(nodes)[i := Trim(node.id)]
  {
    hide NodeMatchKey, Trim;
  }

  lemma KeysAppend(nodes: seq<Node>, more: seq<Node>)
    ensures Keys(nodes + more) == Keys(nodes) + Keys(more)
    ensures TrimmedIds(nodes + more) == TrimmedIds(nodes) + TrimmedIds(more)
  {
    hide NodeMatchKey, Trim;
  }

  // Identity: IDs stay apart.

  lemma AbsorbKeepsIdsApart(index: map<string, nat>, p: Progress, node: Node)
    requires Within(index, |p.nodes|) && p.used == UsedIds(p.nodes)
    ensures Absorb(index, p, node).used == UsedIds(Absorb(index, p, node).nodes)
    ensures NoRepeats(TrimmedIds(Absorb(index, p, node).nodes)) <==> NoRepeats(TrimmedIds(p.nodes))
  {
    hide NodeMatchKey, FirstNonEmpty, ImportedId, UsedIds, TrimmedIds, Trim;
    var key := NodeMatchKey(node);
    if key != "" && key !in p.seen {
      if key in index {
        SameIds(p.nodes, index[key], Updated(p.nodes[index[key]], node));
      } else {
        ImportedIdFresh(node, p.used);
        UsedIdsStep(p.nodes, node.(id := ImportedId(node, p.used)));
      }
    }
  }

  lemma SameIds(nodes: seq<Node>, i: nat, node: Node)
    requires i < |nodes| && node.id == nodes[i].id
    ensures TrimmedIds(nodes[i := node]) == TrimmedIds(nodes) && UsedIds(nodes[i := node]) == UsedIds(nodes)
  {
    hide Trim;
    KeysUpdate(nodes, i, node);
    assert TrimmedIds(nodes)[i := Trim(node.id)] == TrimmedIds(nodes);
  }

  lemma ImportedIdFresh(node: Node, used: set<string>)
    ensures ImportedId(node, used) !in used && ImportedId(node, used) != ""
    ensures Trim(ImportedId(node, used)) == ImportedId(node, used)
  {
    ImportedIdTrimmed(node, used);
    TrimFixed(ImportedId(node, used));
  }

  lemma {:induction false} AbsorbAllKeepsIdsApart(index: map<string, nat>, p: Progress, incoming: seq<Node>)
    requires Within(index, |p.nodes|) && p.used == UsedIds(p.nodes)
    ensures AbsorbAll(index, p, incoming).used == UsedIds(AbsorbAll(index, p, incoming).nodes)
    ensures NoRepeats(TrimmedIds(AbsorbAll(index, p, incoming).nodes)) <==> NoRepeats(TrimmedIds(p.nodes))
  {
    hide Absorb, UsedIds, NoRepeats, TrimmedIds;
    if incoming != [] {
      AbsorbAllKeepsIdsApart(index, p, incoming[..|incoming| - 1]);
      AbsorbKeepsIdsApart(index, AbsorbAll(index, p, incoming[..|incoming| - 1]), incoming[|incoming| - 1]);
    }
  }

  /** A merge never makes two nodes share an ID: the merged list is free of shared IDs exactly
      when the stored list was, however many nodes come in and whatever IDs they ask for. */
  lemma MergeKeepsIdsApart(nodes: seq<Node>, incoming: seq<Node>)
    ensures NoRepeats(TrimmedIds(Absorbed(nodes, incoming).nodes)) <==> NoRepeats(TrimmedIds(nodes))
  {
    hide NoRepeats, TrimmedIds, UsedIds, AbsorbAll, Keys;
    KeysLength(nodes);
    AbsorbAllKeepsIdsApart(KeyIndex(Keys(nodes)), Start(nodes), incoming);
  }

  // Conservation: nothing is lost and nothing is counted twice.

  ghost predicate Balanced(size: nat, seen: set<string>, p: Progress) {
    |p.nodes| == size + p.stats.added && p.seen == seen && p.stats.stale == 0
    && |p.seen| == p.stats.added + p.stats.updated + p.stats.same
  }

  lemma AbsorbBalanced(index: map<string, nat>, size: nat, seen: set<string>, p: Progress, node: Node)
    requires Within(index, |p.nodes|) && Balanced(size, seen, p)
    ensures Balanced(size, seen + NonBlank([NodeMatchKey(node)]), Absorb(index, p, node))
  {
    hide NodeMatchKey, Updated, ImportedId;
    assert [NodeMatchKey(node)][0] == NodeMatchKey(node);
    assert NonBlank([NodeMatchKey(node)]) == if NodeMatchKey(node) == "" then {} else {NodeMatchKey(node)};
    assert NodeMatchKey(node) == "" || NodeMatchKey(node) in p.seen ==>
        seen + NonBlank([NodeMatchKey(node)]) == seen;
  }

  lemma {:induction false} AbsorbAllBalanced(index: map<string, nat>, nodes: seq<Node>, incoming: seq<Node>)
    requires Within(index, |nodes|)
    ensures Balanced(|nodes|, NonBlank(Keys(incoming)), AbsorbAll(index, Start(nodes), incoming))
  {
    hide NodeMatchKey, UsedIds, Absorb, Keys;
    KeysLast(incoming);
    if incoming != [] {
      var n := |incoming| - 1;
      AbsorbAllBalanced(index, nodes, incoming[..n]);
      AbsorbBalanced(index, |nodes|, NonBlank(Keys(incoming[..n])), AbsorbAll(index, Start(nodes), incoming[..n]), incoming[n]);
      assert NonBlank(Keys(incoming)) == NonBlank(Keys(incoming[..n])) + NonBlank([NodeMatchKey(incoming[n])]);
    }
  }

  /** Every distinct key that comes in is counted once, as added, updated or unchanged, and the
      list grows by exactly the nodes counted as added. */
  lemma MergeConserves(nodes: seq<Node>, incoming: seq<Node>)
    ensures var r := Absorbed(nodes, incoming);
            |r.nodes| == |nodes| + r.stats.added
            && r.stats.added + r.stats.updated + r.stats.same == |NonBlank(Keys(incoming))|
  {
    hide Keys, NonBlank, AbsorbAll;
    KeysLength(nodes);
    AbsorbAllBalanced(KeyIndex(Keys(nodes)), nodes, incoming);
  }

  // Content: a merge of linked subscription nodes settles every key it is given.

  ghost predicate LinkedSubscriptionNode(node: Node) {
    node.source.kind == SUBSCRIPTION && Linked(node)
  }

  ghost predicate AllLinked(incoming: seq<Node>) {
    forall i :: 0 <= i < |incoming| ==> LinkedSubscriptionNode(incoming[i])
  }

  ghost predicate Tidy(incoming: seq<Node>) {
    forall i :: 0 <= i < |incoming| ==> Trimmed(incoming[i].name) && Trimmed(incoming[i].group)
  }

  /** The first node that came in under the key: the one that a merge uses. */
  function First(incoming: seq<Node>, key: string): Node
    requires key in Keys(incoming)
  {
    var n := |incoming| - 1;
    KeysLast(incoming);
    if key in Keys(incoming[..n]) then First(incoming[..n], key) else incoming[n]
  }

  lemma KeysLast(nodes: seq<Node>)
    ensures nodes == [] ==> Keys(nodes) == []
    ensures nodes != [] ==> Keys(nodes) == Keys(nodes[..|nodes| - 1]) + [NodeMatchKey(nodes[|nodes| - 1])]
  {
    hide NodeMatchKey;
  }

  lemma {:induction false} FirstHasKey(incoming: seq<Node>, key: string)
    requires key in Keys(incoming)
    ensures First(incoming, key) in incoming && NodeMatchKey(First(incoming, key)) == key
  {
    hide NodeMatchKey, Keys;
    KeysLast(incoming);
    if key in Keys(incoming[..|incoming| - 1]) { FirstHasKey(incoming[..|incoming| - 1], key); }
  }

  lemma FirstStep(incoming: seq<Node>, node: Node, key: string)
    requires key in Keys(incoming + [node])
    ensures key in Keys(incoming) ==> First(incoming + [node], key) == First(incoming, key)
    ensures key !in Keys(incoming) ==> First(incoming + [node], key) == node && key == NodeMatchKey(node)
  {
    hide NodeMatchKey;
    assert (incoming + [node])[..|incoming|] == incoming;
    KeysAppend(incoming, [node]);
  }

  /** The node carries what came in, and merging the same node again changes nothing. */
  ghost predicate Reflects(node: Node, incoming: Node) {
    Updated(node, incoming) == node
  }

  lemma UpdateReflects(existing: Node, node: Node)
    ensures Reflects(Updated(existing, node), node)
  {
    RepeatFirstNonEmpty(existing.name, node.name);
    RepeatFirstNonEmpty(existing.group, node.group);
  }

  lemma RepeatFirstNonEmpty(a: string, b: string)
    ensures FirstNonEmpty([FirstNonEmpty([a, b]), b]) == FirstNonEmpty([a, b])
    ensures Trimmed(b) ==> FirstNonEmpty([b, b]) == b
  {
    hide Trim;
    TwoNames(a, b);
    TwoNames(b, b);
    TwoNames(FirstNonEmpty([a, b]), b);
    TrimFixed(FirstNonEmpty([a, b]));
    if Trimmed(b) { TrimFixed(b); }
  }

  lemma SingleKey(node: Node)
    ensures Keys([node]) == [NodeMatchKey(node)]
  {
    hide NodeMatchKey;
  }

  lemma KeyAt(nodes: seq<Node>, i: nat)
    requires i < |nodes|
    ensures |Keys(nodes)| == |nodes| && Keys(nodes)[i] == NodeMatchKey(nodes[i])
  {
    hide NodeMatchKey;
  }

  lemma UpdatedKey(existing: Node, node: Node)
    requires LinkedSubscriptionNode(node)
    ensures NodeMatchKey(Updated(existing, node)) == NodeMatchKey(node)
  {
    hide NodeMatchKey, FirstNonEmpty;
    LinkedKey(node);
    LinkedKey(Updated(existing, node));
  }

  lemma AddedKey(node: Node, id: string)
    requires LinkedSubscriptionNode(node)
    ensures NodeMatchKey(node.(id := id)) == NodeMatchKey(node)
    ensures Trimmed(node.name) && Trimmed(node.group) ==> Reflects(node.(id := id), node)
  {
    hide NodeMatchKey, FirstNonEmpty, Trimmed;
    LinkedKey(node);
    LinkedKey(node.(id := id));
    RepeatFirstNonEmpty(node.name, node.name);
    RepeatFirstNonEmpty(node.group, node.group);
  }

  // The exact result of a merge.

  /** The keys that come in and are not stored, in the order of their first coming. */
  function Fresh(stored: seq<Node>, incoming: seq<Node>): seq<string> {
    if incoming == [] then []
    else
      var front, key := incoming[..|incoming| - 1], NodeMatchKey(incoming[|incoming| - 1]);
      if key == "" || key in NonBlank(Keys(front)) || key in NonBlank(Keys(stored)) then Fresh(stored, front)
      else Fresh(stored, front) + [key]
  }

  /** Stored node i is the last under a key that comes in. */
  predicate Hit(stored: seq<Node>, i: nat, incoming: seq<Node>)
    requires i < |stored|
  {
    var key, index := NodeMatchKey(stored[i]), KeyIndex(Keys(stored));
    key in NonBlank(Keys(incoming)) && key in index && index[key] == i
  }

  ghost predicate StoredShape(node: Node, stored: seq<Node>, i: nat, incoming: seq<Node>)
    requires i < |stored|
  {
    node == if Hit(stored, i, incoming) then Updated(stored[i], First(incoming, NodeMatchKey(stored[i]))) else stored[i]
  }

  ghost predicate FreshShape(node: Node, key: string, incoming: seq<Node>) {
    key in Keys(incoming) && node == First(incoming, key).(id := node.id)
  }

  ghost predicate Shape(nodes: seq<Node>, stored: seq<Node>, incoming: seq<Node>) {
    var added := Fresh(stored, incoming);
    |nodes| == |stored| + |added|
    && (forall i :: 0 <= i < |stored| ==> StoredShape(nodes[i], stored, i, incoming))
    && (forall j :: 0 <= j < |added| ==> FreshShape(nodes[|stored| + j], added[j], incoming))
  }

  lemma {:induction false} FreshFacts(stored: seq<Node>, incoming: seq<Node>)
    ensures NoRepeats(Fresh(stored, incoming)) && "" !in Fresh(stored, incoming)
    ensures forall k :: k in Fresh(stored, incoming) <==> k in NonBlank(Keys(incoming)) && k !in NonBlank(Keys(stored))
  {
    hide NodeMatchKey, Keys, NonBlank, NoRepeats;
    if incoming == [] {
      NoKeysIn();
    } else {
      var front, key := incoming[..|incoming| - 1], NodeMatchKey(incoming[|incoming| - 1]);
      FreshFacts(stored, front);
      KeysLast(incoming);
      NonBlankStep(Keys(front), key);
      NoRepeatsStep(Fresh(stored, front), key);
      NonBlankIsIn(Fresh(stored, front), key);
    }
  }

  lemma NoKeysIn()
    ensures NonBlank(Keys([])) == {} && NoRepeats([])
  {
  }

  lemma NonBlankIsIn(s: seq<string>, x: string)
    ensures x in NonBlank(s) <==> x in s && x != ""
  {
  }

  lemma FreshStep(stored: seq<Node>, incoming: seq<Node>, node: Node)
    ensures var key := NodeMatchKey(node);
            Fresh(stored, incoming + [node]) ==
            if key == "" || key in NonBlank(Keys(incoming)) || key in NonBlank(Keys(stored)) then Fresh(stored, incoming)
            else Fresh(stored, incoming) + [key]
  {
    hide NodeMatchKey;
    assert (incoming + [node])[..|incoming|] == incoming;
  }

  lemma SeenStep(incoming: seq<Node>, node: Node)
    ensures NonBlank(Keys(incoming + [node])) == NonBlank(Keys(incoming)) + (if NodeMatchKey(node) == "" then {} else {NodeMatchKey(node)})
  {
    hide NodeMatchKey, NonBlank;
    KeysAppend(incoming, [node]);
    SingleKey(node);
    NonBlankStep(Keys(incoming), NodeMatchKey(node));
  }

  /** A node that comes in leaves the shape of what earlier ones have settled. */
  lemma ShapeKept(stored: seq<Node>, incoming: seq<Node>, node: Node, settled: Node, i: nat)
    requires i < |stored| && StoredShape(settled, stored, i, incoming)
    requires NodeMatchKey(stored[i]) != NodeMatchKey(node) || NodeMatchKey(node) in NonBlank(Keys(incoming)) || !Hit(stored, i, incoming + [node])
    ensures StoredShape(settled, stored, i, incoming + [node])
  {
    hide NodeMatchKey, KeyIndex, Keys, First, Updated;
    SeenStep(incoming, node);
    var key := NodeMatchKey(stored[i]);
    NonBlankIsIn(Keys(incoming), key);
    NonBlankIsIn(Keys(incoming + [node]), key);
    if Hit(stored, i, incoming) { FirstStep(incoming, node, key); }
  }

  lemma FreshKept(incoming: seq<Node>, node: Node, settled: Node, key: string)
    requires FreshShape(settled, key, incoming)
    ensures FreshShape(settled, key, incoming + [node])
  {
    hide NodeMatchKey, First;
    KeysAppend(incoming, [node]);
    FirstStep(incoming, node, key);
  }

  lemma NewlyFirst(incoming: seq<Node>, node: Node)
    requires NodeMatchKey(node) != "" && NodeMatchKey(node) !in NonBlank(Keys(incoming))
    ensures NodeMatchKey(node) in Keys(incoming + [node]) && First(incoming + [node], NodeMatchKey(node)) == node
  {
    hide NodeMatchKey, First;
    KeysAppend(incoming, [node]);
    SingleKey(node);
    FirstStep(incoming, node, NodeMatchKey(node));
  }

  lemma ShapeStep(index: map<string, nat>, p: Progress, stored: seq<Node>, incoming: seq<Node>, node: Node)
    requires index == KeyIndex(Keys(stored)) && Within(index, |p.nodes|) && p.seen == NonBlank(Keys(incoming))
    requires Shape(p.nodes, stored, incoming)
    ensures Shape(Absorb(index, p, node).nodes, stored, incoming + [node])
  {
    hide NodeMatchKey, Updated, ImportedId, Keys, First, KeyIndex, StoredShape, FreshShape, NonBlank, Fresh, Hit;
    var key, more, r, added := NodeMatchKey(node), incoming + [node], Absorb(index, p, node), Fresh(stored, incoming);
    KeysLength(stored);
    FreshStep(stored, incoming, node);
    var at := if key == "" || key in p.seen then |r.nodes| else if key in index then index[key] else |p.nodes|;
    if at < |r.nodes| { NewlyFirst(incoming, node); }
    forall i | 0 <= i < |stored| ensures StoredShape(r.nodes[i], stored, i, more) {
      assert StoredShape(p.nodes[i], stored, i, incoming);
      if i == at {
        HitNow(stored, incoming, node, p.nodes[i], i);
      } else {
        NotHitNow(stored, incoming, node, i, at, index);
        ShapeKept(stored, incoming, node, p.nodes[i], i);
      }
    }
    forall j | 0 <= j < |Fresh(stored, more)| ensures FreshShape(r.nodes[|stored| + j], Fresh(stored, more)[j], more) {
      if j < |added| {
        assert FreshShape(p.nodes[|stored| + j], added[j], incoming);
        FreshUntouched(stored, index, at, |stored| + j, |p.nodes|, key);
        FreshKept(incoming, node, p.nodes[|stored| + j], added[j]);
      } else {
        NewIsFresh(more, node, ImportedId(node, p.used));
      }
    }
  }

  lemma NewIsFresh(more: seq<Node>, node: Node, id: string)
    requires NodeMatchKey(node) in Keys(more) && First(more, NodeMatchKey(node)) == node
    ensures FreshShape(node.(id := id), NodeMatchKey(node), more)
  {
    hide NodeMatchKey, First, Keys;
  }

  lemma FreshUntouched(stored: seq<Node>, index: map<string, nat>, at: nat, i: nat, n: nat, key: string)
    requires index == KeyIndex(Keys(stored)) && |stored| <= i < n
    ensures key in index ==> index[key] != i
  {
    hide NodeMatchKey;
    KeysLength(stored);
  }

  lemma HitNow(stored: seq<Node>, incoming: seq<Node>, node: Node, settled: Node, i: nat)
    requires i < |stored| && StoredShape(settled, stored, i, incoming)
    requires NodeMatchKey(node) != "" && NodeMatchKey(node) !in NonBlank(Keys(incoming))
    requires NodeMatchKey(node) in KeyIndex(Keys(stored)) && KeyIndex(Keys(stored))[NodeMatchKey(node)] == i
    ensures StoredShape(Updated(settled, node), stored, i, incoming + [node])
  {
    hide NodeMatchKey, KeyIndex, First, Updated, Keys;
    KeyAt(stored, i);
    SeenStep(incoming, node);
    NewlyFirst(incoming, node);
  }

  lemma NotHitNow(stored: seq<Node>, incoming: seq<Node>, node: Node, i: nat, at: nat, index: map<string, nat>)
    requires index == KeyIndex(Keys(stored)) && i < |stored| && i != at
    requires NodeMatchKey(node) != "" && NodeMatchKey(node) !in NonBlank(Keys(incoming)) && NodeMatchKey(node) in index ==> at == index[NodeMatchKey(node)]
    ensures NodeMatchKey(stored[i]) != NodeMatchKey(node) || NodeMatchKey(node) in NonBlank(Keys(incoming)) || !Hit(stored, i, incoming + [node])
  {
    hide NodeMatchKey, KeyIndex, Keys, First, Updated;
    SeenStep(incoming, node);
  }

  /** What a merge makes of any two lists: the last stored node under each key that comes in carries
      the first node that came in under it, every other stored node is untouched, and the keys that
      were not stored follow in the order of their first coming, each as it came but for its ID. */
  lemma {:induction false} MergeShape(stored: seq<Node>, incoming: seq<Node>)
    ensures Shape(Absorbed(stored, incoming).nodes, stored, incoming)
  {
    hide NodeMatchKey, Absorb, KeyIndex, Keys, NonBlank, Shape;
    KeysLength(stored);
    var index := KeyIndex(Keys(stored));
    if incoming == [] {
      NothingShapes(stored);
    } else {
      var n := |incoming| - 1;
      MergeShape(stored, incoming[..n]);
      AbsorbAllBalanced(index, stored, incoming[..n]);
      assert incoming == incoming[..n] + [incoming[n]];
      ShapeStep(index, Absorbed(stored, incoming[..n]), stored, incoming[..n], incoming[n]);
    }
  }

  lemma NothingShapes(stored: seq<Node>)
    ensures Shape(stored, stored, [])
  {
    hide NodeMatchKey;
  }

  /** Linked nodes bring their own keys: stored keys stay where they were, and the new ones follow. */
  lemma LinkedKeys(stored: seq<Node>, incoming: seq<Node>)
    requires AllLinked(incoming)
    ensures Keys(Absorbed(stored, incoming).nodes) == Keys(stored) + Fresh(stored, incoming)
  {
    hide NodeMatchKey, Absorbed, Fresh, Hit, Updated, KeyIndex, First, LinkedSubscriptionNode, NonBlank;
    var nodes, added := Absorbed(stored, incoming).nodes, Fresh(stored, incoming);
    MergeShape(stored, incoming);
    KeysLength(stored);
    KeysLength(nodes);
    forall i | 0 <= i < |nodes| ensures Keys(nodes)[i] == (Keys(stored) + added)[i] {
      KeyAt(nodes, i);
      if i < |stored| {
        KeyAt(stored, i);
        assert StoredShape(nodes[i], stored, i, incoming);
        StoredKeepsKey(nodes[i], stored, i, incoming);
      } else {
        assert FreshShape(nodes[|stored| + (i - |stored|)], added[i - |stored|], incoming);
        FreshHasKey(nodes[i], added[i - |stored|], incoming);
      }
    }
  }

  lemma StoredKeepsKey(node: Node, stored: seq<Node>, i: nat, incoming: seq<Node>)
    requires AllLinked(incoming) && i < |stored| && StoredShape(node, stored, i, incoming)
    ensures NodeMatchKey(node) == NodeMatchKey(stored[i])
  {
    hide NodeMatchKey, Updated, KeyIndex, First, Keys, LinkedSubscriptionNode;
    if Hit(stored, i, incoming) {
      var key := NodeMatchKey(stored[i]);
      FirstHasKey(incoming, key);
      UpdatedKey(stored[i], First(incoming, key));
    }
  }

  lemma FreshHasKey(node: Node, key: string, incoming: seq<Node>)
    requires AllLinked(incoming) && FreshShape(node, key, incoming)
    ensures NodeMatchKey(node) == key
  {
    hide NodeMatchKey, First, Keys, LinkedSubscriptionNode;
    FirstHasKey(incoming, key);
    AddedKey(First(incoming, key), node.id);
  }

  /** The keys after a merge of linked nodes are those stored and those that came in, and they are
      distinct if the stored ones were. */
  lemma ApartKeys(stored: seq<Node>, incoming: seq<Node>)
    requires AllLinked(incoming)
    ensures var nodes := Absorbed(stored, incoming).nodes;
            NonBlank(Keys(nodes)) == NonBlank(Keys(stored)) + NonBlank(Keys(incoming))
            && (NoRepeats(Keys(stored)) ==> NoRepeats(Keys(nodes)))
  {
    hide NodeMatchKey, Absorbed, Keys, Fresh, LinkedSubscriptionNode;
    LinkedKeys(stored, incoming);
    FreshFacts(stored, incoming);
    JoinedApart(Keys(stored), Fresh(stored, incoming));
  }

  lemma JoinedApart(a: seq<string>, b: seq<string>)
    ensures NonBlank(a + b) == NonBlank(a) + NonBlank(b)
    ensures NoRepeats(a) && NoRepeats(b) && (forall k :: k in b ==> k !in a) ==> NoRepeats(a + b)
  {
    forall i, j | 0 <= i < j < |a + b| && (a + b)[i] != "" && NoRepeats(a) && NoRepeats(b) && (forall k :: k in b ==> k !in a)
      ensures (a + b)[i] != (a + b)[j]
    {
      if i < |a| <= j { assert b[j - |a|] in b && a[i] in a; }
    }
  }
}
