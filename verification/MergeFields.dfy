/** What every place of a merged and of a refreshed list holds, field by field. */
module MergeFields {
  import opened Text
  import opened ProfileModel
  import opened FreshIds
  import opened NodeMerge
  import opened NodeMergeFacts
  import opened ProviderOrder
  import opened RefreshFacts
  import opened RefreshAgain

  /** The stored node keeps its identity, its age and what the user named it, and takes the rest from the feed. */
  ghost predicate TakesIn(after: Node, stored: Node, fed: Node) {
    && after.id == stored.id && after.createdAt == stored.createdAt
    && after.name == (if Trim(stored.name) != "" then Trim(stored.name) else Trim(fed.name))
    && after.group == (if Trim(stored.group) != "" then Trim(stored.group) else Trim(fed.group))
    && after.protocol == fed.protocol && after.server == fed.server && after.port == fed.port && after.link == fed.link
    && after.outbound == fed.outbound && after.ownerPackage == fed.ownerPackage && after.stale == fed.stale
    && after.source == fed.source && after.extra == fed.extra
  }

  /** Nobody before n comes in under its key, which is not blank. */
  ghost predicate Foremost(incoming: seq<Node>, n: nat) {
    n < |incoming| && NodeMatchKey(incoming[n]) != "" && forall j :: 0 <= j < n ==> NodeMatchKey(incoming[j]) != NodeMatchKey(incoming[n])
  }

  /** No stored node behind i has its key. */
  ghost predicate Hindmost(stored: seq<Node>, i: nat) {
    i < |stored| && forall j :: i < j < |stored| ==> NodeMatchKey(stored[j]) != NodeMatchKey(stored[i])
  }

  lemma ForemostIsFirst(incoming: seq<Node>, n: nat)
    requires Foremost(incoming, n)
    ensures NodeMatchKey(incoming[n]) in Keys(incoming) && First(incoming, NodeMatchKey(incoming[n])) == incoming[n]
    ensures NodeMatchKey(incoming[n]) in NonBlank(Keys(incoming)) && NodeMatchKey(incoming[n]) !in NonBlank(Keys(incoming[..n]))
  {
    hide NodeMatchKey, First;
    var key := NodeMatchKey(incoming[n]);
    forall j | 0 <= j < n ensures Keys(incoming[..n])[j] != key {
    }
    FirstIs(incoming, n);
    NonBlankIsIn(Keys(incoming), key);
    NonBlankIsIn(Keys(incoming[..n]), key);
  }

  lemma HindmostIsIndexed(stored: seq<Node>, i: nat)
    requires i < |stored| && NodeMatchKey(stored[i]) != ""
    ensures NodeMatchKey(stored[i]) in KeyIndex(Keys(stored))
    ensures Hindmost(stored, i) <==> KeyIndex(Keys(stored))[NodeMatchKey(stored[i])] == i
  {
    hide NodeMatchKey;
    KeysLength(stored);
    KeyAt(stored, i);
    NonBlankIsIn(Keys(stored), NodeMatchKey(stored[i]));
    var t := LastIndex(Keys(stored), i);
    KeyAt(stored, t);
    if t == i { LastHasNoLater(Keys(stored), i); }
    forall j | 0 <= j < |stored| ensures Keys(stored)[j] == NodeMatchKey(stored[j]) {
      KeyAt(stored, j);
    }
  }

  lemma {:induction false} LastHasNoLater(keys: seq<string>, t: nat)
    requires t < |keys| && keys[t] != "" && keys[t] in KeyIndex(keys) && KeyIndex(keys)[keys[t]] == t
    ensures forall j :: t < j < |keys| ==> keys[j] != keys[t]
  {
    hide NonBlank;
    var n := |keys| - 1;
    if t < n {
      var front := keys[..n];
      assert front[t] == keys[t] && keys[n] != keys[t];
      NonBlankIsIn(front, keys[t]);
      LastHasNoLater(front, t);
      forall j | t < j < |keys| ensures keys[j] != keys[t] {
        assert j < n ==> front[j] == keys[j];
      }
    }
  }

  lemma UpdatedTakesIn(stored: Node, fed: Node)
    ensures TakesIn(Updated(stored, fed), stored, fed)
  {
    hide Trim, FirstNonEmpty;
    TwoNames(stored.name, fed.name);
    TwoNames(stored.group, fed.group);
  }

  /** The last stored node under a key takes in the first node that comes in under it. */
  lemma MatchedPlace(stored: seq<Node>, incoming: seq<Node>, i: nat, n: nat)
    requires Hindmost(stored, i) && Foremost(incoming, n) && NodeMatchKey(stored[i]) == NodeMatchKey(incoming[n])
    ensures TakesIn(Absorbed(stored, incoming).nodes[i], stored[i], incoming[n])
  {
    hide NodeMatchKey, Absorbed, First, Updated, KeyIndex, Keys, Fresh, TakesIn, Foremost, Hindmost, NonBlank;
    ForemostKey(incoming, n);
    HindmostIsThere(stored, i);
    ForemostIsFirst(incoming, n);
    HindmostIsIndexed(stored, i);
    MergeShape(stored, incoming);
    assert StoredShape(Absorbed(stored, incoming).nodes[i], stored, i, incoming);
    UpdatedTakesIn(stored[i], incoming[n]);
  }

  lemma ForemostKey(incoming: seq<Node>, n: nat)
    requires Foremost(incoming, n)
    ensures n < |incoming| && NodeMatchKey(incoming[n]) != ""
  {
  }

  lemma HindmostIsThere(stored: seq<Node>, i: nat)
    requires Hindmost(stored, i)
    ensures i < |stored|
  {
  }

  /** Every other stored node stays exactly as it was, where it was. */
  lemma UntouchedPlace(stored: seq<Node>, incoming: seq<Node>, i: nat)
    requires i < |stored|
    requires NodeMatchKey(stored[i]) == "" || !Hindmost(stored, i)
             || forall j :: 0 <= j < |incoming| ==> NodeMatchKey(incoming[j]) != NodeMatchKey(stored[i])
    ensures Absorbed(stored, incoming).nodes[i] == stored[i]
  {
    hide NodeMatchKey, Absorbed, KeyIndex, Keys, Hindmost;
    var key := NodeMatchKey(stored[i]);
    if key != "" { HindmostIsIndexed(stored, i); }
    NonBlankIsIn(Keys(incoming), key);
    NotAmong(incoming, key);
    NotHitStays(stored, incoming, i);
  }

  lemma NotAmong(incoming: seq<Node>, key: string)
    ensures key in Keys(incoming) ==> exists j :: 0 <= j < |incoming| && NodeMatchKey(incoming[j]) == key
  {
    hide NodeMatchKey;
  }

  // What is added.

  /** How many keys have come in before n that are not stored. */
  function NewBefore(stored: seq<Node>, incoming: seq<Node>, n: nat): nat
    requires n <= |incoming|
  {
    |NonBlank(Keys(incoming[..n])) - NonBlank(Keys(stored))|
  }

  lemma FreshCount(stored: seq<Node>, incoming: seq<Node>)
    ensures |Fresh(stored, incoming)| == |NonBlank(Keys(incoming)) - NonBlank(Keys(stored))|
  {
    hide NodeMatchKey, Fresh, Keys;
    FreshFacts(stored, incoming);
    CountDecidesRepeats(Fresh(stored, incoming));
    assert NonBlank(Fresh(stored, incoming)) == NonBlank(Keys(incoming)) - NonBlank(Keys(stored));
  }

  lemma {:induction false} FreshGrows(stored: seq<Node>, incoming: seq<Node>, n: nat)
    requires n <= |incoming|
    ensures Fresh(stored, incoming[..n]) <= Fresh(stored, incoming)
  {
    hide NodeMatchKey, Keys, NonBlank;
    if n == |incoming| {
      assert incoming[..n] == incoming;
    } else {
      var m := |incoming| - 1;
      FreshGrows(stored, incoming[..m], n);
      assert incoming[..m][..n] == incoming[..n];
    }
  }

  /** A node that comes in first under a key that is not stored is added as it is but for its ID, behind
      the stored ones, in the order of the keys' first coming. */
  lemma AddedPlace(stored: seq<Node>, incoming: seq<Node>, n: nat)
    requires Foremost(incoming, n) && NodeMatchKey(incoming[n]) !in Keys(stored)
    ensures var nodes, at := Absorbed(stored, incoming).nodes, |stored| + NewBefore(stored, incoming, n);
            at < |nodes| && nodes[at] == incoming[n].(id := nodes[at].id)
  {
    hide NodeMatchKey, Absorbed, First, Keys, Fresh, NonBlank;
    var key, nodes, added := NodeMatchKey(incoming[n]), Absorbed(stored, incoming).nodes, Fresh(stored, incoming);
    ForemostIsFirst(incoming, n);
    MergeShape(stored, incoming);
    FreshCount(stored, incoming[..n]);
    NonBlankIsIn(Keys(stored), key);
    FreshStep(stored, incoming[..n], incoming[n]);
    assert incoming[..n + 1] == incoming[..n] + [incoming[n]];
    FreshGrows(stored, incoming, n + 1);
    var j := |Fresh(stored, incoming[..n])|;
    assert added[j] == Fresh(stored, incoming[..n + 1])[j] == key;
    assert FreshShape(nodes[|stored| + j], added[j], incoming);
  }

  /** And nothing else is added. */
  lemma NothingElseIsAdded(stored: seq<Node>, incoming: seq<Node>)
    ensures |Absorbed(stored, incoming).nodes| == |stored| + |NonBlank(Keys(incoming)) - NonBlank(Keys(stored))|
  {
    hide NodeMatchKey, Absorbed, Fresh, Keys, NonBlank;
    MergeShape(stored, incoming);
    FreshCount(stored, incoming);
  }

  lemma IdsStay(index: map<string, nat>, p: Progress, node: Node, i: nat)
    requires Within(index, |p.nodes|) && i < |p.nodes|
    ensures Absorb(index, p, node).nodes[i].id == p.nodes[i].id
  {
    hide NodeMatchKey, FirstNonEmpty, ImportedId;
  }

  lemma {:induction false} AllIdsStay(stored: seq<Node>, incoming: seq<Node>, n: nat, i: nat)
    requires n <= |incoming| && i < |Absorbed(stored, incoming[..n]).nodes|
    ensures i < |Absorbed(stored, incoming).nodes| && Absorbed(stored, incoming).nodes[i].id == Absorbed(stored, incoming[..n]).nodes[i].id
    decreases |incoming|
  {
    hide NodeMatchKey, Absorb, KeyIndex, Keys;
    KeysLength(stored);
    if n == |incoming| {
      assert incoming[..n] == incoming;
    } else {
      var m := |incoming| - 1;
      assert incoming[..m][..n] == incoming[..n];
      AllIdsStay(stored, incoming[..m], n, i);
      IdsStay(KeyIndex(Keys(stored)), Absorbed(stored, incoming[..m]), incoming[m], i);
    }
  }

  /** The step that adds a node. */
  lemma StepAdds(stored: seq<Node>, incoming: seq<Node>, n: nat)
    requires Foremost(incoming, n) && NodeMatchKey(incoming[n]) !in Keys(stored)
    ensures var p, q := Absorbed(stored, incoming[..n]), Absorbed(stored, incoming[..n + 1]);
            |p.nodes| == |stored| + NewBefore(stored, incoming, n) && p.used == UsedIds(p.nodes)
            && q.nodes == p.nodes + [incoming[n].(id := ImportedId(incoming[n], p.used))]
  {
    hide NodeMatchKey, First, Keys, NonBlank, ImportedId, UsedIds, KeyIndex, Foremost, Updated;
    var index := KeyIndex(Keys(stored));
    KeysLength(stored);
    ForemostKey(incoming, n);
    ForemostIsFirst(incoming, n);
    AbsorbStep(index, Start(stored), incoming, n);
    AbsorbAllBalanced(index, stored, incoming[..n]);
    AbsorbAllKeepsIdsApart(index, Start(stored), incoming[..n]);
    NonBlankIsIn(Keys(stored), NodeMatchKey(incoming[n]));
    NothingElseIsAdded(stored, incoming[..n]);
  }

  /** An added node has a trimmed, non-blank ID that no node before it has, and its own if none of them has that. */
  lemma AddedId(stored: seq<Node>, incoming: seq<Node>, n: nat)
    requires Foremost(incoming, n) && NodeMatchKey(incoming[n]) !in Keys(stored)
    ensures var nodes, at := Absorbed(stored, incoming).nodes, |stored| + NewBefore(stored, incoming, n);
            at < |nodes| && nodes[at].id != "" && Trimmed(nodes[at].id) && nodes[at].id !in TrimmedIds(nodes[..at])
            && (Trim(incoming[n].id) != "" && Trim(incoming[n].id) !in TrimmedIds(nodes[..at]) ==> nodes[at].id == Trim(incoming[n].id))
  {
    hide NodeMatchKey, Absorbed, NonBlank, ImportedId, Trim, UsedIds, TrimmedIds, Foremost, Keys;
    ForemostKey(incoming, n);
    var p := Absorbed(stored, incoming[..n]);
    StepAdds(stored, incoming, n);
    AllIdsStay(stored, incoming, n + 1, |p.nodes|);
    ImportedIdFresh(incoming[n], p.used);
    SameIdsBefore(stored, incoming, n);
    NonBlankIsIn(TrimmedIds(p.nodes), ImportedId(incoming[n], p.used));
    NonBlankIsIn(TrimmedIds(p.nodes), Trim(incoming[n].id));
    UsedMeans(p.nodes);
    OwnIdKept(incoming[n], p.used);
  }

  lemma UsedMeans(nodes: seq<Node>)
    ensures UsedIds(nodes) == NonBlank(TrimmedIds(nodes))
  {
  }

  lemma OwnIdKept(node: Node, used: set<string>)
    ensures Trim(node.id) != "" && Trim(node.id) !in used ==> ImportedId(node, used) == Trim(node.id)
  {
    hide Trim;
  }

  lemma SameIdsBefore(stored: seq<Node>, incoming: seq<Node>, n: nat)
    requires n <= |incoming|
    ensures var p, nodes := Absorbed(stored, incoming[..n]).nodes, Absorbed(stored, incoming).nodes;
            |p| <= |nodes| && TrimmedIds(nodes[..|p|]) == TrimmedIds(p)
  {
    hide Absorbed, Trim;
    var p, nodes := Absorbed(stored, incoming[..n]).nodes, Absorbed(stored, incoming).nodes;
    if p != [] { AllIdsStay(stored, incoming, n, |p| - 1); }
    forall i | 0 <= i < |p| ensures i < |nodes| && nodes[i].id == p[i].id {
      AllIdsStay(stored, incoming, n, i);
    }
  }

  // The counts.

  /** The keys that were stored and come in with another outbound than the last stored node under them has. */
  ghost function Changed(stored: seq<Node>, incoming: seq<Node>): set<string> {
    set k | k in NonBlank(Keys(incoming)) && k in Keys(incoming) && k in ByKey(stored) && ByKey(stored)[k].outbound != First(incoming, k).outbound
  }

  lemma ChangedStep(stored: seq<Node>, incoming: seq<Node>, node: Node)
    ensures var key := NodeMatchKey(node);
            Changed(stored, incoming + [node]) == Changed(stored, incoming)
              + if key != "" && key !in NonBlank(Keys(incoming)) && key in ByKey(stored) && ByKey(stored)[key].outbound != node.outbound
                then {key} else {}
  {
    hide NodeMatchKey, First, Keys, ByKey, NonBlank;
    SeenStep(incoming, node);
    forall k: string
      ensures k in NonBlank(Keys(incoming)) ==> k in Keys(incoming) && k in Keys(incoming + [node]) && First(incoming + [node], k) == First(incoming, k)
      ensures k in NonBlank(Keys(incoming + [node])) <==> k in Keys(incoming + [node]) && k != ""
    {
      NonBlankIsIn(Keys(incoming), k);
      NonBlankIsIn(Keys(incoming + [node]), k);
      if k in NonBlank(Keys(incoming)) { FirstStep(incoming, node, k); }
    }
    if NodeMatchKey(node) != "" && NodeMatchKey(node) !in NonBlank(Keys(incoming)) { NewlyFirst(incoming, node); }
  }

  lemma StoredAtStep(stored: seq<Node>, incoming: seq<Node>, key: string)
    requires key != "" && key in KeyIndex(Keys(stored)) && key !in NonBlank(Keys(incoming))
    ensures var i := KeyIndex(Keys(stored))[key];
            i < |stored| && i < |Absorbed(stored, incoming).nodes| && Absorbed(stored, incoming).nodes[i] == stored[i]
            && key in ByKey(stored) && stored[i] == ByKey(stored)[key]
  {
    hide NodeMatchKey, Absorbed, KeyIndex, Keys, ByKey;
    KeysLength(stored);
    LastIsIndexed(stored, key);
    var i := KeyIndex(Keys(stored))[key];
    KeyAt(stored, i);
    NotHitStays(stored, incoming, i);
  }

  /** A node is counted as added if its key was not stored, as updated if its outbound is another one,
      and as unchanged otherwise. */
  lemma {:induction false} CountsMean(stored: seq<Node>, incoming: seq<Node>)
    ensures var stats := Absorbed(stored, incoming).stats;
            stats.added == |NonBlank(Keys(incoming)) - NonBlank(Keys(stored))| && stats.updated == |Changed(stored, incoming)|
            && stats.same == |NonBlank(Keys(incoming)) * NonBlank(Keys(stored))| - |Changed(stored, incoming)|
  {
    hide NodeMatchKey, AbsorbAll, KeyIndex, Keys, NonBlank, Changed;
    UpdatedMeans(stored, incoming);
    MergeConserves(stored, incoming);
    NothingElseIsAdded(stored, incoming);
    var fed, known := NonBlank(Keys(incoming)), NonBlank(Keys(stored));
    assert fed == (fed - known) + fed * known;
  }

  lemma {:induction false} UpdatedMeans(stored: seq<Node>, incoming: seq<Node>)
    ensures Absorbed(stored, incoming).stats.updated == |Changed(stored, incoming)|
  {
    hide NodeMatchKey, KeyIndex, Keys, NonBlank, ByKey, UsedIds, ImportedId, Updated, First, Changed;
    KeysLength(stored);
    if incoming == [] {
      NothingChanged(stored);
    } else {
      var n := |incoming| - 1;
      var node, index := incoming[n], KeyIndex(Keys(stored));
      var key := NodeMatchKey(node);
      UpdatedMeans(stored, incoming[..n]);
      assert incoming == incoming[..n] + [node];
      ChangedStep(stored, incoming[..n], node);
      AbsorbAllBalanced(index, stored, incoming[..n]);
      ChangedIsFed(stored, incoming[..n], key);
      if key != "" && key !in NonBlank(Keys(incoming[..n])) {
        LastIsIndexed(stored, key);
        if key in index { StoredAtStep(stored, incoming[..n], key); }
      }
    }
  }

  lemma NothingChanged(stored: seq<Node>)
    ensures Changed(stored, []) == {}
  {
  }

  lemma ChangedIsFed(stored: seq<Node>, incoming: seq<Node>, key: string)
    ensures key !in NonBlank(Keys(incoming)) ==> key !in Changed(stored, incoming)
  {
  }

  // The node to activate.

  /** Where the n-th node of the feed, the first under its key, ends up. */
  function PlaceOf(stored: seq<Node>, incoming: seq<Node>, n: nat): nat
    requires n < |incoming|
  {
    var key := NodeMatchKey(incoming[n]);
    if key in KeyIndex(Keys(stored)) then KeyIndex(Keys(stored))[key] else |stored| + NewBefore(stored, incoming, n)
  }

  /** A live node of the feed that nobody before it shares a key with. */
  ghost predicate LiveForemost(incoming: seq<Node>, n: nat) {
    Foremost(incoming, n) && !incoming[n].stale
  }

  lemma StepPicks(stored: seq<Node>, incoming: seq<Node>, n: nat)
    requires n < |incoming|
    ensures var p, q := Absorbed(stored, incoming[..n]), Absorbed(stored, incoming[..n + 1]);
            if p.picked == "" && LiveForemost(incoming, n)
            then PlaceOf(stored, incoming, n) < |q.nodes| && q.picked == q.nodes[PlaceOf(stored, incoming, n)].id
            else q.picked == p.picked
  {
    hide NodeMatchKey, Keys, NonBlank, KeyIndex, ImportedId, UsedIds, FirstNonEmpty;
    var index := KeyIndex(Keys(stored));
    KeysLength(stored);
    AbsorbStep(index, Start(stored), incoming, n);
    AbsorbAllBalanced(index, stored, incoming[..n]);
    NothingElseIsAdded(stored, incoming[..n]);
    SeenMeansForemost(incoming, n);
  }

  lemma SeenMeansForemost(incoming: seq<Node>, n: nat)
    requires n < |incoming|
    ensures Foremost(incoming, n) <==> NodeMatchKey(incoming[n]) != "" && NodeMatchKey(incoming[n]) !in NonBlank(Keys(incoming[..n]))
  {
    hide NodeMatchKey;
    var key := NodeMatchKey(incoming[n]);
    NonBlankIsIn(Keys(incoming[..n]), key);
    if key in Keys(incoming[..n]) { NotAmong(incoming[..n], key); }
    forall j | 0 <= j < n ensures Keys(incoming[..n])[j] == NodeMatchKey(incoming[j]) {
    }
  }

  /** Without a live node in the feed, none is picked. */
  lemma {:induction false} NothingLivePicked(stored: seq<Node>, incoming: seq<Node>)
    requires forall n :: 0 <= n < |incoming| ==> !LiveForemost(incoming, n)
    ensures Absorbed(stored, incoming).picked == ""
  {
    hide NodeMatchKey, AbsorbAll, KeyIndex, Keys, LiveForemost;
    if incoming == [] {
      NothingPicked(stored);
    } else {
      var n := |incoming| - 1;
      assert incoming[..n + 1] == incoming;
      forall m | 0 <= m < n ensures !LiveForemost(incoming[..n], m) {
        LiveInFront(incoming, n, m);
      }
      NothingLivePicked(stored, incoming[..n]);
      StepPicks(stored, incoming, n);
    }
  }

  lemma NothingPicked(stored: seq<Node>)
    ensures Absorbed(stored, []).picked == ""
  {
    hide Keys, KeyIndex;
    KeysLength(stored);
  }

  lemma LiveInFront(incoming: seq<Node>, n: nat, m: nat)
    requires m < n <= |incoming|
    ensures LiveForemost(incoming[..n], m) <==> LiveForemost(incoming, m)
  {
    hide NodeMatchKey;
  }

  /** The node picked is the first live one of the feed, under the ID that it has in the list. */
  lemma {:induction false} FirstLivePicked(stored: seq<Node>, incoming: seq<Node>, n: nat)
    requires LiveForemost(incoming, n) && forall m :: 0 <= m < n ==> !LiveForemost(incoming, m)
    requires "" !in Ids(stored)
    ensures n < |incoming| && PlaceOf(stored, incoming, n) < |Absorbed(stored, incoming).nodes|
    ensures Absorbed(stored, incoming).picked == Absorbed(stored, incoming).nodes[PlaceOf(stored, incoming, n)].id
    decreases |incoming|
  {
    hide NodeMatchKey, Absorbed, KeyIndex, Keys, LiveForemost, PlaceOf;
    LiveIsThere(incoming, n);
    var last := |incoming| - 1;
    assert incoming[..last + 1] == incoming;
    StepPicks(stored, incoming, last);
    if n == last {
      forall m | 0 <= m < n ensures !LiveForemost(incoming[..n], m) {
        LiveInFront(incoming, n, m);
      }
      NothingLivePicked(stored, incoming[..n]);
    } else {
      forall m | 0 <= m <= n ensures LiveForemost(incoming[..last], m) <==> LiveForemost(incoming, m) {
        LiveInFront(incoming, last, m);
      }
      FirstLivePicked(stored, incoming[..last], n);
      SamePlace(stored, incoming, last, n);
      AllIdsStay(stored, incoming, last, PlaceOf(stored, incoming, n));
      MergedIdsNotBlank(stored, incoming[..last], PlaceOf(stored, incoming, n));
    }
  }

  lemma LiveIsThere(incoming: seq<Node>, n: nat)
    requires LiveForemost(incoming, n)
    ensures n < |incoming|
  {
  }

  lemma SamePlace(stored: seq<Node>, incoming: seq<Node>, last: nat, n: nat)
    requires n < last <= |incoming|
    ensures PlaceOf(stored, incoming[..last], n) == PlaceOf(stored, incoming, n)
  {
    hide NodeMatchKey, Keys, KeyIndex;
    assert incoming[..last][..n] == incoming[..n];
  }

  lemma {:induction false} MergedIdsNotBlank(stored: seq<Node>, incoming: seq<Node>, i: nat)
    requires "" !in Ids(stored) && i < |Absorbed(stored, incoming).nodes|
    ensures Absorbed(stored, incoming).nodes[i].id != ""
  {
    hide NodeMatchKey, Keys, KeyIndex, ImportedId, FirstNonEmpty, UsedIds;
    KeysLength(stored);
    if incoming == [] {
      assert Ids(stored)[i] == stored[i].id;
    } else {
      var n := |incoming| - 1;
      if i < |Absorbed(stored, incoming[..n]).nodes| {
        MergedIdsNotBlank(stored, incoming[..n], i);
        IdsStay(KeyIndex(Keys(stored)), Absorbed(stored, incoming[..n]), incoming[n], i);
      }
    }
  }

  /** After a merge the active node is the first live one that came in, or else the one that was active
      if it is live, or else the first live one there is. */
  lemma MergedActivates(current: Document, incoming: seq<Node>)
    ensures var p, active := Absorbed(current.nodes, incoming), Merged(current, incoming).0.activeNodeId;
            (p.picked != "" ==> active == p.picked)
            && (p.picked == "" && current.activeNodeId != "" && NamesLive(p.nodes, current.activeNodeId) ==> active == current.activeNodeId)
            && (p.picked == "" && (current.activeNodeId == "" || !NamesLive(p.nodes, current.activeNodeId)) ==>
                  if forall n :: n in p.nodes ==> n.stale then active == ""
                  else exists i :: 0 <= i < |p.nodes| && !p.nodes[i].stale && active == p.nodes[i].id && forall j :: 0 <= j < i ==> p.nodes[j].stale)
  {
    hide Absorbed, NamesLive;
    FirstLiveIsFirst(Absorbed(current.nodes, incoming).nodes);
  }

  lemma {:induction false} FirstLiveIsFirst(nodes: seq<Node>)
    ensures if forall n :: n in nodes ==> n.stale then FirstLiveId(nodes) == ""
            else exists i :: 0 <= i < |nodes| && !nodes[i].stale && FirstLiveId(nodes) == nodes[i].id && forall j :: 0 <= j < i ==> nodes[j].stale
  {
    if nodes != [] && nodes[0].stale {
      FirstLiveIsFirst(nodes[1..]);
      assert nodes == [nodes[0]] + nodes[1..];
      if i :| 0 <= i < |nodes| - 1 && !nodes[1..][i].stale && FirstLiveId(nodes[1..]) == nodes[1..][i].id && forall j :: 0 <= j < i ==> nodes[1..][j].stale {
        assert !nodes[i + 1].stale;
        forall j | 0 <= j < i + 1 ensures nodes[j].stale {
          if j > 0 { assert nodes[1..][j - 1].stale; }
        }
      }
    }
  }

  lemma {:induction false} NamesLiveMeans(nodes: seq<Node>, id: string)
    ensures NamesLive(nodes, id) <==>
            exists i :: 0 <= i < |nodes| && nodes[i].id == id && !nodes[i].stale && forall j :: 0 <= j < i ==> nodes[j].id != id
  {
    if nodes != [] {
      NamesLiveMeans(nodes[1..], id);
      if nodes[0].id != id {
        if i :| 0 <= i < |nodes| && nodes[i].id == id && !nodes[i].stale && forall j :: 0 <= j < i ==> nodes[j].id != id {
          assert nodes[1..][i - 1] == nodes[i];
          assert forall j :: 0 <= j < i - 1 ==> nodes[1..][j] == nodes[j + 1];
        }
        if i :| 0 <= i < |nodes| - 1 && nodes[1..][i].id == id && !nodes[1..][i].stale && forall j :: 0 <= j < i ==> nodes[1..][j].id != id {
          assert nodes[i + 1].id == id;
          forall j | 0 <= j < i + 1 ensures nodes[j].id != id {
            if j > 0 { assert nodes[1..][j - 1].id != id; }
          }
        }
      } else {
        assert nodes[0].id == id;
      }
    }
  }
}
