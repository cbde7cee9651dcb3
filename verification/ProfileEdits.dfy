/** Editing the profile document by hand, and what every run of edits and merges keeps. */
module ProfileEdits {
  import opened Text
  import opened ProfileModel
  import opened FreshIds
  import opened NodeMerge
  import opened NodeMergeFacts
  import opened ProfileNormalization
  import opened NormalizationFacts
  import opened SubscriptionRefresh
  import opened RefreshFacts
  import opened RefreshTheorems

  datatype Edited = Edited(doc: Document) | Rejected

  datatype Intent = Intent(backendKind: string, fallbackPolicy: string, activeProfileId: string)

  predicate HoldsLive(nodes: seq<Node>, id: string) {
    exists i :: 0 <= i < |nodes| && nodes[i].id == id && !nodes[i].stale
  }

  predicate HasId(nodes: seq<Node>, id: string) {
    exists i :: 0 <= i < |nodes| && nodes[i].id == id
  }

  function Activated(doc: Document, id: string): Edited {
    if HoldsLive(doc.nodes, id) then Edited(doc.(activeNodeId := id)) else Rejected
  }

  /** The first node with the ID replaced, or the node appended. */
  function Placed(nodes: seq<Node>, node: Node): seq<Node> {
    if nodes == [] then [node]
    else if nodes[0].id == node.id then [node] + nodes[1..]
    else [nodes[0]] + Placed(nodes[1..], node)
  }

  function Upserted(doc: Document, node: Node): Edited {
    if node.id == "" then Rejected
    else
      Edited(doc.(nodes := Placed(doc.nodes, node),
                  activeNodeId := if doc.activeNodeId == "" && !node.stale then node.id else doc.activeNodeId))
  }

  function Without(nodes: seq<Node>, id: string): seq<Node> {
    if nodes == [] then []
    else
      var front, last := Without(nodes[..|nodes| - 1], id), nodes[|nodes| - 1];
      if last.id == id then front else front + [last]
  }

  function Removed(doc: Document, id: string): Edited {
    if id == "" || !HasId(doc.nodes, id) then Rejected
    else
      var nodes := Without(doc.nodes, id);
      Edited(doc.(nodes := nodes, activeNodeId := if doc.activeNodeId == id then FirstLiveId(nodes) else doc.activeNodeId))
  }

  function Intended(doc: Document, intent: Intent): Document {
    doc.(runtime := Runtime(if intent.backendKind != "" then intent.backendKind else doc.runtime.backendKind,
                            if intent.fallbackPolicy != "" then intent.fallbackPolicy else doc.runtime.fallbackPolicy),
         activeNodeId := if intent.activeProfileId != "" then intent.activeProfileId else doc.activeNodeId)
  }

  method SetActiveNode(doc: Document, id: string) returns (edited: Edited)
    ensures edited == Activated(doc, id)
  {
    var found := false;
    for i := 0 to |doc.nodes|
      invariant !found && !HoldsLive(doc.nodes[..i], id)
    {
      if doc.nodes[i].id == id && !doc.nodes[i].stale {
        found := true;
        break;
      }
    }
    assert !found ==> doc.nodes[..|doc.nodes|] == doc.nodes;
    return if found then Edited(doc.(activeNodeId := id)) else Rejected;
  }

  method UpsertNode(doc: Document, node: Node) returns (edited: Edited)
    ensures edited == Upserted(doc, node)
  {
    hide Placed, HasId;
    if node.id == "" {
      return Rejected;
    }
    var nodes, replaced := doc.nodes, false;
    NoneHasId(node.id);
    assert doc.nodes[..0] == [];
    for i := 0 to |doc.nodes|
      invariant !replaced && nodes == doc.nodes
      invariant !HasId(doc.nodes[..i], node.id)
    {
      PlacedHere(doc.nodes, i, node);
      if nodes[i].id == node.id {
        nodes := nodes[i := node];
        replaced := true;
        break;
      }
    }
    if !replaced {
      assert doc.nodes[..|doc.nodes|] == doc.nodes;
      PlacedAt(doc.nodes, node);
      nodes := nodes + [node];
    }
    var active := doc.activeNodeId;
    if active == "" && !node.stale {
      active := node.id;
    }
    return Edited(doc.(nodes := nodes, activeNodeId := active));
  }

  lemma NoneHasId(id: string)
    ensures !HasId([], id)
  {
  }

  lemma {:induction false} PlacedHere(nodes: seq<Node>, i: nat, node: Node)
    requires i < |nodes| && !HasId(nodes[..i], node.id)
    ensures nodes[i].id == node.id ==> Placed(nodes, node) == nodes[i := node]
    ensures nodes[i].id != node.id ==> !HasId(nodes[..i + 1], node.id)
  {
    if nodes[i].id == node.id {
      if i > 0 {
        assert nodes[..i][0].id != node.id;
        assert nodes[1..][..i - 1] == nodes[..i][1..];
        PlacedHere(nodes[1..], i - 1, node);
        assert nodes[i := node] == [nodes[0]] + nodes[1..][i - 1 := node];
      } else {
        assert nodes[0 := node] == [node] + nodes[1..];
      }
    } else {
      assert forall j :: 0 <= j < i ==> nodes[..i + 1][j] == nodes[..i][j];
    }
  }

  method RemoveNode(doc: Document, id: string) returns (edited: Edited)
    ensures edited == Removed(doc, id)
  {
    hide FirstLiveId;
    if id == "" {
      return Rejected;
    }
    var nodes: seq<Node>, removed := [], false;
    for i := 0 to |doc.nodes|
      invariant nodes == Without(doc.nodes[..i], id)
      invariant removed == HasId(doc.nodes[..i], id)
    {
      assert doc.nodes[..i + 1][..i] == doc.nodes[..i];
      assert HasId(doc.nodes[..i + 1], id) <==> HasId(doc.nodes[..i], id) || doc.nodes[i].id == id by {
        assert doc.nodes[..i + 1] == doc.nodes[..i] + [doc.nodes[i]];
        assert (doc.nodes[..i] + [doc.nodes[i]])[i].id == doc.nodes[i].id;
        if HasId(doc.nodes[..i], id) {
          var j :| 0 <= j < i && doc.nodes[..i][j].id == id;
          assert doc.nodes[..i + 1][j].id == id;
        }
      }
      if doc.nodes[i].id == id {
        removed := true;
        continue;
      }
      nodes := nodes + [doc.nodes[i]];
    }
    assert doc.nodes[..|doc.nodes|] == doc.nodes;
    if !removed {
      return Rejected;
    }
    var active := doc.activeNodeId;
    if active == id {
      active := FindFirstLive(nodes);
    }
    return Edited(doc.(nodes := nodes, activeNodeId := active));
  }

  // What runs keep.

  /** Trimmed, non-blank and distinct IDs, and an active node that is live or none at all. */
  ghost predicate Consistent(doc: Document) {
    && (forall n :: n in doc.nodes ==> n.id != "" && Trimmed(n.id))
    && DistinctIds(doc.nodes)
    && (doc.activeNodeId == "" || HoldsLive(doc.nodes, doc.activeNodeId))
  }

  lemma {:induction false} PlacedAt(nodes: seq<Node>, node: Node)
    ensures var r := Placed(nodes, node);
            if HasId(nodes, node.id) then
              |r| == |nodes| && exists k :: 0 <= k < |nodes| && nodes[k].id == node.id && r == nodes[k := node]
            else r == nodes + [node]
  {
    if nodes != [] {
      var rest := nodes[1..];
      PlacedAt(rest, node);
      if nodes[0].id == node.id {
        assert Placed(nodes, node) == nodes[0 := node];
      } else if HasId(rest, node.id) {
        var k :| 0 <= k < |rest| && rest[k].id == node.id && Placed(rest, node) == rest[k := node];
        assert nodes[k + 1].id == node.id && Placed(nodes, node) == nodes[k + 1 := node];
      } else {
        assert !HasId(nodes, node.id) by {
          if i :| 0 <= i < |nodes| && nodes[i].id == node.id { RestHas(nodes, i, node.id); }
        }
      }
    }
  }

  lemma RestHas(nodes: seq<Node>, i: nat, id: string)
    requires 0 < i < |nodes| && nodes[i].id == id
    ensures HasId(nodes[1..], id)
  {
    assert nodes[1..][i - 1].id == id;
  }

  ghost predicate DistinctIds(nodes: seq<Node>) {
    forall i, j :: 0 <= i < j < |nodes| ==> nodes[i].id != nodes[j].id
  }

  lemma PlacedKeepsIds(nodes: seq<Node>, node: Node)
    requires DistinctIds(nodes)
    ensures DistinctIds(Placed(nodes, node))
    ensures forall n :: n in Placed(nodes, node) ==> n in nodes || n == node
  {
    hide Placed;
    PlacedAt(nodes, node);
  }

  lemma PlacedLive(nodes: seq<Node>, node: Node, id: string)
    requires DistinctIds(nodes)
    ensures HoldsLive(Placed(nodes, node), id) <==> if id == node.id then !node.stale else HoldsLive(nodes, id)
  {
    hide Placed;
    PlacedAt(nodes, node);
    var placed := Placed(nodes, node);
    var k: nat;
    if HasId(nodes, node.id) {
      k :| 0 <= k < |nodes| && nodes[k].id == node.id && placed == nodes[k := node];
    } else {
      k := |nodes|;
    }
    assert placed[k] == node;
    assert forall i :: 0 <= i < |nodes| && i != k ==> placed[i] == nodes[i] && nodes[i].id != node.id;
  }

  /** Upserting a node with a trimmed ID keeps a document consistent, except that it may turn the
      active node itself stale. */
  lemma UpsertKeepsIff(doc: Document, node: Node)
    requires Consistent(doc) && node.id != "" && Trimmed(node.id)
    ensures Consistent(Upserted(doc, node).doc) <==> !(node.stale && node.id == doc.activeNodeId)
  {
    hide Trimmed, Placed, HoldsLive;
    PlacedKeepsIds(doc.nodes, node);
    PlacedLive(doc.nodes, node, doc.activeNodeId);
    PlacedLive(doc.nodes, node, node.id);
  }

  lemma {:induction false} WithoutFacts(nodes: seq<Node>, id: string)
    requires DistinctIds(nodes)
    ensures DistinctIds(Without(nodes, id))
    ensures forall n :: n in Without(nodes, id) <==> n in nodes && n.id != id
  {
    if nodes != [] {
      var n := |nodes| - 1;
      WithoutFacts(nodes[..n], id);
      assert nodes == nodes[..n] + [nodes[n]];
      var front := Without(nodes[..n], id);
      forall i | 0 <= i < |front| ensures front[i].id != nodes[n].id {
        assert front[i] in nodes[..n];
        var j :| 0 <= j < n && nodes[j] == front[i];
      }
    }
  }

  lemma FirstLiveHolds(nodes: seq<Node>)
    ensures FirstLiveId(nodes) == "" || HoldsLive(nodes, FirstLiveId(nodes))
  {
    hide FirstLiveId;
    FirstLiveIsLive(nodes);
    if FirstLiveId(nodes) != "" {
      var n :| n in nodes && !n.stale && n.id == FirstLiveId(nodes);
      var i :| 0 <= i < |nodes| && nodes[i] == n;
    }
  }

  lemma RemoveKeeps(doc: Document, id: string)
    requires Consistent(doc) && Removed(doc, id).Edited?
    ensures Consistent(Removed(doc, id).doc) && !HasId(Removed(doc, id).doc.nodes, id)
  {
    hide Trimmed, FirstLiveId;
    var nodes := Without(doc.nodes, id);
    WithoutFacts(doc.nodes, id);
    FirstLiveHolds(nodes);
    if doc.activeNodeId != "" && doc.activeNodeId != id {
      var a :| 0 <= a < |doc.nodes| && doc.nodes[a].id == doc.activeNodeId && !doc.nodes[a].stale;
      assert doc.nodes[a] in nodes;
      var b :| 0 <= b < |nodes| && nodes[b] == doc.nodes[a];
    }
  }

  // Merging.

  /** The node picked for activation is live in the list as it stands. */
  ghost predicate PickHolds(index: map<string, nat>, p: Progress) {
    p.picked == "" || exists i :: 0 <= i < |p.nodes| && p.nodes[i].id == p.picked && !p.nodes[i].stale
                                  && forall k :: k in index && index[k] == i ==> k in p.seen
  }

  lemma AbsorbKeepsPick(index: map<string, nat>, p: Progress, node: Node)
    requires Within(index, |p.nodes|) && PickHolds(index, p)
    requires forall a, b :: a in index && b in index && index[a] == index[b] ==> a == b
    ensures PickHolds(index, Absorb(index, p, node))
  {
    hide NodeMatchKey, ImportedId, FirstNonEmpty;
    var r, key := Absorb(index, p, node), NodeMatchKey(node);
    if r != p {
      var at := if key in index then index[key] else |p.nodes|;
      if p.picked != "" {
        var i :| 0 <= i < |p.nodes| && p.nodes[i].id == p.picked && !p.nodes[i].stale && forall k :: k in index && index[k] == i ==> k in p.seen;
        assert r.nodes[i] == p.nodes[i];
      } else {
        assert r.picked != "" ==> r.nodes[at].id == r.picked && !r.nodes[at].stale;
      }
    }
  }

  lemma {:induction false} AbsorbAllKeepsPick(nodes: seq<Node>, incoming: seq<Node>)
    ensures Within(KeyIndex(Keys(nodes)), |nodes|)
    ensures PickHolds(KeyIndex(Keys(nodes)), AbsorbAll(KeyIndex(Keys(nodes)), Start(nodes), incoming))
  {
    hide NodeMatchKey, Absorb, KeyIndex;
    KeysLength(nodes);
    if incoming != [] {
      AbsorbAllKeepsPick(nodes, incoming[..|incoming| - 1]);
      var index := KeyIndex(Keys(nodes));
      AbsorbKeepsPick(index, AbsorbAll(index, Start(nodes), incoming[..|incoming| - 1]), incoming[|incoming| - 1]);
    }
  }

  lemma NamesLiveHolds(nodes: seq<Node>, id: string)
    requires NamesLive(nodes, id)
    ensures HoldsLive(nodes, id)
  {
    hide NamesLive;
    NamesLiveIs(nodes, id);
  }

  lemma {:induction false} NamesLiveIs(nodes: seq<Node>, id: string)
    requires NamesLive(nodes, id)
    ensures exists i :: 0 <= i < |nodes| && nodes[i].id == id && !nodes[i].stale
  {
    if nodes[0].id != id {
      NamesLiveIs(nodes[1..], id);
      var i :| 0 <= i < |nodes| - 1 && nodes[1..][i].id == id && !nodes[1..][i].stale;
      assert nodes[i + 1].id == id;
    }
  }

  /** Whatever is merged into whatever list, the active node is then live, or there is none. */
  lemma MergedActiveIsLive(current: Document, incoming: seq<Node>)
    ensures var next := Merged(current, incoming).0; next.activeNodeId == "" || HoldsLive(next.nodes, next.activeNodeId)
  {
    hide KeyIndex, AbsorbAll, NamesLive, FirstLiveId;
    var p := Absorbed(current.nodes, incoming);
    AbsorbAllKeepsPick(current.nodes, incoming);
    FirstLiveHolds(p.nodes);
    if NamesLive(p.nodes, current.activeNodeId) { NamesLiveHolds(p.nodes, current.activeNodeId); }
  }

  lemma {:induction false} AbsorbAllKeepsIds(index: map<string, nat>, nodes: seq<Node>, incoming: seq<Node>)
    requires Within(index, |nodes|) && forall n :: n in nodes ==> n.id != "" && Trimmed(n.id)
    ensures forall n :: n in AbsorbAll(index, Start(nodes), incoming).nodes ==> n.id != "" && Trimmed(n.id)
  {
    hide Trimmed, NodeMatchKey, ImportedId, FirstNonEmpty;
    if incoming != [] {
      var node := incoming[|incoming| - 1];
      AbsorbAllKeepsIds(index, nodes, incoming[..|incoming| - 1]);
      var p := AbsorbAll(index, Start(nodes), incoming[..|incoming| - 1]);
      ImportedIdFresh(node, p.used);
      ImportedIdTrimmed(node, p.used);
      if NodeMatchKey(node) in index { assert p.nodes[index[NodeMatchKey(node)]] in p.nodes; }
    }
  }

  lemma TidyIdsAreIds(nodes: seq<Node>)
    requires forall n :: n in nodes ==> n.id != "" && Trimmed(n.id)
    ensures NoRepeats(TrimmedIds(nodes)) <==> DistinctIds(nodes)
  {
    hide Trim, Trimmed;
    forall i | 0 <= i < |nodes| ensures TrimmedIds(nodes)[i] == nodes[i].id != "" {
      assert nodes[i] in nodes;
      TrimFixed(nodes[i].id);
    }
  }

  lemma MergeKeeps(doc: Document, incoming: seq<Node>)
    requires Consistent(doc)
    ensures Consistent(Merged(doc, incoming).0)
  {
    hide Trimmed, KeyIndex, AbsorbAll, HoldsLive, ActiveAfter, NoRepeats, TrimmedIds;
    KeysLength(doc.nodes);
    MergedActiveIsLive(doc, incoming);
    AbsorbAllKeepsIds(KeyIndex(Keys(doc.nodes)), doc.nodes, incoming);
    MergeKeepsIdsApart(doc.nodes, incoming);
    TidyIdsAreIds(doc.nodes);
    TidyIdsAreIds(Absorbed(doc.nodes, incoming).nodes);
  }

  /** Any refresh, of any document with any feed, keeps it consistent. */
  lemma RefreshKeeps(doc: Document, sub: Subscription, incoming: seq<Node>)
    requires Consistent(doc)
    ensures Consistent(Refreshed(doc, sub, incoming).0)
  {
    hide Trim, Trimmed, RefreshedNodes, Repaired, NewlyStale, Tagged, HoldsLive, DistinctIds, NoRepeats, TrimmedIds, Absorbed, ActiveAfter, Keys;
    var p := Trim(sub.providerKey);
    if p != "" {
      var tagged := Tagged(incoming, p, Trim(sub.url));
      var r := RefreshedNodes(doc.nodes, p, tagged);
      RefreshedIdsAreTidy(doc.nodes, p, tagged);
      TidyIdsAreIds(doc.nodes);
      RefreshKeepsIdsApart(doc.nodes, p, tagged);
      TidyIdsAreIds(r);
      RepairedHolds(r, Merged(doc, tagged).0.activeNodeId);
    }
  }

  lemma RefreshedIdsAreTidy(stored: seq<Node>, p: string, tagged: seq<Node>)
    requires forall n :: n in stored ==> n.id != "" && Trimmed(n.id)
    ensures forall n :: n in RefreshedNodes(stored, p, tagged) ==> n.id != "" && Trimmed(n.id)
  {
    hide Trimmed, RefreshedNodes, AbsorbAll, KeyIndex, Keys, NonBlank, Gone;
    KeysLength(stored);
    AbsorbAllKeepsIds(KeyIndex(Keys(stored)), stored, tagged);
    RefreshWithin(stored, p, tagged);
    var merged, seen := Absorbed(stored, tagged).nodes, NonBlank(Keys(tagged));
    forall n | n in RefreshedNodes(stored, p, tagged) ensures n.id != "" && Trimmed(n.id) {
      assert n in multiset(RefreshedNodes(stored, p, tagged));
      var i :| 0 <= i < |Marked(merged, p, seen)| && Marked(merged, p, seen)[i] == n;
      assert merged[i] in merged;
    }
  }

  lemma RepairedHolds(nodes: seq<Node>, active: string)
    ensures Repaired(nodes, active) == "" || HoldsLive(nodes, Repaired(nodes, active))
  {
    hide Repaired;
    RepairedActiveIsLive(nodes, active);
    if Repaired(nodes, active) != "" {
      var n :| n in nodes && !n.stale && n.id == Repaired(nodes, active);
      var i :| 0 <= i < |nodes| && nodes[i] == n;
    }
  }

  /** Normalising makes any document consistent that it accepts. */
  lemma NormalizeMakesConsistent(document: Document, c: Checks)
    ensures Normalized(document, c).Accepted? ==> Consistent(Normalized(document, c).doc)
  {
    hide Normalized, NoRepeats, Trimmed, Trim;
    if Normalized(document, c).Accepted? {
      var doc := Normalized(document, c).doc;
      NormalizedActiveIsLive(document, c);
      NormalizedIdsAreTidy(document, c);
      TidyIdsAreIds(doc.nodes);
      if doc.activeNodeId != "" {
        var n :| n in doc.nodes && !n.stale && n.id == doc.activeNodeId;
        var i :| 0 <= i < |doc.nodes| && doc.nodes[i] == n;
      }
    }
  }

  lemma NormalizedIdsAreTidy(document: Document, c: Checks)
    requires Normalized(document, c).Accepted?
    ensures forall n :: n in Normalized(document, c).doc.nodes ==> n.id != "" && Trimmed(n.id)
  {
    hide TidyScalars, TidyNode, NodesVerdict, SubsVerdict, ProvidersVerdict, NormalSubs, TidySubs, FirstLiveId, ValidPort, Trim, Trimmed;
    var start := document.(schemaVersion := DefaultInt(document.schemaVersion, CURRENT_SCHEMA));
    TidyScalarsKeeps(start);
    var nodes := TidyNodes(start.nodes, c);
    forall i | 0 <= i < |nodes| ensures nodes[i].id != "" && Trimmed(nodes[i].id) {
      TidyNodeId(start.nodes[i], i, c);
    }
  }

  lemma TidyNodeId(node: Node, i: nat, c: Checks)
    ensures TidyNode(node, i, c).id != "" && Trimmed(TidyNode(node, i, c).id)
  {
    hide Trimmed, Trim, TidyId, NormalizeProtocol, FirstNonEmpty, Default, Upper;
    IdSettles(node, i);
  }

  // Runs.

  datatype Edit =
    | DoNormalize(checks: Checks) | DoMerge(incoming: seq<Node>) | DoRefresh(sub: Subscription, incoming: seq<Node>) | DoActivate(id: string) | DoDeactivate
    | DoUpsert(node: Node) | DoRemove(id: string) | DoIntend(intent: Intent)

  /** A rejected edit leaves the document as it is. */
  function After(doc: Document, edit: Edit): Document {
    match edit
    case DoNormalize(checks) => (var r := Normalized(doc, checks); if r.Accepted? then r.doc else doc)
    case DoMerge(incoming) => Merged(doc, incoming).0
    case DoRefresh(sub, incoming) => Refreshed(doc, sub, incoming).0
    case DoActivate(id) => (var r := Activated(doc, id); if r.Edited? then r.doc else doc)
    case DoDeactivate => doc.(activeNodeId := "")
    case DoUpsert(node) => (var r := Upserted(doc, node); if r.Edited? then r.doc else doc)
    case DoRemove(id) => (var r := Removed(doc, id); if r.Edited? then r.doc else doc)
    case DoIntend(intent) => Intended(doc, intent)
  }

  function Run(doc: Document, edits: seq<Edit>): Document {
    if edits == [] then doc else After(Run(doc, edits[..|edits| - 1]), edits[|edits| - 1])
  }

  /** An edit that a caller must not make unchecked: an untrimmed ID, the active node upserted as
      stale, or an intent for a node that is not there or not live. */
  predicate Careless(doc: Document, edit: Edit) {
    match edit
    case DoUpsert(node) => !Trimmed(node.id) || (node.id != "" && node.stale && node.id == doc.activeNodeId)
    case DoIntend(intent) => intent.activeProfileId != "" && !HoldsLive(doc.nodes, intent.activeProfileId)
    case _ => false
  }

  /** One edit keeps a consistent document consistent exactly when it is not careless; an upserted
      untrimmed ID is never let pass. */
  lemma EditKeepsIff(doc: Document, edit: Edit)
    requires Consistent(doc)
    ensures Consistent(After(doc, edit)) <==> !Careless(doc, edit)
  {
    hide Trimmed, Normalized, Merged, Refreshed, Upserted, Removed;
    match edit
    case DoNormalize(checks) => NormalizeMakesConsistent(doc, checks);
    case DoMerge(incoming) => MergeKeeps(doc, incoming);
    case DoRefresh(sub, incoming) => RefreshKeeps(doc, sub, incoming);
    case DoUpsert(node) =>
      UpsertShape(doc, node);
      if node.id != "" && Trimmed(node.id) { UpsertKeepsIff(doc, node); }
    case DoRemove(id) =>
      if Removed(doc, id).Edited? { RemoveKeeps(doc, id); }
    case _ =>
  }

  lemma UpsertShape(doc: Document, node: Node)
    ensures Upserted(doc, node).Rejected? <==> node.id == ""
    ensures node.id != "" ==> node in Upserted(doc, node).doc.nodes
    ensures Trimmed("")
  {
    PlacedAt(doc.nodes, node);
    if node.id != "" {
      if HasId(doc.nodes, node.id) {
        var k :| 0 <= k < |doc.nodes| && doc.nodes[k].id == node.id && Placed(doc.nodes, node) == doc.nodes[k := node];
        assert doc.nodes[k := node][k] == node;
      }
    }
  }

  ghost predicate CarefulRun(doc: Document, edits: seq<Edit>) {
    forall n :: 0 <= n < |edits| ==> !Careless(Run(doc, edits[..n]), edits[n])
  }

  /** From a consistent document, every run without a careless edit ends in a consistent one. */
  lemma {:induction false} RunsKeepConsistent(doc: Document, edits: seq<Edit>)
    requires Consistent(doc) && CarefulRun(doc, edits)
    ensures Consistent(Run(doc, edits))
  {
    hide Consistent, Careless, After;
    if edits != [] {
      var n := |edits| - 1;
      assert forall m :: 0 <= m < n ==> edits[..n][..m] == edits[..m];
      RunsKeepConsistent(doc, edits[..n]);
      EditKeepsIff(Run(doc, edits[..n]), edits[n]);
    }
  }
}
