/** What each edit leaves of a document, place by place. */
module EditOutcomes {
  import opened ProfileModel
  import opened NodeMerge
  import opened MergeFields
  import opened ProfileEdits

  /** Activation succeeds exactly for the ID of a live node, and touches nothing else. */
  lemma ActivationMeans(doc: Document, id: string)
    ensures match Activated(doc, id)
            case Edited(after) => after == doc.(activeNodeId := id) && exists i :: 0 <= i < |doc.nodes| && doc.nodes[i].id == id && !doc.nodes[i].stale
            case Rejected => forall i :: 0 <= i < |doc.nodes| && doc.nodes[i].id == id ==> doc.nodes[i].stale
  {
  }

  /** The node takes the place of the first one with its ID, or the place behind the last; every other
      node and field stays, but for an active ID that was blank while the node is live. */
  lemma UpsertMeans(doc: Document, node: Node, k: nat)
    requires node.id != "" && k <= |doc.nodes| && forall i :: 0 <= i < k ==> doc.nodes[i].id != node.id
    requires k == |doc.nodes| || doc.nodes[k].id == node.id
    ensures Upserted(doc, node) ==
            Edited(doc.(nodes := if k < |doc.nodes| then doc.nodes[k := node] else doc.nodes + [node],
                        activeNodeId := if doc.activeNodeId == "" && !node.stale then node.id else doc.activeNodeId))
  {
    hide HasId, Placed;
    NoneBefore(doc.nodes, k, node.id);
    if k < |doc.nodes| {
      PlacedHere(doc.nodes, k, node);
    } else {
      assert doc.nodes[..k] == doc.nodes;
      PlacedAt(doc.nodes, node);
    }
  }

  lemma NoneBefore(nodes: seq<Node>, k: nat, id: string)
    requires k <= |nodes| && forall i :: 0 <= i < k ==> nodes[i].id != id
    ensures !HasId(nodes[..k], id)
  {
  }

  lemma BlankIsRejected(doc: Document, node: Node)
    ensures Upserted(doc, node).Rejected? <==> node.id == ""
    ensures Removed(doc, node.id).Rejected? <==> node.id == "" || forall i :: 0 <= i < |doc.nodes| ==> doc.nodes[i].id != node.id
  {
    hide Without, FirstLiveId;
  }

  /** How many of the first i nodes have another ID. */
  function OthersBefore(nodes: seq<Node>, id: string, i: nat): nat
    requires i <= |nodes|
  {
    if i == 0 then 0 else OthersBefore(nodes, id, i - 1) + if nodes[i - 1].id == id then 0 else 1
  }

  lemma {:induction false} OthersFront(nodes: seq<Node>, id: string, n: nat, i: nat)
    requires i <= n <= |nodes|
    ensures OthersBefore(nodes[..n], id, i) == OthersBefore(nodes, id, i)
  {
    if i > 0 { OthersFront(nodes, id, n, i - 1); }
  }

  lemma {:induction false} OthersCount(nodes: seq<Node>, id: string)
    ensures |Without(nodes, id)| == OthersBefore(nodes, id, |nodes|)
  {
    if nodes != [] {
      OthersCount(nodes[..|nodes| - 1], id);
      OthersFront(nodes, id, |nodes| - 1, |nodes| - 1);
    }
  }

  lemma {:induction false} OthersStay(nodes: seq<Node>, id: string, i: nat)
    requires i < |nodes| && nodes[i].id != id
    ensures OthersBefore(nodes, id, i) < |Without(nodes, id)| && Without(nodes, id)[OthersBefore(nodes, id, i)] == nodes[i]
  {
    var n := |nodes| - 1;
    OthersCount(nodes[..n], id);
    OthersFront(nodes, id, n, n);
    if i < n {
      OthersStay(nodes[..n], id, i);
      OthersFront(nodes, id, n, i);
    }
  }

  /** Removal takes out all nodes with the ID and keeps the others in their order. If one of them was
      active, the first live node that is left takes over, or none. */
  lemma RemovalMeans(doc: Document, id: string)
    requires Removed(doc, id).Edited?
    ensures var after := Removed(doc, id).doc;
            && after == doc.(nodes := after.nodes, activeNodeId := after.activeNodeId)
            && |after.nodes| == OthersBefore(doc.nodes, id, |doc.nodes|)
            && (forall i :: 0 <= i < |doc.nodes| && doc.nodes[i].id != id ==>
                  OthersBefore(doc.nodes, id, i) < |after.nodes| && after.nodes[OthersBefore(doc.nodes, id, i)] == doc.nodes[i])
            && (doc.activeNodeId != id ==> after.activeNodeId == doc.activeNodeId)
            && (doc.activeNodeId == id ==> FirstLiveTakesOver(after))
  {
    hide Without, HasId, FirstLiveId;
    var after := Removed(doc, id).doc;
    OthersCount(doc.nodes, id);
    forall i | 0 <= i < |doc.nodes| && doc.nodes[i].id != id
      ensures OthersBefore(doc.nodes, id, i) < |after.nodes| && after.nodes[OthersBefore(doc.nodes, id, i)] == doc.nodes[i]
    {
      OthersStay(doc.nodes, id, i);
    }
    FirstLiveIsFirst(after.nodes);
  }

  ghost predicate FirstLiveTakesOver(doc: Document) {
    if forall n :: n in doc.nodes ==> n.stale then doc.activeNodeId == ""
    else exists i :: 0 <= i < |doc.nodes| && !doc.nodes[i].stale && doc.nodes[i].id == doc.activeNodeId && forall j :: 0 <= j < i ==> doc.nodes[j].stale
  }

  /** An intent sets what it states and leaves the rest. */
  lemma IntentMeans(doc: Document, intent: Intent)
    ensures var after := Intended(doc, intent);
            && after == doc.(runtime := after.runtime, activeNodeId := after.activeNodeId)
            && (intent.backendKind == "" ==> after.runtime.backendKind == doc.runtime.backendKind)
            && (intent.backendKind != "" ==> after.runtime.backendKind == intent.backendKind)
            && (intent.fallbackPolicy == "" ==> after.runtime.fallbackPolicy == doc.runtime.fallbackPolicy)
            && (intent.fallbackPolicy != "" ==> after.runtime.fallbackPolicy == intent.fallbackPolicy)
            && (intent.activeProfileId == "" ==> after.activeNodeId == doc.activeNodeId)
            && (intent.activeProfileId != "" ==> after.activeNodeId == intent.activeProfileId)
  {
  }
}
