/** Refreshing one subscription: merge, mark what is gone, reorder, repair the active node. */
module SubscriptionRefresh {
  import opened Text
  import opened ProfileModel
  import opened FreshIds
  import opened NodeMerge
  import opened NodeMergeFacts
  import opened ProviderOrder

  function Tag(node: Node, p: string, url: string): Node {
    node.(source := node.source.(kind := SUBSCRIPTION, providerKey := p, url := url))
  }

  function Tagged(incoming: seq<Node>, p: string, url: string): seq<Node> {
    seq(|incoming|, i requires 0 <= i < |incoming| => Tag(incoming[i], p, url))
  }

  /** A provider node whose key did not come in. */
  predicate Gone(node: Node, p: string, seen: set<string>) {
    IsProviderNode(node, p) && NodeMatchKey(node) !in seen
  }

  function Mark(node: Node, p: string, seen: set<string>): Node {
    if Gone(node, p, seen) then node.(stale := true) else node
  }

  function Marked(nodes: seq<Node>, p: string, seen: set<string>): seq<Node> {
    seq(|nodes|, i requires 0 <= i < |nodes| => Mark(nodes[i], p, seen))
  }

  /** How many nodes marking turns stale. */
  function NewlyStale(nodes: seq<Node>, p: string, seen: set<string>): nat {
    if nodes == [] then 0
    else
      var last := nodes[|nodes| - 1];
      NewlyStale(nodes[..|nodes| - 1], p, seen) + (if Gone(last, p, seen) && !last.stale then 1 else 0)
  }

  function Repaired(nodes: seq<Node>, active: string): string {
    if active == "" || !NamesLive(nodes, active) then FirstLiveId(nodes) else active
  }

  /** The list after merging, marking and reordering. */
  function RefreshedNodes(stored: seq<Node>, p: string, tagged: seq<Node>): seq<Node> {
    Reordered(Marked(Absorbed(stored, tagged).nodes, p, NonBlank(Keys(tagged))), p, Distinct(Keys(tagged)))
  }

  function Refreshed(current: Document, sub: Subscription, incoming: seq<Node>): (Document, Stats) {
    var p := Trim(sub.providerKey);
    if p == "" then (current, Stats(0, 0, 0, 0))
    else
      var tagged := Tagged(incoming, p, Trim(sub.url));
      var (next, stats) := Merged(current, tagged);
      var nodes := RefreshedNodes(current.nodes, p, tagged);
      (next.(nodes := nodes, activeNodeId := Repaired(nodes, next.activeNodeId)),
       stats.(stale := NewlyStale(next.nodes, p, NonBlank(Keys(tagged)))))
  }

  lemma MergedStale(current: Document, incoming: seq<Node>)
    ensures Merged(current, incoming).1.stale == 0
    ensures Merged(current, incoming).0.nodes == Absorbed(current.nodes, incoming).nodes
  {
    hide Keys, AbsorbAll, UsedIds, NonBlank;
    KeysLength(current.nodes);
    AbsorbAllBalanced(KeyIndex(Keys(current.nodes)), current.nodes, incoming);
  }

  lemma NewlyStaleStep(nodes: seq<Node>, i: nat, p: string, seen: set<string>)
    requires i < |nodes|
    ensures NewlyStale(nodes[..i + 1], p, seen) ==
            NewlyStale(nodes[..i], p, seen) + (if Gone(nodes[i], p, seen) && !nodes[i].stale then 1 else 0)
  {
    hide Gone;
    assert nodes[..i + 1][..i] == nodes[..i];
  }

  method MarkGone(merged: seq<Node>, p: string, seen: set<string>) returns (nodes: seq<Node>, stale: nat)
    ensures nodes == Marked(merged, p, seen) && stale == NewlyStale(merged, p, seen)
  {
    hide NodeMatchKey, IsProviderNode;
    nodes, stale := merged, 0;
    for i := 0 to |merged|
      invariant |nodes| == |merged|
      invariant forall j :: 0 <= j < |nodes| ==> nodes[j] == if j < i then Mark(merged[j], p, seen) else merged[j]
      invariant stale == NewlyStale(merged[..i], p, seen)
    {
      NewlyStaleStep(merged, i, p, seen);
      var node := merged[i];
      if !IsProviderNode(node, p) {
        continue;
      }
      if NodeMatchKey(node) in seen {
        continue;
      }
      if !node.stale {
        stale := stale + 1;
      }
      nodes := nodes[i := nodes[i].(stale := true)];
    }
    assert merged[..|merged|] == merged;
  }

  method MergeSubscriptionNodes(current: Document, subscription: Subscription, incoming: array<Node>)
    returns (next: Document, stats: Stats)
    modifies incoming
    ensures (next, stats) == Refreshed(current, subscription, old(incoming[..]))
    ensures incoming[..] == if Trim(subscription.providerKey) == "" then old(incoming[..])
                            else Tagged(old(incoming[..]), Trim(subscription.providerKey), Trim(subscription.url))
  {
    hide NodeMatchKey, Trim, Merged, Reordered, Distinct, Marked, NewlyStale, NamesLive, FirstLiveId, Absorbed, Keys;
    var p, url := Trim(subscription.providerKey), Trim(subscription.url);
    if p == "" {
      return current, Stats(0, 0, 0, 0);
    }
    ghost var before := incoming[..];
    for i := 0 to incoming.Length
      invariant forall j :: 0 <= j < incoming.Length ==>
                  incoming[j] == if j < i then Tag(before[j], p, url) else before[j]
    {
      incoming[i] := incoming[i].(source := incoming[i].source.(kind := SUBSCRIPTION));
      incoming[i] := incoming[i].(source := incoming[i].source.(providerKey := p));
      incoming[i] := incoming[i].(source := incoming[i].source.(url := url));
    }
    var tagged := incoming[..];
    assert tagged == Tagged(before, p, url);
    next, stats := MergeNodes(current, tagged);
    MergedStale(current, tagged);
    var incomingOrder := OrderedNodeMatchKeys(tagged);
    var seenIncoming: set<string> := {};
    KeysLast(tagged[..0]);
    for i := 0 to |tagged|
      invariant incoming[..] == tagged
      invariant seenIncoming == NonBlank(Keys(tagged[..i]))
    {
      KeysLast(tagged[..i + 1]);
      assert tagged[..i + 1][..i] == tagged[..i];
      NonBlankStep(Keys(tagged[..i]), NodeMatchKey(tagged[i]));
      var key := NodeMatchKey(tagged[i]);
      if key != "" {
        seenIncoming := seenIncoming + {key};
      }
    }
    assert tagged[..|tagged|] == tagged;
    var marked, stale := MarkGone(next.nodes, p, seenIncoming);
    stats := stats.(stale := stats.stale + stale);
    var nodes := ReorderProviderNodes(marked, p, incomingOrder);
    var active := next.activeNodeId;
    var live := NameLive(nodes, active);
    if active == "" || !live {
      active := FindFirstLive(nodes);
    }
    next := next.(nodes := nodes, activeNodeId := active);
  }
}
