/** Merging imported nodes into the stored list. */
module NodeMerge {
  import opened Text
  import opened ProfileModel
  import opened FreshIds

  datatype Stats = Stats(added: nat, updated: nat, same: nat, stale: nat)

  /** For each non-blank key the last position that holds it. */
  function KeyIndex(keys: seq<string>): (index: map<string, nat>)
    ensures index.Keys == NonBlank(keys)
    ensures forall k :: k in index ==> index[k] < |keys| && keys[index[k]] == k
  {
    if keys == [] then map[]
    else
      var n := |keys| - 1;
      assert keys == keys[..n] + [keys[n]];
      NonBlankStep(keys[..n], keys[n]);
      var index := KeyIndex(keys[..n]);
      if keys[n] == "" then index else index[keys[n] := n]
  }

  /** What a match leaves in place: the incoming node under the stored identity, name and group. */
  function Updated(existing: Node, node: Node): Node {
    node.(id := existing.id,
          name := FirstNonEmpty([existing.name, node.name]),
          group := FirstNonEmpty([existing.group, node.group]),
          createdAt := existing.createdAt)
  }

  /** Where a merge stands: the list, the IDs in use, the keys seen, the counts and the node to activate. */
  datatype Progress = Progress(nodes: seq<Node>, used: set<string>, seen: set<string>, stats: Stats, picked: string)

  function Start(nodes: seq<Node>): Progress {
    Progress(nodes, UsedIds(nodes), {}, Stats(0, 0, 0, 0), "")
  }

  predicate Within(index: map<string, nat>, n: nat) {
    forall k :: k in index ==> index[k] < n
  }

  function Pick(picked: string, node: Node): string {
    if picked == "" && !node.stale then node.id else picked
  }

  function Absorb(index: map<string, nat>, p: Progress, node: Node): (r: Progress)
    requires Within(index, |p.nodes|)
    ensures |r.nodes| >= |p.nodes|
  {
    var key := NodeMatchKey(node);
    if key == "" || key in p.seen then p
    else if key in index then
      var existing := p.nodes[index[key]];
      var merged := Updated(existing, node);
      p.(nodes := p.nodes[index[key] := merged],
         seen := p.seen + {key},
         stats := if existing.outbound == node.outbound then p.stats.(same := p.stats.same + 1)
                  else p.stats.(updated := p.stats.updated + 1),
         picked := Pick(p.picked, merged))
    else
      var added := node.(id := ImportedId(node, p.used));
      p.(nodes := p.nodes + [added],
         used := p.used + {added.id},
         seen := p.seen + {key},
         stats := p.stats.(added := p.stats.added + 1),
         picked := Pick(p.picked, added))
  }

  function AbsorbAll(index: map<string, nat>, p: Progress, incoming: seq<Node>): (r: Progress)
    requires Within(index, |p.nodes|)
    ensures |r.nodes| >= |p.nodes|
  {
    if incoming == [] then p
    else Absorb(index, AbsorbAll(index, p, incoming[..|incoming| - 1]), incoming[|incoming| - 1])
  }

  function FirstLiveId(nodes: seq<Node>): string {
    if nodes == [] then "" else if !nodes[0].stale then nodes[0].id else FirstLiveId(nodes[1..])
  }

  /** Whether the first node with that ID is there and live. */
  predicate NamesLive(nodes: seq<Node>, id: string) {
    nodes != [] && (if nodes[0].id == id then !nodes[0].stale else NamesLive(nodes[1..], id))
  }

  function ActiveAfter(nodes: seq<Node>, picked: string, active: string): string {
    if picked != "" then picked
    else if active == "" || !NamesLive(nodes, active) then FirstLiveId(nodes)
    else active
  }

  function Absorbed(nodes: seq<Node>, incoming: seq<Node>): (r: Progress)
    ensures |r.nodes| >= |nodes|
  {
    AbsorbAll(KeyIndex(Keys(nodes)), Start(nodes), incoming)
  }

  function Merged(current: Document, incoming: seq<Node>): (Document, Stats) {
    var p := Absorbed(current.nodes, incoming);
    (current.(nodes := p.nodes, activeNodeId := ActiveAfter(p.nodes, p.picked, current.activeNodeId)), p.stats)
  }

  method IndexNodes(nodes: seq<Node>) returns (byKey: map<string, nat>, usedIds: set<string>)
    ensures byKey == KeyIndex(Keys(nodes)) && usedIds == UsedIds(nodes)
  {
    hide Trim, NodeMatchKey, UsedIds, TrimmedIds, KeyIndex, Keys;
    byKey, usedIds := map[], {};
    NoIds();
    NoKeys();
    for i := 0 to |nodes|
      invariant byKey == KeyIndex(Keys(nodes[..i]))
      invariant usedIds == UsedIds(nodes[..i])
    {
      assert nodes[..i + 1] == nodes[..i] + [nodes[i]];
      UsedIdsStep(nodes[..i], nodes[i]);
      var id := Trim(nodes[i].id);
      if id != "" {
        usedIds := usedIds + {id};
      }
      KeyIndexStep(nodes, i);
      var key := NodeMatchKey(nodes[i]);
      if key != "" {
        byKey := byKey[key := i];
      }
    }
    assert nodes[..|nodes|] == nodes;
  }

  lemma NoKeys()
    ensures KeyIndex(Keys([])) == map[]
  {
  }

  lemma KeyIndexStep(nodes: seq<Node>, i: nat)
    requires i < |nodes|
    ensures KeyIndex(Keys(nodes[..i + 1])) ==
            if NodeMatchKey(nodes[i]) == "" then KeyIndex(Keys(nodes[..i])) else KeyIndex(Keys(nodes[..i]))[NodeMatchKey(nodes[i]) := i]
  {
    hide NodeMatchKey;
    assert Keys(nodes[..i + 1])[..i] == Keys(nodes[..i]);
  }

  method FindFirstLive(nodes: seq<Node>) returns (id: string)
    ensures id == FirstLiveId(nodes)
  {
    for i := 0 to |nodes|
      invariant FirstLiveId(nodes) == FirstLiveId(nodes[i..])
    {
      if !nodes[i].stale {
        return nodes[i].id;
      }
      assert nodes[i..][1..] == nodes[i + 1..];
    }
    return "";
  }

  method NameLive(nodes: seq<Node>, id: string) returns (live: bool)
    ensures live == NamesLive(nodes, id)
  {
    for i := 0 to |nodes|
      invariant NamesLive(nodes, id) == NamesLive(nodes[i..], id)
    {
      if nodes[i].id == id {
        return !nodes[i].stale;
      }
      assert nodes[i..][1..] == nodes[i + 1..];
    }
    return false;
  }

  method MergeNodes(current: Document, incoming: seq<Node>) returns (next: Document, stats: Stats)
    ensures (next, stats) == Merged(current, incoming)
  {
    hide NodeMatchKey, FirstNonEmpty, ImportedId, UsedIds, KeyIndex, Keys, AbsorbAll, NonBlank, NamesLive, FirstLiveId;
    var byKey, usedIds := IndexNodes(current.nodes);
    ghost var start := Start(current.nodes);
    var nodes, seen, picked := current.nodes, {}, "";
    stats := Stats(0, 0, 0, 0);
    KeysLength(current.nodes);
    AbsorbNone(byKey, start, incoming);
    for i := 0 to |incoming|
      invariant Within(byKey, |current.nodes|)
      invariant Progress(nodes, usedIds, seen, stats, picked) == AbsorbAll(byKey, start, incoming[..i])
    {
      AbsorbStep(byKey, start, incoming, i);
      var node := incoming[i];
      var key := NodeMatchKey(node);
      if key == "" || key in seen {
        continue;
      }
      seen := seen + {key};
      if key in byKey {
        var existing := nodes[byKey[key]];
        node := node.(id := existing.id);
        node := node.(name := FirstNonEmpty([existing.name, node.name]));
        node := node.(group := FirstNonEmpty([existing.group, node.group]));
        node := node.(createdAt := existing.createdAt);
        if existing.outbound == node.outbound {
          stats := stats.(same := stats.same + 1);
        } else {
          stats := stats.(updated := stats.updated + 1);
        }
        nodes := nodes[byKey[key] := node];
      } else {
        stats := stats.(added := stats.added + 1);
        var id := UniqueImportedNodeID(node, usedIds);
        node := node.(id := id);
        usedIds := usedIds + {id};
        nodes := nodes + [node];
      }
      if picked == "" && !node.stale {
        picked := node.id;
      }
    }
    assert incoming[..|incoming|] == incoming;
    var active := current.activeNodeId;
    if picked != "" {
      active := picked;
    } else {
      var live := NameLive(nodes, active);
      if active == "" || !live {
        active := FindFirstLive(nodes);
      }
    }
    next := current.(nodes := nodes, activeNodeId := active);
  }

  lemma AbsorbNone(index: map<string, nat>, p: Progress, incoming: seq<Node>)
    requires Within(index, |p.nodes|)
    ensures AbsorbAll(index, p, incoming[..0]) == p
  {
  }

  lemma AbsorbStep(index: map<string, nat>, p: Progress, incoming: seq<Node>, i: nat)
    requires Within(index, |p.nodes|) && i < |incoming|
    ensures AbsorbAll(index, p, incoming[..i + 1]) == Absorb(index, AbsorbAll(index, p, incoming[..i]), incoming[i])
  {
    hide Absorb;
    assert incoming[..i + 1][..i] == incoming[..i];
  }

  lemma KeysLength(nodes: seq<Node>)
    ensures |Keys(nodes)| == |nodes|
  {
  }
}
