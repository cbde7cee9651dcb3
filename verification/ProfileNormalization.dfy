/** Bringing a profile document into normal form, or refusing it. */
module ProfileNormalization {
  import opened Text
  import opened SortedStrings
  import opened ProfileModel
  import opened NodeMerge

  const CURRENT_SCHEMA := 2

  /** The checks that normalisation takes from elsewhere, and the time it runs at. */
  datatype Checks = Checks(
    validPackage: string -> bool, validJson: string -> bool, disallowedHost: string -> bool, now: int)

  datatype Problem =
    | SchemaTooNew | AllowLan | BadSocksPort | BadHttpPort
    | DuplicateId(i: nat) | BadPackage(i: nat) | BadJson(i: nat) | BadNodePort(i: nat)
    | NoSourceType(i: nat) | StaleManual(i: nat) | NoProviderKey(i: nat) | LocalServer(i: nat) | BadSourceType(i: nat)
    | NoSubscriptionKey(i: nat) | NoSubscriptionUrl(i: nat) | UnknownProvider(i: nat)

  datatype Verdict = Fine | Bad(problem: Problem)

  datatype Warning = ActiveNodeRepaired(missing: string, selected: string)

  datatype Outcome = Accepted(doc: Document, warnings: seq<Warning>) | Refused(problem: Problem)

  function Default(value: string, fallback: string): string {
    FirstNonEmpty([Trim(value), fallback])
  }

  function DefaultInt(value: int, fallback: int): int {
    if value == 0 then fallback else value
  }

  function TidyScalars(doc: Document): Document {
    doc.(
      id := Default(doc.id, "default"),
      name := Default(doc.name, "Default"),
      runtime := Runtime(Default(doc.runtime.backendKind, "ROOT_TPROXY"), Default(doc.runtime.fallbackPolicy, "OFFER_RESET")),
      routing := doc.routing.(mode := Default(doc.routing.mode, "PROXY_ALL")),
      dns := doc.dns.(
        remoteDns := Default(doc.dns.remoteDns, "https://1.1.1.1/dns-query"),
        directDns := Default(doc.dns.directDns, "https://dns.google/dns-query"),
        bootstrapIp := Default(doc.dns.bootstrapIp, "1.1.1.1"),
        ipv6Mode := Default(doc.dns.ipv6Mode, "MIRROR")),
      health := doc.health.(
        intervalSec := DefaultInt(doc.health.intervalSec, 30),
        threshold := DefaultInt(doc.health.threshold, 3),
        timeoutSec := DefaultInt(doc.health.timeoutSec, 5),
        checkUrl := if doc.health.checkUrl == "" then "https://www.gstatic.com/generate_204" else doc.health.checkUrl),
      tun := doc.tun.(
        mtu := DefaultInt(doc.tun.mtu, 9000),
        ipv4Address := if doc.tun.ipv4Address == "" then "172.19.0.1/30" else doc.tun.ipv4Address))
  }

  predicate ValidPort(port: int, zeroAllowed: bool) {
    (zeroAllowed && port == 0) || 1 <= port <= 65535
  }

  // Nodes.

  function TidyId(node: Node, i: nat): string {
    if Trim(node.id) == "" then "node-" + Decimal(i + 1) else Trim(node.id)
  }

  function TidyNode(node: Node, i: nat, c: Checks): Node {
    var kind := Upper(Trim(node.source.kind));
    node.(
      id := TidyId(node, i),
      protocol := NormalizeProtocol(node.protocol),
      server := Trim(node.server),
      name := FirstNonEmpty([Trim(node.name), Trim(node.server), TidyId(node, i)]),
      group := Default(node.group, "Default"),
      ownerPackage := Trim(node.ownerPackage),
      createdAt := DefaultInt(node.createdAt, c.now),
      outbound := if Trim(node.outbound) == "" then "{}" else node.outbound,
      source := if kind == SUBSCRIPTION
                then node.source.(kind := kind, url := Trim(node.source.url), providerKey := Trim(node.source.providerKey))
                else node.source.(kind := kind))
  }

  /** What is wrong with node i, given the IDs before it; the first complaint in the order of the checks. */
  function NodeVerdict(node: Node, i: nat, seen: seq<string>, c: Checks): Verdict {
    var t := TidyNode(node, i, c);
    if t.id in seen then Bad(DuplicateId(i))
    else if t.ownerPackage != "" && !c.validPackage(t.ownerPackage) then Bad(BadPackage(i))
    else if Trim(node.outbound) != "" && !c.validJson(node.outbound) then Bad(BadJson(i))
    else if !ValidPort(node.port, false) then Bad(BadNodePort(i))
    else if t.source.kind == "" then Bad(NoSourceType(i))
    else if t.source.kind == "MANUAL" then (if node.stale then Bad(StaleManual(i)) else Fine)
    else if t.source.kind == SUBSCRIPTION then
      if t.source.providerKey == "" then Bad(NoProviderKey(i))
      else if c.disallowedHost(t.server) then Bad(LocalServer(i))
      else Fine
    else Bad(BadSourceType(i))
  }

  function TidyNodes(nodes: seq<Node>, c: Checks): seq<Node> {
    seq(|nodes|, i requires 0 <= i < |nodes| => TidyNode(nodes[i], i, c))
  }

  function NodesVerdict(nodes: seq<Node>, c: Checks): Verdict {
    if nodes == [] then Fine
    else
      var n := |nodes| - 1;
      if NodesVerdict(nodes[..n], c).Bad? then NodesVerdict(nodes[..n], c)
      else NodeVerdict(nodes[n], n, Ids(TidyNodes(nodes[..n], c)), c)
  }

  // Subscriptions.

  function TidySub(sub: Subscription): Subscription {
    sub.(providerKey := Trim(sub.providerKey), url := Trim(sub.url), name := Trim(sub.name))
  }

  function TidySubs(subs: seq<Subscription>): seq<Subscription> {
    seq(|subs|, i requires 0 <= i < |subs| => TidySub(subs[i]))
  }

  function SubsVerdict(subs: seq<Subscription>): Verdict {
    if subs == [] then Fine
    else
      var n := |subs| - 1;
      if SubsVerdict(subs[..n]).Bad? then SubsVerdict(subs[..n])
      else if Trim(subs[n].providerKey) == "" then Bad(NoSubscriptionKey(n))
      else if Trim(subs[n].url) == "" then Bad(NoSubscriptionUrl(n))
      else Fine
  }

  function ProviderKeys(subs: seq<Subscription>): seq<string> {
    seq(|subs|, i requires 0 <= i < |subs| => subs[i].providerKey)
  }

  function ProvidersVerdict(nodes: seq<Node>, providers: seq<string>): Verdict {
    if nodes == [] then Fine
    else
      var n := |nodes| - 1;
      if ProvidersVerdict(nodes[..n], providers).Bad? then ProvidersVerdict(nodes[..n], providers)
      else if nodes[n].source.kind == SUBSCRIPTION && nodes[n].source.providerKey !in providers then Bad(UnknownProvider(n))
      else Fine
  }

  /** Subscription nodes of one provider, live or stale. */
  function CountNodes(nodes: seq<Node>, key: string, stale: bool): nat {
    if nodes == [] then 0
    else
      var last := nodes[|nodes| - 1];
      CountNodes(nodes[..|nodes| - 1], key, stale)
      + (if last.source.kind == SUBSCRIPTION && last.source.providerKey == key && last.stale == stale then 1 else 0)
  }

  predicate Keyed(sub: Subscription) {
    Trim(sub.providerKey) != "" && Trim(sub.url) != ""
  }

  /** The last usable entry for each provider key, trimmed. */
  function LatestSubs(subs: seq<Subscription>): map<string, Subscription> {
    if subs == [] then map[]
    else
      var latest, sub := LatestSubs(subs[..|subs| - 1]), subs[|subs| - 1];
      if Keyed(sub) then latest[Trim(sub.providerKey) := sub.(providerKey := Trim(sub.providerKey), url := Trim(sub.url))]
      else latest
  }

  function KeyedKeys(subs: seq<Subscription>): seq<string> {
    if subs == [] then []
    else
      var front, sub := KeyedKeys(subs[..|subs| - 1]), subs[|subs| - 1];
      if Keyed(sub) then front + [Trim(sub.providerKey)] else front
  }

  lemma {:induction false} LatestHasKeys(subs: seq<Subscription>)
    ensures forall k :: k in LatestSubs(subs) <==> k in KeyedKeys(subs)
    ensures forall k :: k in LatestSubs(subs) ==> LatestSubs(subs)[k].providerKey == k && k != ""
  {
    hide Trim;
    if subs != [] { LatestHasKeys(subs[..|subs| - 1]); }
  }

  function Counted(sub: Subscription, nodes: seq<Node>): Subscription {
    sub.(lastSeenNodeCount := CountNodes(nodes, sub.providerKey, false), staleNodeCount := CountNodes(nodes, sub.providerKey, true))
  }

  function NormalSubs(subs: seq<Subscription>, nodes: seq<Node>): seq<Subscription> {
    var keys, latest := SortedSet(KeyedKeys(subs)), LatestSubs(subs);
    SortedSetFacts(KeyedKeys(subs));
    LatestHasKeys(subs);
    seq(|keys|, i requires 0 <= i < |keys| && (forall k :: k in keys ==> k in latest) => Counted(latest[keys[i]], nodes))
  }

  // The whole document.

  function LiveIds(nodes: seq<Node>): set<string> {
    set n | n in nodes && !n.stale :: n.id
  }

  function WithActive(doc: Document): Outcome {
    if doc.activeNodeId != "" && doc.activeNodeId !in LiveIds(doc.nodes) then
      var selected := FirstLiveId(doc.nodes);
      Accepted(doc.(activeNodeId := selected), [ActiveNodeRepaired(doc.activeNodeId, selected)])
    else Accepted(doc, [])
  }

  function Finished(outcome: Outcome): Outcome {
    match outcome
    case Accepted(doc, warnings) => Accepted(doc.(subscriptions := NormalSubs(doc.subscriptions, doc.nodes)), warnings)
    case Refused(_) => outcome
  }

  function Normalized(document: Document, c: Checks): Outcome {
    var doc := document.(schemaVersion := DefaultInt(document.schemaVersion, CURRENT_SCHEMA));
    if doc.schemaVersion > CURRENT_SCHEMA then Refused(SchemaTooNew)
    else if doc.inbounds.allowLan then Refused(AllowLan)
    else if !ValidPort(doc.inbounds.socksPort, true) then Refused(BadSocksPort)
    else if !ValidPort(doc.inbounds.httpPort, true) then Refused(BadHttpPort)
    else if NodesVerdict(doc.nodes, c).Bad? then Refused(NodesVerdict(doc.nodes, c).problem)
    else if SubsVerdict(doc.subscriptions).Bad? then Refused(SubsVerdict(doc.subscriptions).problem)
    else
      var nodes, subs := TidyNodes(doc.nodes, c), TidySubs(doc.subscriptions);
      var providers := ProvidersVerdict(nodes, ProviderKeys(subs));
      if providers.Bad? then Refused(providers.problem)
      else Finished(WithActive(TidyScalars(doc).(nodes := nodes, subscriptions := subs)))
  }

  // The loops.

  method TidyAllNodes(nodes: seq<Node>, c: Checks) returns (tidy: seq<Node>, verdict: Verdict)
    ensures verdict == NodesVerdict(nodes, c)
    ensures verdict.Fine? ==> tidy == TidyNodes(nodes, c)
  {
    hide TidyNode, NodeVerdict;
    tidy := [];
    var seen: set<string> := {};
    for i := 0 to |nodes|
      invariant tidy == TidyNodes(nodes[..i], c)
      invariant seen == set id | id in Ids(tidy)
      invariant NodesVerdict(nodes[..i], c) == Fine
    {
      verdict := CheckNode(nodes[i], i, Ids(tidy), seen, c);
      NodesVerdictStep(nodes, i, c);
      if verdict.Bad? {
        return;
      }
      var node := TidyNode(nodes[i], i, c);
      assert Ids(tidy + [node]) == Ids(tidy) + [node.id];
      seen := seen + {node.id};
      tidy := tidy + [node];
    }
    assert nodes[..|nodes|] == nodes;
    verdict := Fine;
  }

  method CheckNode(node: Node, i: nat, ghost before: seq<string>, seen: set<string>, c: Checks) returns (verdict: Verdict)
    requires seen == set id | id in before
    ensures verdict == NodeVerdict(node, i, before, c)
  {
    hide Trim, Upper, NormalizeProtocol, FirstNonEmpty, TidyId;
    var t := TidyNode(node, i, c);
    if t.id in seen {
      return Bad(DuplicateId(i));
    }
    if t.ownerPackage != "" && !c.validPackage(t.ownerPackage) {
      return Bad(BadPackage(i));
    }
    if Trim(node.outbound) != "" && !c.validJson(node.outbound) {
      return Bad(BadJson(i));
    }
    if !ValidPort(node.port, false) {
      return Bad(BadNodePort(i));
    }
    if t.source.kind == "" {
      return Bad(NoSourceType(i));
    }
    if t.source.kind == "MANUAL" {
      return if node.stale then Bad(StaleManual(i)) else Fine;
    }
    if t.source.kind != SUBSCRIPTION {
      return Bad(BadSourceType(i));
    }
    if t.source.providerKey == "" {
      return Bad(NoProviderKey(i));
    }
    return if c.disallowedHost(t.server) then Bad(LocalServer(i)) else Fine;
  }

  lemma NodesVerdictStep(nodes: seq<Node>, i: nat, c: Checks)
    requires i < |nodes| && NodesVerdict(nodes[..i], c).Fine?
    ensures NodesVerdict(nodes[..i + 1], c) == NodeVerdict(nodes[i], i, Ids(TidyNodes(nodes[..i], c)), c)
    ensures TidyNodes(nodes[..i + 1], c) == TidyNodes(nodes[..i], c) + [TidyNode(nodes[i], i, c)]
    ensures NodeVerdict(nodes[i], i, Ids(TidyNodes(nodes[..i], c)), c).Bad? ==>
              NodesVerdict(nodes, c) == NodesVerdict(nodes[..i + 1], c)
  {
    hide TidyNode, NodeVerdict;
    assert nodes[..i + 1][..i] == nodes[..i];
    if NodeVerdict(nodes[i], i, Ids(TidyNodes(nodes[..i], c)), c).Bad? { BadStaysBad(nodes, i + 1, c); }
  }

  lemma {:induction false} BadStaysBad(nodes: seq<Node>, n: nat, c: Checks)
    requires n <= |nodes| && NodesVerdict(nodes[..n], c).Bad?
    ensures NodesVerdict(nodes, c) == NodesVerdict(nodes[..n], c)
  {
    hide NodeVerdict, TidyNodes;
    if n == |nodes| {
      assert nodes[..n] == nodes;
    } else {
      assert nodes[..|nodes| - 1][..n] == nodes[..n];
      BadStaysBad(nodes[..|nodes| - 1], n, c);
    }
  }

  lemma CountStep(nodes: seq<Node>, i: nat, key: string, stale: bool)
    requires i < |nodes|
    ensures CountNodes(nodes[..i + 1], key, stale) == CountNodes(nodes[..i], key, stale)
            + (if nodes[i].source.kind == SUBSCRIPTION && nodes[i].source.providerKey == key && nodes[i].stale == stale then 1 else 0)
  {
    assert nodes[..i + 1][..i] == nodes[..i];
  }

  ghost predicate CountedMap(byKey: map<string, Subscription>, latest: map<string, Subscription>, nodes: seq<Node>) {
    byKey.Keys == latest.Keys && forall k :: k in latest ==> byKey[k] == Counted(latest[k], nodes)
  }

  method LatestByKey(subs: seq<Subscription>) returns (byKey: map<string, Subscription>)
    ensures CountedMap(byKey, LatestSubs(subs), [])
  {
    hide Trim, CountNodes;
    byKey := map[];
    NoNodesCounted();
    for i := 0 to |subs|
      invariant CountedMap(byKey, LatestSubs(subs[..i]), [])
    {
      assert subs[..i + 1][..i] == subs[..i];
      var sub := subs[i].(providerKey := Trim(subs[i].providerKey), url := Trim(subs[i].url));
      if sub.providerKey == "" || sub.url == "" {
        continue;
      }
      sub := sub.(lastSeenNodeCount := 0);
      sub := sub.(staleNodeCount := 0);
      byKey := byKey[sub.providerKey := sub];
    }
    assert subs[..|subs|] == subs;
  }

  lemma CountedStep(byKey: map<string, Subscription>, latest: map<string, Subscription>, nodes: seq<Node>, i: nat)
    requires i < |nodes| && CountedMap(byKey, latest, nodes[..i]) && "" !in latest
    requires forall k :: k in latest ==> latest[k].providerKey == k
    ensures var node, key := nodes[i], nodes[i].source.providerKey;
            if node.source.kind != SUBSCRIPTION || key == "" || key !in byKey then CountedMap(byKey, latest, nodes[..i + 1])
            else
              var sub := byKey[key];
              sub.providerKey == key
              && CountedMap(byKey[key := if node.stale then sub.(staleNodeCount := sub.staleNodeCount + 1)
                                         else sub.(lastSeenNodeCount := sub.lastSeenNodeCount + 1)], latest, nodes[..i + 1])
  {
    hide CountNodes;
    forall k ensures CountNodes(nodes[..i + 1], k, true) == CountNodes(nodes[..i], k, true)
                  + (if nodes[i].source.kind == SUBSCRIPTION && nodes[i].source.providerKey == k && nodes[i].stale then 1 else 0)
             ensures CountNodes(nodes[..i + 1], k, false) == CountNodes(nodes[..i], k, false)
                  + (if nodes[i].source.kind == SUBSCRIPTION && nodes[i].source.providerKey == k && !nodes[i].stale then 1 else 0)
    {
      CountStep(nodes, i, k, true);
      CountStep(nodes, i, k, false);
    }
  }

  method CountByKey(start: map<string, Subscription>, ghost latest: map<string, Subscription>, nodes: seq<Node>)
    returns (byKey: map<string, Subscription>)
    requires CountedMap(start, latest, []) && "" !in latest && forall k :: k in latest ==> latest[k].providerKey == k
    ensures CountedMap(byKey, latest, nodes)
  {
    hide CountedMap;
    byKey := start;
    assert nodes[..0] == [];
    for i := 0 to |nodes|
      invariant CountedMap(byKey, latest, nodes[..i])
    {
      CountedStep(byKey, latest, nodes, i);
      var node, key := nodes[i], nodes[i].source.providerKey;
      if node.source.kind != SUBSCRIPTION || key == "" {
        continue;
      }
      if key !in byKey {
        continue;
      }
      var sub := byKey[key];
      if node.stale {
        sub := sub.(staleNodeCount := sub.staleNodeCount + 1);
      } else {
        sub := sub.(lastSeenNodeCount := sub.lastSeenNodeCount + 1);
      }
      byKey := byKey[sub.providerKey := sub];
    }
    assert nodes[..|nodes|] == nodes;
  }

  method NormalizeSubscriptions(subs: seq<Subscription>, nodes: seq<Node>) returns (result: seq<Subscription>)
    ensures result == NormalSubs(subs, nodes)
  {
    hide Trim, SortedSet, Sorted, CountNodes, LatestSubs, KeyedKeys;
    LatestHasKeys(subs);
    var byKey := LatestByKey(subs);
    byKey := CountByKey(byKey, LatestSubs(subs), nodes);
    var keys := SortKeys(byKey.Keys);
    SortedSetFacts(KeyedKeys(subs));
    SortedUnique(keys, SortedSet(KeyedKeys(subs)));
    result := [];
    for i := 0 to |keys|
      invariant result == NormalSubs(subs, nodes)[..i]
      invariant |NormalSubs(subs, nodes)| == |keys|
    {
      assert keys[i] in keys;
      result := result + [byKey[keys[i]]];
    }
  }

  lemma NoNodesCounted()
    ensures forall key, stale :: CountNodes([], key, stale) == 0
  {
  }

  method Normalize(document: Document, c: Checks) returns (outcome: Outcome)
    ensures outcome == Normalized(document, c)
  {
    hide TidyScalars, TidyNodes, NodesVerdict, SubsVerdict, ProvidersVerdict, NormalSubs, Trim, FirstLiveId;
    var doc := document.(schemaVersion := DefaultInt(document.schemaVersion, CURRENT_SCHEMA));
    if doc.schemaVersion > CURRENT_SCHEMA {
      return Refused(SchemaTooNew);
    }
    doc := TidyScalars(doc);
    TidyScalarsKeeps(document.(schemaVersion := DefaultInt(document.schemaVersion, CURRENT_SCHEMA)));
    if doc.inbounds.allowLan {
      return Refused(AllowLan);
    }
    if !ValidPort(doc.inbounds.socksPort, true) {
      return Refused(BadSocksPort);
    }
    if !ValidPort(doc.inbounds.httpPort, true) {
      return Refused(BadHttpPort);
    }
    var nodes, verdict := TidyAllNodes(doc.nodes, c);
    if verdict.Bad? {
      return Refused(verdict.problem);
    }
    var subs, subsVerdict := TidyAllSubs(doc.subscriptions);
    if subsVerdict.Bad? {
      return Refused(subsVerdict.problem);
    }
    var providers := CheckProviders(nodes, subs);
    if providers.Bad? {
      return Refused(providers.problem);
    }
    doc := doc.(nodes := nodes, subscriptions := subs);
    var live: set<string> := {};
    for i := 0 to |nodes|
      invariant live == LiveIds(nodes[..i])
    {
      assert nodes[..i + 1] == nodes[..i] + [nodes[i]];
      if !nodes[i].stale {
        live := live + {nodes[i].id};
      }
    }
    assert nodes[..|nodes|] == nodes;
    var warnings: seq<Warning> := [];
    if doc.activeNodeId != "" && doc.activeNodeId !in live {
      var selected := FindFirstLive(nodes);
      warnings := [ActiveNodeRepaired(doc.activeNodeId, selected)];
      doc := doc.(activeNodeId := selected);
    }
    var normal := NormalizeSubscriptions(doc.subscriptions, doc.nodes);
    outcome := Accepted(doc.(subscriptions := normal), warnings);
  }

  lemma TidyScalarsKeeps(doc: Document)
    ensures TidyScalars(doc) == TidyScalars(doc).(
              schemaVersion := doc.schemaVersion, activeNodeId := doc.activeNodeId, nodes := doc.nodes,
              subscriptions := doc.subscriptions, inbounds := doc.inbounds)
  {
    hide Default;
  }

  method TidyAllSubs(subs: seq<Subscription>) returns (tidy: seq<Subscription>, verdict: Verdict)
    ensures verdict == SubsVerdict(subs) && (verdict.Fine? ==> tidy == TidySubs(subs))
  {
    hide Trim, SubsVerdict;
    tidy := [];
    NoSubsFine();
    for i := 0 to |subs|
      invariant tidy == TidySubs(subs[..i]) && SubsVerdict(subs[..i]) == Fine
    {
      SubsVerdictStep(subs, i);
      var sub := TidySub(subs[i]);
      if sub.providerKey == "" || sub.url == "" {
        SubsStayBad(subs, i + 1);
        return tidy, if sub.providerKey == "" then Bad(NoSubscriptionKey(i)) else Bad(NoSubscriptionUrl(i));
      }
      tidy := tidy + [sub];
    }
    assert subs[..|subs|] == subs;
    verdict := Fine;
  }

  lemma NoSubsFine()
    ensures SubsVerdict([]).Fine?
  {
  }

  lemma SubsVerdictStep(subs: seq<Subscription>, i: nat)
    requires i < |subs| && SubsVerdict(subs[..i]).Fine?
    ensures SubsVerdict(subs[..i + 1]) ==
            if Trim(subs[i].providerKey) == "" then Bad(NoSubscriptionKey(i)) else if Trim(subs[i].url) == "" then Bad(NoSubscriptionUrl(i)) else Fine
  {
    hide Trim;
    assert subs[..i + 1][..i] == subs[..i];
  }

  lemma {:induction false} SubsStayBad(subs: seq<Subscription>, n: nat)
    requires n <= |subs| && SubsVerdict(subs[..n]).Bad?
    ensures SubsVerdict(subs) == SubsVerdict(subs[..n])
  {
    hide Trim;
    if n == |subs| {
      assert subs[..n] == subs;
    } else {
      assert subs[..|subs| - 1][..n] == subs[..n];
      SubsStayBad(subs[..|subs| - 1], n);
    }
  }

  method CheckProviders(nodes: seq<Node>, subs: seq<Subscription>) returns (verdict: Verdict)
    ensures verdict == ProvidersVerdict(nodes, ProviderKeys(subs))
  {
    var known := set i | 0 <= i < |subs| :: subs[i].providerKey;
    assert forall k :: k in known <==> k in ProviderKeys(subs) by {
      forall k | k in ProviderKeys(subs) ensures k in known {
        var i :| 0 <= i < |ProviderKeys(subs)| && ProviderKeys(subs)[i] == k;
        assert subs[i].providerKey == k;
      }
      forall k | k in known ensures k in ProviderKeys(subs) {
        var i :| 0 <= i < |subs| && subs[i].providerKey == k;
        assert ProviderKeys(subs)[i] == k;
      }
    }
    for i := 0 to |nodes|
      invariant ProvidersVerdict(nodes[..i], ProviderKeys(subs)) == Fine
    {
      assert nodes[..i + 1][..i] == nodes[..i];
      if nodes[i].source.kind == SUBSCRIPTION && nodes[i].source.providerKey !in known {
        ProvidersStayBad(nodes, i + 1, ProviderKeys(subs));
        return Bad(UnknownProvider(i));
      }
    }
    assert nodes[..|nodes|] == nodes;
    verdict := Fine;
  }

  lemma {:induction false} ProvidersStayBad(nodes: seq<Node>, n: nat, providers: seq<string>)
    requires n <= |nodes| && ProvidersVerdict(nodes[..n], providers).Bad?
    ensures ProvidersVerdict(nodes, providers) == ProvidersVerdict(nodes[..n], providers)
  {
    if n == |nodes| {
      assert nodes[..n] == nodes;
    } else {
      assert nodes[..|nodes| - 1][..n] == nodes[..n];
      ProvidersStayBad(nodes[..|nodes| - 1], n, providers);
    }
  }
}
