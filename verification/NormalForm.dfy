/** What normalisation refuses and in which order, and what the normal form holds field by field. */
module NormalForm {
  import opened Text
  import opened SortedStrings
  import opened ProfileModel
  import opened NodeMerge
  import opened ProfileNormalization
  import opened MergeFields

  /** A stated value, trimmed, or the fallback for a blank one. */
  function Or(value: string, fallback: string): string {
    if Trim(value) == "" then fallback else Trim(value)
  }

  lemma DefaultMeans(value: string, fallback: string)
    requires Trimmed(fallback)
    ensures Default(value, fallback) == Or(value, fallback)
  {
    hide Trim;
    TwoNames(Trim(value), fallback);
    TrimFixed(Trim(value));
    TrimFixed(fallback);
  }

  // Settings.

  lemma FallbacksAreTrimmed()
    ensures Trimmed("default") && Trimmed("Default") && Trimmed("ROOT_TPROXY") && Trimmed("OFFER_RESET") && Trimmed("PROXY_ALL")
    ensures Trimmed("https://1.1.1.1/dns-query") && Trimmed("https://dns.google/dns-query") && Trimmed("1.1.1.1") && Trimmed("MIRROR")
  {
  }

  /** The settings of an accepted document are the given ones, with the daemon's defaults for what is blank or zero. */
  lemma NormalSettings(document: Document, c: Checks)
    requires Normalized(document, c).Accepted?
    ensures var doc := Normalized(document, c).doc;
            && doc.schemaVersion == (if document.schemaVersion == 0 then 2 else document.schemaVersion)
            && doc.id == Or(document.id, "default") && doc.name == Or(document.name, "Default")
            && doc.runtime == Runtime(Or(document.runtime.backendKind, "ROOT_TPROXY"), Or(document.runtime.fallbackPolicy, "OFFER_RESET"))
            && doc.routing == document.routing.(mode := Or(document.routing.mode, "PROXY_ALL"))
            && doc.sharing == document.sharing && doc.inbounds == document.inbounds && doc.extra == document.extra
    ensures var doc := Normalized(document, c).doc;
            doc.dns == Dns(Or(document.dns.remoteDns, "https://1.1.1.1/dns-query"), Or(document.dns.directDns, "https://dns.google/dns-query"),
                           Or(document.dns.bootstrapIp, "1.1.1.1"), Or(document.dns.ipv6Mode, "MIRROR"), document.dns.fakeDns)
    ensures var health, given := Normalized(document, c).doc.health, document.health;
            && health.intervalSec == (if given.intervalSec == 0 then 30 else given.intervalSec)
            && health.threshold == (if given.threshold == 0 then 3 else given.threshold)
            && health.timeoutSec == (if given.timeoutSec == 0 then 5 else given.timeoutSec)
            && health.checkUrl == (if given.checkUrl == "" then "https://www.gstatic.com/generate_204" else given.checkUrl)
            && health.enabled == given.enabled && health.dnsProbeDomains == given.dnsProbeDomains
            && health.egressUrls == given.egressUrls && health.dnsIsHardReadiness == given.dnsIsHardReadiness
    ensures var tun, given := Normalized(document, c).doc.tun, document.tun;
            tun == Tun(given.enabled, if given.mtu == 0 then 9000 else given.mtu,
                       if given.ipv4Address == "" then "172.19.0.1/30" else given.ipv4Address, given.flags)
  {
    hide Default, Or, Trim, Trimmed, TidyNodes, NodesVerdict, SubsVerdict, ProvidersVerdict, NormalSubs, TidySubs, FirstLiveId, ValidPort,
         ProviderKeys, LiveIds;
    FallbacksAreTrimmed();
    DefaultMeans(document.id, "default");
    DefaultMeans(document.name, "Default");
    DefaultMeans(document.runtime.backendKind, "ROOT_TPROXY");
    DefaultMeans(document.runtime.fallbackPolicy, "OFFER_RESET");
    DefaultMeans(document.routing.mode, "PROXY_ALL");
    DefaultMeans(document.dns.remoteDns, "https://1.1.1.1/dns-query");
    DefaultMeans(document.dns.directDns, "https://dns.google/dns-query");
    DefaultMeans(document.dns.bootstrapIp, "1.1.1.1");
    DefaultMeans(document.dns.ipv6Mode, "MIRROR");
  }

  // Nodes.

  /** The ID that node i goes under: its own, trimmed, or one made of its position. */
  function IdAt(node: Node, i: nat): string {
    Or(node.id, "node-" + Decimal(i + 1))
  }

  function KindOf(node: Node): string {
    Upper(Trim(node.source.kind))
  }

  /** What a protocol name stands for. */
  ghost predicate NamesProtocol(name: string, protocol: string) {
    var p := Lower(Trim(name));
    && (p == "ss" ==> protocol == "shadowsocks")
    && (p == "socks4" || p == "socks4a" || p == "socks5" ==> protocol == "socks")
    && (p == "hy2" ==> protocol == "hysteria2")
    && (p == "wg" ==> protocol == "wireguard")
    && (p !in ["ss", "socks4", "socks4a", "socks5", "hy2", "wg"] ==> protocol == p)
  }

  /** Node i in normal form. */
  ghost predicate Tidied(after: Node, given: Node, i: nat, c: Checks) {
    && after.id == IdAt(given, i)
    && after.name == (if Trim(given.name) != "" then Trim(given.name) else Or(given.server, IdAt(given, i)))
    && NamesProtocol(given.protocol, after.protocol)
    && after.server == Trim(given.server) && after.port == given.port && after.link == given.link
    && after.group == Or(given.group, "Default") && after.ownerPackage == Trim(given.ownerPackage)
    && after.createdAt == (if given.createdAt == 0 then c.now else given.createdAt)
    && after.outbound == (if Trim(given.outbound) == "" then "{}" else given.outbound)
    && after.stale == given.stale && after.extra == given.extra
    && after.source.kind == KindOf(given) && after.source.lastSeenAt == given.source.lastSeenAt
    && after.source.url == (if KindOf(given) == SUBSCRIPTION then Trim(given.source.url) else given.source.url)
    && after.source.providerKey == (if KindOf(given) == SUBSCRIPTION then Trim(given.source.providerKey) else given.source.providerKey)
  }

  lemma TidyNodeMeans(node: Node, i: nat, c: Checks)
    ensures Tidied(TidyNode(node, i, c), node, i, c)
  {
    hide Trim, Upper, Lower, Decimal, Default, FirstNonEmpty, Trimmed;
    TidyIdTrimmed(node, i);
    ThreeNames(Trim(node.name), Trim(node.server), TidyId(node, i));
    TrimFixed(Trim(node.name));
    TrimFixed(Trim(node.server));
    TrimFixed(TidyId(node, i));
    FallbacksAreTrimmed();
    DefaultMeans(node.group, "Default");
  }

  lemma TidyIdTrimmed(node: Node, i: nat)
    ensures TidyId(node, i) == IdAt(node, i) && Trimmed(TidyId(node, i))
  {
    hide Trim, Decimal;
    var d := Decimal(i + 1);
    assert d[|d| - 1] in d;
  }

  lemma AcceptedParts(document: Document, c: Checks)
    requires Normalized(document, c).Accepted?
    ensures var r, nodes := Normalized(document, c), TidyNodes(document.nodes, c);
            && r.doc.nodes == nodes && r.doc.subscriptions == NormalSubs(TidySubs(document.subscriptions), nodes)
            && NodesVerdict(document.nodes, c).Fine? && SubsVerdict(document.subscriptions).Fine?
            && if document.activeNodeId != "" && document.activeNodeId !in LiveIds(nodes)
               then r.doc.activeNodeId == FirstLiveId(nodes) && r.warnings == [ActiveNodeRepaired(document.activeNodeId, FirstLiveId(nodes))]
               else r.doc.activeNodeId == document.activeNodeId && r.warnings == []
  {
    hide TidyNodes, NodesVerdict, SubsVerdict, ProvidersVerdict, NormalSubs, TidySubs, FirstLiveId, ValidPort, ProviderKeys, LiveIds, Default,
         DefaultInt;
  }

  /** The nodes of an accepted document are the given ones in their order, each in normal form. */
  lemma NormalNodes(document: Document, c: Checks)
    requires Normalized(document, c).Accepted?
    ensures var nodes := Normalized(document, c).doc.nodes;
            |nodes| == |document.nodes| && forall i :: 0 <= i < |nodes| ==> Tidied(nodes[i], document.nodes[i], i, c)
  {
    hide TidyNode, Tidied, Normalized, NodesVerdict, SubsVerdict, TidySubs, NormalSubs, FirstLiveId, LiveIds;
    AcceptedParts(document, c);
    forall i | 0 <= i < |document.nodes| ensures Tidied(TidyNode(document.nodes[i], i, c), document.nodes[i], i, c) {
      TidyNodeMeans(document.nodes[i], i, c);
    }
  }

  /** The active node is kept if it is blank or the ID of a live node, without a word; otherwise the
      first live node takes its place, or none, and a warning says so. */
  lemma NormalActive(document: Document, c: Checks)
    requires Normalized(document, c).Accepted?
    ensures var r := Normalized(document, c);
            if document.activeNodeId == "" || exists i :: 0 <= i < |r.doc.nodes| && !r.doc.nodes[i].stale && r.doc.nodes[i].id == document.activeNodeId
            then r.doc.activeNodeId == document.activeNodeId && r.warnings == []
            else r.warnings == [ActiveNodeRepaired(document.activeNodeId, r.doc.activeNodeId)]
                 && if forall n :: n in r.doc.nodes ==> n.stale then r.doc.activeNodeId == ""
                    else exists i :: 0 <= i < |r.doc.nodes| && !r.doc.nodes[i].stale && r.doc.nodes[i].id == r.doc.activeNodeId
                                     && forall j :: 0 <= j < i ==> r.doc.nodes[j].stale
  {
    hide TidyNodes, Normalized, NodesVerdict, SubsVerdict, TidySubs, NormalSubs, FirstLiveId;
    AcceptedParts(document, c);
    FirstLiveIsFirst(Normalized(document, c).doc.nodes);
    LiveIdsMean(Normalized(document, c).doc.nodes, document.activeNodeId);
  }

  lemma LiveIdsMean(nodes: seq<Node>, id: string)
    ensures id in LiveIds(nodes) <==> exists i :: 0 <= i < |nodes| && !nodes[i].stale && nodes[i].id == id
  {
  }

  // Subscriptions.

  /** The places of a provider's live, or stale, subscription nodes. */
  function PlacesOf(nodes: seq<Node>, key: string, stale: bool): set<nat> {
    set i: nat | i < |nodes| && nodes[i].source.kind == "SUBSCRIPTION" && nodes[i].source.providerKey == key && nodes[i].stale == stale
  }

  lemma OneMorePlace(nodes: seq<Node>, n: nat, key: string, stale: bool)
    requires |nodes| == n + 1
    ensures var front, last := PlacesOf(nodes[..n], key, stale), nodes[n];
            && n !in front
            && PlacesOf(nodes, key, stale) ==
               front + if last.source.kind == "SUBSCRIPTION" && last.source.providerKey == key && last.stale == stale then {n} else {}
  {
    assert forall i: nat :: i < n ==> nodes[..n][i] == nodes[i];
  }

  lemma NoPlaces(key: string, stale: bool)
    ensures PlacesOf([], key, stale) == {}
  {
  }

  lemma {:induction false} CountsPlaces(nodes: seq<Node>, key: string, stale: bool)
    ensures CountNodes(nodes, key, stale) == |PlacesOf(nodes, key, stale)|
  {
    hide PlacesOf;
    if nodes == [] {
      NoPlaces(key, stale);
    } else {
      CountsPlaces(nodes[..|nodes| - 1], key, stale);
      OneMorePlace(nodes, |nodes| - 1, key, stale);
    }
  }

  lemma FineFront(subs: seq<Subscription>)
    requires subs != [] && SubsVerdict(subs).Fine?
    ensures var n := |subs| - 1; SubsVerdict(subs[..n]).Fine? && Trim(subs[n].providerKey) != "" && Trim(subs[n].url) != ""
  {
    hide Trim;
  }

  lemma LatestWith(front: seq<Subscription>, sub: Subscription)
    requires Trim(sub.providerKey) != "" && Trim(sub.url) != ""
    ensures LatestSubs(front + [sub]) == LatestSubs(front)[Trim(sub.providerKey) := sub.(providerKey := Trim(sub.providerKey), url := Trim(sub.url))]
  {
    hide Trim;
    assert (front + [sub])[..|front|] == front;
  }

  lemma TidyEnds(subs: seq<Subscription>)
    requires subs != []
    ensures TidySubs(subs) == TidySubs(subs[..|subs| - 1]) + [TidySub(subs[|subs| - 1])]
  {
    hide TidySub;
  }

  lemma LatestGrows(subs: seq<Subscription>)
    requires subs != [] && SubsVerdict(subs).Fine?
    ensures var n, key := |subs| - 1, Trim(subs[|subs| - 1].providerKey);
            SubsVerdict(subs[..n]).Fine?
            && LatestSubs(TidySubs(subs)) ==
               LatestSubs(TidySubs(subs[..n]))[key := subs[n].(providerKey := key, url := Trim(subs[n].url), name := Trim(subs[n].name))]
  {
    hide Trim, LatestSubs, SubsVerdict, TidySubs, Trimmed;
    var n := |subs| - 1;
    FineFront(subs);
    TidyEnds(subs);
    TrimFixed(Trim(subs[n].providerKey));
    TrimFixed(Trim(subs[n].url));
    LatestWith(TidySubs(subs[..n]), TidySub(subs[n]));
  }

  lemma {:induction false} LatestIsLast(subs: seq<Subscription>, j: nat)
    requires j < |subs| && SubsVerdict(subs).Fine?
    requires forall m :: j < m < |subs| ==> Trim(subs[m].providerKey) != Trim(subs[j].providerKey)
    ensures var latest, key := LatestSubs(TidySubs(subs)), Trim(subs[j].providerKey);
            key in latest && latest[key] == subs[j].(providerKey := key, url := Trim(subs[j].url), name := Trim(subs[j].name))
  {
    hide Trim, SubsVerdict, LatestSubs, TidySubs;
    var n := |subs| - 1;
    LatestGrows(subs);
    if j < n {
      assert forall m :: j < m < n ==> subs[..n][m] == subs[m];
      LatestIsLast(subs[..n], j);
    }
  }

  /** What is made of a subscription entry whose provider has no later one: the given entry, trimmed,
      with the provider's live and stale nodes counted anew. */
  ghost predicate Recounted(after: Subscription, given: Subscription, nodes: seq<Node>) {
    var key := Trim(given.providerKey);
    after == given.(providerKey := key, url := Trim(given.url), name := Trim(given.name),
                    lastSeenNodeCount := |PlacesOf(nodes, key, false)|, staleNodeCount := |PlacesOf(nodes, key, true)|)
  }

  lemma EntryKept(given: seq<Subscription>, nodes: seq<Node>, j: nat) returns (i: nat)
    requires j < |given| && SubsVerdict(given).Fine?
    requires forall m :: j < m < |given| ==> Trim(given[m].providerKey) != Trim(given[j].providerKey)
    ensures var subs := NormalSubs(TidySubs(given), nodes); i < |subs| && Recounted(subs[i], given[j], nodes)
  {
    hide Trim, SubsVerdict, LatestSubs, KeyedKeys, TidySubs, SortedSet, CountNodes, PlacesOf;
    var tidy, key := TidySubs(given), Trim(given[j].providerKey);
    LatestIsLast(given, j);
    LatestHasKeys(tidy);
    SortedSetFacts(KeyedKeys(tidy));
    CountsPlaces(nodes, key, false);
    CountsPlaces(nodes, key, true);
    i :| 0 <= i < |SortedSet(KeyedKeys(tidy))| && SortedSet(KeyedKeys(tidy))[i] == key;
  }

  lemma EntryGiven(given: seq<Subscription>, nodes: seq<Node>, i: nat) returns (j: nat)
    requires i < |NormalSubs(TidySubs(given), nodes)|
    ensures j < |given| && Trim(given[j].providerKey) == NormalSubs(TidySubs(given), nodes)[i].providerKey
  {
    hide Trim, LatestSubs, KeyedKeys, SortedSet, CountNodes;
    var tidy := TidySubs(given);
    LatestHasKeys(tidy);
    SortedSetFacts(KeyedKeys(tidy));
    var key := SortedSet(KeyedKeys(tidy))[i];
    assert NormalSubs(tidy, nodes)[i].providerKey == key;
    j := KeysAreGiven(tidy, key);
    TrimFixed(Trim(given[j].providerKey));
  }

  lemma EntriesSorted(given: seq<Subscription>, nodes: seq<Node>)
    ensures Sorted(ProviderKeys(NormalSubs(TidySubs(given), nodes)))
  {
    hide Trim, LatestSubs, KeyedKeys, SortedSet, CountNodes, Less, TidySubs;
    var tidy := TidySubs(given);
    LatestHasKeys(tidy);
    SortedSetFacts(KeyedKeys(tidy));
    assert ProviderKeys(NormalSubs(tidy, nodes)) == SortedSet(KeyedKeys(tidy));
  }

  /** A given entry whose provider has no later one is in the normal form, trimmed and recounted. */
  lemma NormalEntryKept(document: Document, c: Checks, j: nat) returns (i: nat)
    requires Normalized(document, c).Accepted?
    requires j < |document.subscriptions|
    requires forall m :: j < m < |document.subscriptions| ==>
               Trim(document.subscriptions[m].providerKey) != Trim(document.subscriptions[j].providerKey)
    ensures var doc := Normalized(document, c).doc;
            i < |doc.subscriptions| && Recounted(doc.subscriptions[i], document.subscriptions[j], doc.nodes)
  {
    hide TidyNodes, Normalized, NodesVerdict, SubsVerdict, TidySubs, NormalSubs, FirstLiveId, Recounted, Trim, LiveIds;
    AcceptedParts(document, c);
    i := EntryKept(document.subscriptions, Normalized(document, c).doc.nodes, j);
  }

  /** Nothing else is in it: every entry carries the key of a given one, and the keys increase. */
  lemma NormalEntryGiven(document: Document, c: Checks, i: nat) returns (j: nat)
    requires Normalized(document, c).Accepted? && i < |Normalized(document, c).doc.subscriptions|
    ensures Sorted(ProviderKeys(Normalized(document, c).doc.subscriptions))
    ensures j < |document.subscriptions|
    ensures Trim(document.subscriptions[j].providerKey) == Normalized(document, c).doc.subscriptions[i].providerKey
  {
    hide TidyNodes, Normalized, NodesVerdict, SubsVerdict, TidySubs, NormalSubs, FirstLiveId, Trim, LiveIds, Sorted, ProviderKeys;
    AcceptedParts(document, c);
    EntriesSorted(document.subscriptions, Normalized(document, c).doc.nodes);
    j := EntryGiven(document.subscriptions, Normalized(document, c).doc.nodes, i);
  }

  lemma {:induction false} KeysAreGiven(subs: seq<Subscription>, key: string) returns (j: nat)
    requires key in KeyedKeys(subs)
    ensures j < |subs| && Trim(subs[j].providerKey) == key
  {
    hide Trim;
    var n := |subs| - 1;
    if key in KeyedKeys(subs[..n]) {
      j := KeysAreGiven(subs[..n], key);
    } else {
      j := n;
    }
  }

  // Refusals.

  /** What speaks against a document. */
  ghost predicate NodeComplaint(nodes: seq<Node>, c: Checks, p: Problem) {
    match p
    case DuplicateId(i) => i < |nodes| && exists j :: 0 <= j < i && IdAt(nodes[j], j) == IdAt(nodes[i], i)
    case BadPackage(i) => i < |nodes| && Trim(nodes[i].ownerPackage) != "" && !c.validPackage(Trim(nodes[i].ownerPackage))
    case BadJson(i) => i < |nodes| && Trim(nodes[i].outbound) != "" && !c.validJson(nodes[i].outbound)
    case BadNodePort(i) => i < |nodes| && !(1 <= nodes[i].port <= 65535)
    case NoSourceType(i) => i < |nodes| && KindOf(nodes[i]) == ""
    case StaleManual(i) => i < |nodes| && KindOf(nodes[i]) == "MANUAL" && nodes[i].stale
    case NoProviderKey(i) => i < |nodes| && KindOf(nodes[i]) == "SUBSCRIPTION" && Trim(nodes[i].source.providerKey) == ""
    case LocalServer(i) => i < |nodes| && KindOf(nodes[i]) == "SUBSCRIPTION" && c.disallowedHost(Trim(nodes[i].server))
    case BadSourceType(i) => i < |nodes| && KindOf(nodes[i]) !in ["", "MANUAL", "SUBSCRIPTION"]
    case _ => false
  }

  ghost predicate SubComplaint(subs: seq<Subscription>, p: Problem) {
    match p
    case NoSubscriptionKey(i) => i < |subs| && Trim(subs[i].providerKey) == ""
    case NoSubscriptionUrl(i) => i < |subs| && Trim(subs[i].url) == ""
    case _ => false
  }

  ghost predicate ProviderComplaint(nodes: seq<Node>, subs: seq<Subscription>, p: Problem) {
    match p
    case UnknownProvider(i) =>
      i < |nodes| && KindOf(nodes[i]) == "SUBSCRIPTION"
      && forall j :: 0 <= j < |subs| ==> Trim(subs[j].providerKey) != Trim(nodes[i].source.providerKey)
    case _ => false
  }

  ghost predicate Complaint(document: Document, c: Checks, p: Problem) {
    || (p == SchemaTooNew && document.schemaVersion > 2)
    || (p == AllowLan && document.inbounds.allowLan)
    || (p == BadSocksPort && !(0 <= document.inbounds.socksPort <= 65535))
    || (p == BadHttpPort && !(0 <= document.inbounds.httpPort <= 65535))
    || NodeComplaint(document.nodes, c, p)
    || SubComplaint(document.subscriptions, p)
    || ProviderComplaint(document.nodes, document.subscriptions, p)
  }

  /** Where a complaint comes in the order of the checks: the stage, the place in its list, the check. */
  datatype Turn = Turn(stage: nat, place: nat, check: nat)

  function TurnOf(p: Problem): Turn {
    match p
    case SchemaTooNew => Turn(0, 0, 0)
    case AllowLan => Turn(1, 0, 0)
    case BadSocksPort => Turn(2, 0, 0)
    case BadHttpPort => Turn(3, 0, 0)
    case DuplicateId(i) => Turn(4, i, 0)
    case BadPackage(i) => Turn(4, i, 1)
    case BadJson(i) => Turn(4, i, 2)
    case BadNodePort(i) => Turn(4, i, 3)
    case NoSourceType(i) => Turn(4, i, 4)
    case StaleManual(i) => Turn(4, i, 5)
    case NoProviderKey(i) => Turn(4, i, 6)
    case LocalServer(i) => Turn(4, i, 7)
    case BadSourceType(i) => Turn(4, i, 8)
    case NoSubscriptionKey(i) => Turn(5, i, 0)
    case NoSubscriptionUrl(i) => Turn(5, i, 1)
    case UnknownProvider(i) => Turn(6, i, 0)
  }

  predicate Earlier(p: Problem, q: Problem) {
    var a, b := TurnOf(p), TurnOf(q);
    a.stage < b.stage || (a.stage == b.stage && (a.place < b.place || (a.place == b.place && a.check < b.check)))
  }

  /** What there is to say against node i, in terms of its normal form. */
  lemma NodeComplains(nodes: seq<Node>, i: nat, c: Checks)
    requires i < |nodes|
    ensures var node, t := nodes[i], TidyNode(nodes[i], i, c);
            && (NodeComplaint(nodes, c, DuplicateId(i)) <==> t.id in Ids(TidyNodes(nodes[..i], c)))
            && (NodeComplaint(nodes, c, BadPackage(i)) <==> t.ownerPackage != "" && !c.validPackage(t.ownerPackage))
            && (NodeComplaint(nodes, c, BadJson(i)) <==> Trim(node.outbound) != "" && !c.validJson(node.outbound))
            && (NodeComplaint(nodes, c, BadNodePort(i)) <==> !ValidPort(node.port, false))
  {
    hide Trim, TidyNode, Or, Decimal, KindOf, IdAt, NamesProtocol, TidyNodes, Ids;
    TidyNodeMeans(nodes[i], i, c);
    SeenIds(nodes, i, c);
  }

  lemma SourceComplains(nodes: seq<Node>, i: nat, c: Checks)
    requires i < |nodes|
    ensures var node, t := nodes[i], TidyNode(nodes[i], i, c);
            && (NodeComplaint(nodes, c, NoSourceType(i)) <==> t.source.kind == "")
            && (NodeComplaint(nodes, c, StaleManual(i)) <==> t.source.kind == "MANUAL" && node.stale)
            && (NodeComplaint(nodes, c, NoProviderKey(i)) <==> t.source.kind == SUBSCRIPTION && t.source.providerKey == "")
            && (NodeComplaint(nodes, c, LocalServer(i)) <==> t.source.kind == SUBSCRIPTION && c.disallowedHost(t.server))
            && (NodeComplaint(nodes, c, BadSourceType(i)) <==> t.source.kind != "" && t.source.kind != "MANUAL" && t.source.kind != SUBSCRIPTION)
  {
    hide Trim, TidyNode, Or, Decimal, KindOf, IdAt, NamesProtocol;
    TidyNodeMeans(nodes[i], i, c);
  }

  lemma NodeProblems(nodes: seq<Node>, i: nat, c: Checks, p: Problem)
    requires NodeComplaint(nodes, c, p) && TurnOf(p).place == i
    ensures p in [DuplicateId(i), BadPackage(i), BadJson(i), BadNodePort(i), NoSourceType(i), StaleManual(i), NoProviderKey(i), LocalServer(i),
                  BadSourceType(i)]
  {
    hide Trim, Or, KindOf, IdAt;
  }

  lemma OneNode(nodes: seq<Node>, i: nat, c: Checks)
    requires i < |nodes|
    ensures var verdict := NodeVerdict(nodes[i], i, Ids(TidyNodes(nodes[..i], c)), c);
            && (verdict.Fine? ==> forall p :: NodeComplaint(nodes, c, p) ==> TurnOf(p).place != i)
            && (verdict.Bad? ==> NodeComplaint(nodes, c, verdict.problem) && TurnOf(verdict.problem).place == i)
            && (verdict.Bad? ==> forall p :: NodeComplaint(nodes, c, p) && TurnOf(p).place == i && p != verdict.problem ==> Earlier(verdict.problem, p))
  {
    hide Trim, TidyNode, NodeComplaint, TidyNodes, Ids, ValidPort;
    NodeComplains(nodes, i, c);
    SourceComplains(nodes, i, c);
    forall p | NodeComplaint(nodes, c, p) && TurnOf(p).place == i
      ensures p in [DuplicateId(i), BadPackage(i), BadJson(i), BadNodePort(i), NoSourceType(i), StaleManual(i), NoProviderKey(i), LocalServer(i),
                    BadSourceType(i)]
    {
      NodeProblems(nodes, i, c, p);
    }
  }

  lemma SeenIds(nodes: seq<Node>, i: nat, c: Checks)
    requires i < |nodes|
    ensures IdAt(nodes[i], i) in Ids(TidyNodes(nodes[..i], c)) <==> exists j :: 0 <= j < i && IdAt(nodes[j], j) == IdAt(nodes[i], i)
  {
    hide TidyNode, IdAt, Tidied;
    var ids := Ids(TidyNodes(nodes[..i], c));
    forall j | 0 <= j < i ensures ids[j] == IdAt(nodes[j], j) {
      TidyNodeMeans(nodes[j], j, c);
      TidiedId(TidyNode(nodes[j], j, c), nodes[j], j, c);
    }
  }

  lemma TidiedId(after: Node, given: Node, i: nat, c: Checks)
    requires Tidied(after, given, i, c)
    ensures after.id == IdAt(given, i)
  {
  }

  lemma InFront(nodes: seq<Node>, n: nat, c: Checks, p: Problem)
    requires n <= |nodes|
    ensures NodeComplaint(nodes[..n], c, p) <==> NodeComplaint(nodes, c, p) && TurnOf(p).place < n
  {
    hide Or, Trim, IdAt, KindOf;
  }

  lemma NodeTurns(nodes: seq<Node>, c: Checks, p: Problem)
    ensures NodeComplaint(nodes, c, p) ==> TurnOf(p).stage == 4 && TurnOf(p).place < |nodes|
  {
    hide Or, Trim, IdAt, KindOf;
  }

  lemma {:induction false} NodesVerdictIsFirst(nodes: seq<Node>, c: Checks)
    ensures NodesVerdict(nodes, c).Fine? ==> forall p :: !NodeComplaint(nodes, c, p)
    ensures NodesVerdict(nodes, c).Bad? ==>
              var first := NodesVerdict(nodes, c).problem;
              NodeComplaint(nodes, c, first) && forall p :: NodeComplaint(nodes, c, p) && p != first ==> Earlier(first, p)
  {
    hide NodeComplaint, NodeVerdict, TurnOf, TidyNodes;
    if nodes == [] {
      forall p ensures !NodeComplaint(nodes, c, p) { NodeTurns(nodes, c, p); }
    } else {
      var n := |nodes| - 1;
      NodesVerdictIsFirst(nodes[..n], c);
      OneNode(nodes, n, c);
      forall p
        ensures NodeComplaint(nodes[..n], c, p) <==> NodeComplaint(nodes, c, p) && TurnOf(p).place < n
        ensures NodeComplaint(nodes, c, p) ==> TurnOf(p).stage == 4 && TurnOf(p).place <= n
      {
        InFront(nodes, n, c, p);
        NodeTurns(nodes, c, p);
      }
    }
  }

  lemma SubTurns(subs: seq<Subscription>, p: Problem)
    ensures SubComplaint(subs, p) ==> TurnOf(p).stage == 5 && TurnOf(p).place < |subs|
    ensures SubComplaint(subs, p) ==> p == NoSubscriptionKey(TurnOf(p).place) || p == NoSubscriptionUrl(TurnOf(p).place)
  {
    hide Trim;
  }

  predicate LastLacks(subs: seq<Subscription>, p: Problem)
    requires subs != []
  {
    var n := |subs| - 1;
    (p == NoSubscriptionKey(n) && Trim(subs[n].providerKey) == "") || (p == NoSubscriptionUrl(n) && Trim(subs[n].url) == "")
  }

  /** What the last entry adds to the complaints. */
  lemma LastSub(subs: seq<Subscription>, p: Problem)
    requires subs != []
    ensures var n := |subs| - 1;
            && (SubComplaint(subs, p) ==> SubComplaint(subs[..n], p) || LastLacks(subs, p))
            && (SubComplaint(subs[..n], p) ==> SubComplaint(subs, p) && TurnOf(p).stage == 5 && TurnOf(p).place < n)
  {
    hide Trim;
  }

  lemma {:induction false} SubsVerdictIsFirst(subs: seq<Subscription>)
    ensures SubsVerdict(subs).Fine? ==> forall p :: !SubComplaint(subs, p)
    ensures SubsVerdict(subs).Bad? ==>
              var first := SubsVerdict(subs).problem;
              SubComplaint(subs, first) && forall p :: SubComplaint(subs, p) && p != first ==> Earlier(first, p)
  {
    hide Trim, SubComplaint;
    if subs == [] {
      forall p ensures !SubComplaint(subs, p) { SubTurns(subs, p); }
    } else {
      var n := |subs| - 1;
      SubsVerdictIsFirst(subs[..n]);
      SubComplains(subs, n);
      forall p
        ensures SubComplaint(subs, p) ==> SubComplaint(subs[..n], p) || LastLacks(subs, p)
        ensures SubComplaint(subs[..n], p) ==> SubComplaint(subs, p) && TurnOf(p).stage == 5 && TurnOf(p).place < n
      {
        LastSub(subs, p);
      }
    }
  }

  lemma SubComplains(subs: seq<Subscription>, i: nat)
    requires i < |subs|
    ensures SubComplaint(subs, NoSubscriptionKey(i)) <==> Trim(subs[i].providerKey) == ""
    ensures SubComplaint(subs, NoSubscriptionUrl(i)) <==> Trim(subs[i].url) == ""
  {
    hide Trim;
  }

  lemma KnownProvider(nodes: seq<Node>, subs: seq<Subscription>, i: nat, c: Checks)
    requires i < |nodes|
    ensures var t := TidyNode(nodes[i], i, c);
            ProviderComplaint(nodes, subs, UnknownProvider(i)) <==>
            t.source.kind == SUBSCRIPTION && t.source.providerKey !in ProviderKeys(TidySubs(subs))
  {
    hide Trim, Upper, Or, TidyNode, Decimal;
    TidyNodeMeans(nodes[i], i, c);
    var keys := ProviderKeys(TidySubs(subs));
    assert forall j :: 0 <= j < |subs| ==> keys[j] == Trim(subs[j].providerKey);
  }

  lemma ProviderTurns(nodes: seq<Node>, subs: seq<Subscription>, p: Problem)
    ensures ProviderComplaint(nodes, subs, p) ==> p.UnknownProvider? && p.i < |nodes|
  {
    hide Trim, KindOf;
  }

  lemma ProviderInFront(nodes: seq<Node>, subs: seq<Subscription>, n: nat, i: nat)
    requires i < n <= |nodes|
    ensures ProviderComplaint(nodes[..n], subs, UnknownProvider(i)) <==> ProviderComplaint(nodes, subs, UnknownProvider(i))
  {
    hide Trim, KindOf;
  }

  lemma {:induction false} ProvidersVerdictIsFirst(nodes: seq<Node>, subs: seq<Subscription>, c: Checks)
    ensures var verdict := ProvidersVerdict(TidyNodes(nodes, c), ProviderKeys(TidySubs(subs)));
            && (verdict.Fine? ==> forall i: nat :: !ProviderComplaint(nodes, subs, UnknownProvider(i)))
            && (verdict.Bad? ==> verdict.problem.UnknownProvider? && ProviderComplaint(nodes, subs, verdict.problem))
            && (verdict.Bad? ==> forall i: nat :: ProviderComplaint(nodes, subs, UnknownProvider(i)) ==> verdict.problem.i <= i)
  {
    hide ProviderComplaint, TidyNode, TidySubs, ProviderKeys;
    if nodes == [] {
      forall i: nat ensures !ProviderComplaint(nodes, subs, UnknownProvider(i)) { ProviderTurns(nodes, subs, UnknownProvider(i)); }
    } else {
      var n := |nodes| - 1;
      ProvidersVerdictIsFirst(nodes[..n], subs, c);
      assert TidyNodes(nodes, c)[..n] == TidyNodes(nodes[..n], c);
      KnownProvider(nodes, subs, n, c);
      forall i: nat
        ensures i < n ==> (ProviderComplaint(nodes[..n], subs, UnknownProvider(i)) <==> ProviderComplaint(nodes, subs, UnknownProvider(i)))
        ensures ProviderComplaint(nodes, subs, UnknownProvider(i)) ==> i <= n
        ensures ProviderComplaint(nodes[..n], subs, UnknownProvider(i)) ==> i < n
      {
        ProviderTurns(nodes, subs, UnknownProvider(i));
        ProviderTurns(nodes[..n], subs, UnknownProvider(i));
        if i < n { ProviderInFront(nodes, subs, n, i); }
      }
    }
  }

  lemma StagesApart(document: Document, c: Checks, p: Problem)
    ensures Complaint(document, c, p) ==>
              if TurnOf(p).stage == 4 then NodeComplaint(document.nodes, c, p)
              else if TurnOf(p).stage == 5 then SubComplaint(document.subscriptions, p)
              else if TurnOf(p).stage == 6 then p.UnknownProvider? && ProviderComplaint(document.nodes, document.subscriptions, p)
              else p in [SchemaTooNew, AllowLan, BadSocksPort, BadHttpPort]
  {
    hide NodeComplaint, SubComplaint, ProviderComplaint;
    NodeTurns(document.nodes, c, p);
    SubTurns(document.subscriptions, p);
    ProviderTurns(document.nodes, document.subscriptions, p);
  }

  lemma StagesCount(document: Document, c: Checks, p: Problem)
    ensures NodeComplaint(document.nodes, c, p) ==> Complaint(document, c, p)
    ensures SubComplaint(document.subscriptions, p) ==> Complaint(document, c, p)
    ensures ProviderComplaint(document.nodes, document.subscriptions, p) ==> Complaint(document, c, p)
    ensures Complaint(document, c, SchemaTooNew) <==> document.schemaVersion > 2
    ensures Complaint(document, c, AllowLan) <==> document.inbounds.allowLan
    ensures Complaint(document, c, BadSocksPort) <==> !(0 <= document.inbounds.socksPort <= 65535)
    ensures Complaint(document, c, BadHttpPort) <==> !(0 <= document.inbounds.httpPort <= 65535)
  {
    hide Trim, Or;
  }

  ghost predicate FirstComplaint(document: Document, c: Checks, first: Problem) {
    Complaint(document, c, first) && forall p :: Complaint(document, c, p) && p != first ==> Earlier(first, p)
  }

  lemma OutsideFirst(document: Document, c: Checks, first: Problem)
    requires first in [SchemaTooNew, AllowLan, BadSocksPort, BadHttpPort] && Complaint(document, c, first)
    requires forall p :: p in [SchemaTooNew, AllowLan, BadSocksPort, BadHttpPort] && Complaint(document, c, p) && p != first ==> Earlier(first, p)
    ensures FirstComplaint(document, c, first)
  {
    hide Complaint;
    forall p | Complaint(document, c, p) && p != first ensures Earlier(first, p) {
      StagesApart(document, c, p);
    }
  }

  predicate Outside(document: Document) {
    document.schemaVersion > 2 || document.inbounds.allowLan
    || !(0 <= document.inbounds.socksPort <= 65535) || !(0 <= document.inbounds.httpPort <= 65535)
  }

  lemma RefusedOutside(document: Document, c: Checks)
    requires Outside(document)
    ensures Normalized(document, c).Refused? && FirstComplaint(document, c, Normalized(document, c).problem)
  {
    hide Complaint, NodesVerdict, SubsVerdict, ProvidersVerdict, TidyNodes, TidySubs, ProviderKeys, Finished, WithActive, TidyScalars, FirstComplaint;
    StagesCount(document, c, SchemaTooNew);
    OutsideFirst(document, c, Normalized(document, c).problem);
  }

  lemma Verdicts(document: Document, c: Checks)
    requires !Outside(document)
    ensures var providers := ProvidersVerdict(TidyNodes(document.nodes, c), ProviderKeys(TidySubs(document.subscriptions)));
            if NodesVerdict(document.nodes, c).Bad? then Normalized(document, c) == Refused(NodesVerdict(document.nodes, c).problem)
            else if SubsVerdict(document.subscriptions).Bad? then Normalized(document, c) == Refused(SubsVerdict(document.subscriptions).problem)
            else if providers.Bad? then Normalized(document, c) == Refused(providers.problem)
            else Normalized(document, c).Accepted?
  {
    hide NodesVerdict, SubsVerdict, ProvidersVerdict, TidyNodes, TidySubs, ProviderKeys, TidyScalars, NormalSubs, LiveIds, FirstLiveId;
  }

  lemma RefusedInside(document: Document, c: Checks)
    requires !Outside(document)
    ensures match Normalized(document, c)
            case Accepted(_, _) => forall p :: !Complaint(document, c, p)
            case Refused(first) => FirstComplaint(document, c, first)
  {
    hide Complaint, NodeComplaint, SubComplaint, ProviderComplaint, NodesVerdict, SubsVerdict, ProvidersVerdict, TidyNodes, TidySubs,
         ProviderKeys, Normalized, TurnOf;
    Verdicts(document, c);
    NodesVerdictIsFirst(document.nodes, c);
    SubsVerdictIsFirst(document.subscriptions);
    ProvidersVerdictIsFirst(document.nodes, document.subscriptions, c);
    forall p
      ensures Complaint(document, c, p) ==>
                if TurnOf(p).stage == 4 then NodeComplaint(document.nodes, c, p)
                else if TurnOf(p).stage == 5 then SubComplaint(document.subscriptions, p)
                else TurnOf(p).stage == 6 && p.UnknownProvider? && TurnOf(p) == Turn(6, p.i, 0)
                     && ProviderComplaint(document.nodes, document.subscriptions, p)
      ensures NodeComplaint(document.nodes, c, p) ==> TurnOf(p).stage == 4 && Complaint(document, c, p)
      ensures SubComplaint(document.subscriptions, p) ==> TurnOf(p).stage == 5 && Complaint(document, c, p)
      ensures ProviderComplaint(document.nodes, document.subscriptions, p) ==> TurnOf(p).stage == 6 && Complaint(document, c, p)
    {
      StagesApart(document, c, p);
      StagesCount(document, c, p);
      NodeTurns(document.nodes, c, p);
      SubTurns(document.subscriptions, p);
      ProviderTurns(document.nodes, document.subscriptions, p);
      TurnOfProvider(p);
    }
  }

  lemma TurnOfProvider(p: Problem)
    ensures p.UnknownProvider? ==> TurnOf(p) == Turn(6, p.i, 0)
    ensures p in [SchemaTooNew, AllowLan, BadSocksPort, BadHttpPort] ==> TurnOf(p).stage < 4
  {
  }

  /** A document is accepted exactly when nothing speaks against it; otherwise it is refused for what
      comes first in the order of the checks, whatever else is wrong with it. */
  lemma RefusedForTheFirst(document: Document, c: Checks)
    ensures match Normalized(document, c)
            case Accepted(_, _) => forall p :: !Complaint(document, c, p)
            case Refused(first) => Complaint(document, c, first) && forall p :: Complaint(document, c, p) && p != first ==> Earlier(first, p)
  {
    hide Complaint, Normalized, TurnOf;
    if Outside(document) { RefusedOutside(document, c); } else { RefusedInside(document, c); }
  }
}
