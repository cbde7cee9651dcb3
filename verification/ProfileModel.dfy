/** The stored profile document and the key under which a node is recognised again on import. */
module ProfileModel {
  import opened Text

  datatype Source = Source(kind: string, url: string, providerKey: string, lastSeenAt: int)

  datatype Node = Node(
    id: string, name: string, protocol: string, server: string, port: int, link: string,
    outbound: string, group: string, ownerPackage: string, createdAt: int, stale: bool,
    source: Source, extra: string)

  datatype Subscription = Subscription(
    providerKey: string, url: string, name: string, lastFetchedAt: int,
    lastSeenNodeCount: int, staleNodeCount: int, details: string)

  datatype Runtime = Runtime(backendKind: string, fallbackPolicy: string)

  datatype Routing = Routing(
    mode: string, bypassRussia: bool, appProxyList: seq<string>, appBypassList: seq<string>,
    appGroupRoutes: map<string, string>,
    directDomains: seq<string>, proxyDomains: seq<string>, blockDomains: seq<string>,
    directIps: seq<string>, proxyIps: seq<string>, blockIps: seq<string>,
    alwaysDirectApps: seq<string>, alwaysDirectExcludedApps: seq<string>, alwaysDirectSystemApps: bool)

  datatype Dns = Dns(remoteDns: string, directDns: string, bootstrapIp: string, ipv6Mode: string, fakeDns: bool)

  datatype Health = Health(
    enabled: bool, intervalSec: int, threshold: int, checkUrl: string, timeoutSec: int,
    dnsProbeDomains: seq<string>, egressUrls: seq<string>, dnsIsHardReadiness: bool)

  datatype Sharing = Sharing(enabled: bool, interfaces: seq<string>)

  datatype Tun = Tun(enabled: bool, mtu: int, ipv4Address: string, flags: string)

  datatype Inbounds = Inbounds(socksPort: int, httpPort: int, allowLan: bool)

  datatype Document = Document(
    schemaVersion: int, id: string, name: string, activeNodeId: string, nodes: seq<Node>,
    subscriptions: seq<Subscription>, runtime: Runtime, routing: Routing, dns: Dns,
    health: Health, sharing: Sharing, tun: Tun, inbounds: Inbounds, extra: string)

  const SUBSCRIPTION := "SUBSCRIPTION"

  function NormalizeProtocol(value: string): string {
    var p := Lower(Trim(value));
    if p == "ss" then "shadowsocks"
    else if p in {"socks4", "socks4a", "socks5"} then "socks"
    else if p == "hy2" then "hysteria2"
    else if p == "wg" then "wireguard"
    else p
  }

  function SourceType(node: Node): string {
    var t := Upper(Trim(node.source.kind));
    if t == "" then "MANUAL" else t
  }

  function SourceScope(node: Node): string {
    if SourceType(node) == SUBSCRIPTION then SUBSCRIPTION + ":" + Trim(node.source.providerKey)
    else SourceType(node)
  }

  predicate Linked(node: Node) {
    Trim(node.link) != ""
  }

  function LinkKey(providerKey: string, link: string): (key: string)
    ensures key != ""
  {
    SUBSCRIPTION + ":" + Trim(providerKey) + "|link:" + Trim(link)
  }

  /** The key by which an import finds the node it replaces; blank when there is none. */
  function NodeMatchKey(node: Node): string {
    if SourceType(node) == SUBSCRIPTION && Linked(node) then LinkKey(node.source.providerKey, node.link)
    else if Trim(node.id) != "" then SourceScope(node) + "|id:" + Trim(node.id)
    else
      var server := Lower(Trim(node.server));
      if server == "" || node.port == 0 then ""
      else SourceScope(node) + "|" + JoinBar([NormalizeProtocol(node.protocol), server, DecimalInt(node.port)])
  }

  predicate IsProviderNode(node: Node, providerKey: string) {
    EqualFold(node.source.kind, SUBSCRIPTION) && node.source.providerKey == providerKey
  }

  function Keys(nodes: seq<Node>): seq<string> {
    seq(|nodes|, i requires 0 <= i < |nodes| => NodeMatchKey(nodes[i]))
  }

  function Ids(nodes: seq<Node>): seq<string> {
    seq(|nodes|, i requires 0 <= i < |nodes| => nodes[i].id)
  }

  function TrimmedIds(nodes: seq<Node>): seq<string> {
    seq(|nodes|, i requires 0 <= i < |nodes| => Trim(nodes[i].id))
  }

  /** For a linked subscription node the key is the provider and the link, whatever else changes. */
  lemma LinkedKey(node: Node)
    requires node.source.kind == SUBSCRIPTION && Linked(node)
    ensures NodeMatchKey(node) == LinkKey(node.source.providerKey, node.link) != ""
  {
    hide LinkKey, SourceScope, NormalizeProtocol, JoinBar, DecimalInt, Lower;
    UpperKeepsSubscription();
  }

  lemma UpperKeepsSubscription()
    ensures Trim(SUBSCRIPTION) == SUBSCRIPTION && Upper(SUBSCRIPTION) == SUBSCRIPTION
  {
    UpperFixed(SUBSCRIPTION);
    TrimFixed(SUBSCRIPTION);
  }

  predicate BarFree(s: string) {
    '|' !in s
  }

  /** Two providers whose keys hold no bar never claim each other's linked nodes, and a linked
      node is never mistaken for a manual one. */
  lemma PlainProvidersSeparate(linked: Node, other: Node)
    requires linked.source.kind == SUBSCRIPTION && Linked(linked)
    requires SourceType(other) == "MANUAL" || SourceType(other) == SUBSCRIPTION
    requires BarFree(Trim(linked.source.providerKey)) && BarFree(Trim(other.source.providerKey))
    requires SourceType(other) == SUBSCRIPTION ==>
               Trim(other.source.providerKey) != Trim(linked.source.providerKey)
    ensures NodeMatchKey(linked) != NodeMatchKey(other)
  {
    hide SourceType, Trim, NodeMatchKey, LinkKey, BarFree;
    var scope, p := SourceScope(other), SUBSCRIPTION + ":" + Trim(linked.source.providerKey);
    LinkedKey(linked);
    LinkKeyScope(linked);
    KeyScope(other);
    PlainScopes(linked, other);
    if NodeMatchKey(other) == NodeMatchKey(linked) {
      BeforeBar(scope, NodeMatchKey(other));
      BeforeBar(p, NodeMatchKey(linked));
    }
  }

  lemma LinkKeyScope(linked: Node)
    ensures SUBSCRIPTION + ":" + Trim(linked.source.providerKey) + "|" <= LinkKey(linked.source.providerKey, linked.link)
  {
    hide Trim;
  }

  /** A key that is not blank begins with its scope and a bar. */
  lemma KeyScope(node: Node)
    ensures NodeMatchKey(node) == "" || SourceScope(node) + "|" <= NodeMatchKey(node)
  {
    hide SourceType, Trim, NormalizeProtocol, JoinBar, DecimalInt, Lower;
  }

  lemma PlainScopes(linked: Node, other: Node)
    requires SourceType(other) == "MANUAL" || SourceType(other) == SUBSCRIPTION
    requires BarFree(Trim(linked.source.providerKey)) && BarFree(Trim(other.source.providerKey))
    requires SourceType(other) == SUBSCRIPTION ==> Trim(other.source.providerKey) != Trim(linked.source.providerKey)
    ensures var p := SUBSCRIPTION + ":" + Trim(linked.source.providerKey);
            BarFree(SourceScope(other)) && BarFree(p) && SourceScope(other) != p
  {
    hide SourceType, Trim;
    if SourceType(other) == SUBSCRIPTION {
      AppendInjective(SUBSCRIPTION + ":", Trim(other.source.providerKey), Trim(linked.source.providerKey));
    } else {
      assert SourceScope(other)[0] == 'M' && (SUBSCRIPTION + ":" + Trim(linked.source.providerKey))[0] == 'S';
    }
  }

  lemma AppendInjective(a: string, x: string, y: string)
    ensures a + x == a + y ==> x == y
  {
    assert (a + x)[|a|..] == x && (a + y)[|a|..] == y;
  }

  function FirstBar(s: string): (r: nat)
    ensures r <= |s|
  {
    if s == "" || s[0] == '|' then 0 else 1 + FirstBar(s[1..])
  }

  lemma {:induction false} BeforeBar(a: string, s: string)
    requires BarFree(a) && a + "|" <= s
    ensures a == s[..FirstBar(s)]
  {
    if a == "" {
      assert s[0] == (a + "|")[0];
    } else {
      assert s[0] == (a + "|")[0] == a[0];
      assert (a + "|")[1..] == a[1..] + "|";
      BeforeBar(a[1..], s[1..]);
      assert s[..FirstBar(s)] == [s[0]] + s[1..][..FirstBar(s[1..])];
    }
  }

  /** The provider scope of a key: a subscription node's provider, or the kind of source. */
  lemma ScopeMeans(node: Node)
    ensures var kind := Upper(Trim(node.source.kind));
            && (kind == "SUBSCRIPTION" ==> SourceScope(node) == "SUBSCRIPTION:" + Trim(node.source.providerKey))
            && (kind == "" ==> SourceScope(node) == "MANUAL")
            && (kind != "" && kind != "SUBSCRIPTION" ==> SourceScope(node) == kind)
  {
    hide Trim, Upper;
  }

  /** A node is known by its link if it comes from a subscription and has one; else by its ID; else by
      its protocol, server and port; and not at all if a server or a port is missing for that. */
  lemma KeyMeans(node: Node)
    ensures var kind, scope, server := Upper(Trim(node.source.kind)), SourceScope(node), Lower(Trim(node.server));
            if kind == "SUBSCRIPTION" && Trim(node.link) != "" then NodeMatchKey(node) == "SUBSCRIPTION:" + Trim(node.source.providerKey) + "|link:" + Trim(node.link)
            else if Trim(node.id) != "" then NodeMatchKey(node) == scope + "|id:" + Trim(node.id)
            else if server == "" || node.port == 0 then NodeMatchKey(node) == ""
            else NodeMatchKey(node) == scope + "|" + (NormalizeProtocol(node.protocol) + "|" + server + "|" + DecimalInt(node.port))
  {
    hide Trim, Upper, Lower, NormalizeProtocol, DecimalInt, JoinBar;
    JoinThree(NormalizeProtocol(node.protocol), Lower(Trim(node.server)), DecimalInt(node.port));
  }

  lemma JoinThree(a: string, b: string, c: string)
    ensures JoinBar([a, b, c]) == a + "|" + b + "|" + c
  {
    assert [a, b, c][1..] == [b, c] && [b, c][1..] == [c];
    assert JoinBar([c]) == c && JoinBar([b, c]) == b + "|" + c;
  }

  /** A provider's nodes are those whose kind, in whatever case, is that of a subscription and whose provider key is the provider's own. */
  lemma ProviderMeans(node: Node, p: string)
    ensures IsProviderNode(node, p) <==> Upper(node.source.kind) == "SUBSCRIPTION" && node.source.providerKey == p
  {
    hide Upper, Lower;
    SameCaseIff(node.source.kind);
  }

  lemma SameCaseIff(kind: string)
    ensures Lower(kind) == Lower("SUBSCRIPTION") <==> Upper(kind) == "SUBSCRIPTION"
  {
    UpperKeepsSubscription();
    if Lower(kind) == Lower("SUBSCRIPTION") {
      SameUpper(kind, "SUBSCRIPTION");
    }
    if Upper(kind) == "SUBSCRIPTION" {
      SameLower(kind, "SUBSCRIPTION");
    }
  }

  lemma SameUpper(a: string, b: string)
    requires Lower(a) == Lower(b)
    ensures Upper(a) == Upper(b)
  {
    assert |a| == |Lower(a)| == |Lower(b)| == |b|;
    forall i | 0 <= i < |a| ensures UpperChar(a[i]) == UpperChar(b[i]) {
      assert LowerChar(a[i]) == Lower(a)[i] == Lower(b)[i] == LowerChar(b[i]);
    }
  }

  lemma SameLower(a: string, b: string)
    requires Upper(a) == Upper(b)
    ensures Lower(a) == Lower(b)
  {
    assert |a| == |Upper(a)| == |Upper(b)| == |b|;
    forall i | 0 <= i < |a| ensures LowerChar(a[i]) == LowerChar(b[i]) {
      assert UpperChar(a[i]) == Upper(a)[i] == Upper(b)[i] == UpperChar(b[i]);
    }
  }
}
