/** What normalisation guarantees: it settles at once, and its counts add up. */
module NormalizationFacts {
  import opened Text
  import opened SortedStrings
  import opened ProfileModel
  import opened NodeMerge
  import opened RefreshTheorems
  import opened ProfileNormalization

  lemma DefaultSettles(value: string, fallback: string)
    ensures Default(Default(value, fallback), fallback) == Default(value, fallback)
  {
    hide Trim;
    TwoNames(Trim(value), fallback);
    TwoNames(Trim(Default(value, fallback)), fallback);
    TrimFixed(Trim(value));
    TrimFixed(Default(value, fallback));
  }

  lemma ScalarsSettle(doc: Document)
    ensures TidyScalars(TidyScalars(doc)) == TidyScalars(doc)
  {
    hide Default, Trim;
    DefaultSettles(doc.id, "default");
    DefaultSettles(doc.name, "Default");
    DefaultSettles(doc.runtime.backendKind, "ROOT_TPROXY");
    DefaultSettles(doc.runtime.fallbackPolicy, "OFFER_RESET");
    DefaultSettles(doc.routing.mode, "PROXY_ALL");
    DefaultSettles(doc.dns.remoteDns, "https://1.1.1.1/dns-query");
    DefaultSettles(doc.dns.directDns, "https://dns.google/dns-query");
    DefaultSettles(doc.dns.bootstrapIp, "1.1.1.1");
    DefaultSettles(doc.dns.ipv6Mode, "MIRROR");
  }

  lemma ProtocolSettles(value: string)
    ensures NormalizeProtocol(NormalizeProtocol(value)) == NormalizeProtocol(value)
  {
    hide Trim, Lower, Trimmed;
    var p := Lower(Trim(value));
    CaseIsSettled(Trim(value));
    TrimFixed(p);
    FixedNames();
  }

  lemma FixedNames()
    ensures Lower(Trim("shadowsocks")) == "shadowsocks" && Lower(Trim("socks")) == "socks"
    ensures Lower(Trim("hysteria2")) == "hysteria2" && Lower(Trim("wireguard")) == "wireguard"
  {
    hide Trim, Lower;
    TrimFixed("shadowsocks");
    LowerFixed("shadowsocks");
    TrimFixed("socks");
    LowerFixed("socks");
    TrimFixed("hysteria2");
    LowerFixed("hysteria2");
    TrimFixed("wireguard");
    LowerFixed("wireguard");
  }

  lemma KindSettles(kind: string)
    ensures Upper(Trim(Upper(Trim(kind)))) == Upper(Trim(kind))
  {
    hide Trim, Upper, Trimmed;
    CaseIsSettled(Trim(kind));
    TrimFixed(Upper(Trim(kind)));
  }

  lemma IdSettles(node: Node, i: nat)
    ensures Trimmed(TidyId(node, i)) && TidyId(node, i) != ""
  {
    hide Trim;
    if Trim(node.id) == "" {
      var d := Decimal(i + 1);
      assert TidyId(node, i)[|TidyId(node, i)| - 1] == d[|d| - 1] && d[|d| - 1] in d;
      assert TidyId(node, i)[0] == 'n';
    }
  }

  lemma NodeSettles(node: Node, i: nat, c: Checks, later: int)
    requires c.now != 0
    ensures TidyNode(TidyNode(node, i, c), i, c.(now := later)) == TidyNode(node, i, c)
  {
    hide Trim, Upper, NormalizeProtocol, TidyId, Trimmed, FirstNonEmpty, Default;
    var t := TidyNode(node, i, c);
    IdSettles(node, i);
    TidyIdFixed(t, i);
    ProtocolSettles(node.protocol);
    TrimFixed(t.server);
    NameSettles(node.name, t.server, t.id);
    DefaultSettles(node.group, "Default");
    TrimFixed(t.ownerPackage);
    KindSettles(node.source.kind);
    OutboundSettles(node.outbound);
    UrlSettles(node);
  }

  lemma UrlSettles(node: Node)
    ensures Trim(Trim(node.source.url)) == Trim(node.source.url)
    ensures Trim(Trim(node.source.providerKey)) == Trim(node.source.providerKey)
    ensures Trim(Trim(node.server)) == Trim(node.server)
    ensures Trim(Trim(node.ownerPackage)) == Trim(node.ownerPackage)
  {
    hide TrimLeft, TrimRight, Trimmed;
  }

  lemma OutboundSettles(outbound: string)
    ensures Trim("{}") == "{}"
  {
    TrimFixed("{}");
  }

  lemma TidyIdFixed(node: Node, i: nat)
    requires Trimmed(node.id) && node.id != ""
    ensures TidyId(node, i) == node.id
  {
    hide Trim;
    TrimFixed(node.id);
  }

  lemma NameSettles(name: string, server: string, id: string)
    requires Trimmed(id) && id != ""
    ensures var r := FirstNonEmpty([Trim(name), server, id]);
            FirstNonEmpty([Trim(r), server, id]) == r
  {
    hide Trim, Trimmed;
    var r := FirstNonEmpty([Trim(name), server, id]);
    ThreeNames(Trim(name), server, id);
    TrimFixed(id);
    TrimFixed(r);
    ThreeNames(Trim(r), server, id);
  }

  lemma NodesSettle(nodes: seq<Node>, c: Checks, later: int)
    requires c.now != 0
    ensures TidyNodes(TidyNodes(nodes, c), c.(now := later)) == TidyNodes(nodes, c)
  {
    hide TidyNode;
    forall i | 0 <= i < |nodes| ensures TidyNode(TidyNode(nodes[i], i, c), i, c.(now := later)) == TidyNode(nodes[i], i, c) {
      NodeSettles(nodes[i], i, c, later);
    }
  }

  lemma VerdictSettles(node: Node, i: nat, seen: seq<string>, c: Checks, later: int)
    requires c.now != 0 && c.validJson("{}") && NodeVerdict(node, i, seen, c).Fine?
    ensures NodeVerdict(TidyNode(node, i, c), i, seen, c.(now := later)).Fine?
  {
    hide Trim, Upper, NormalizeProtocol, TidyId, Trimmed, FirstNonEmpty, Default;
    NodeSettles(node, i, c, later);
  }

  lemma {:induction false} NodesVerdictSettles(nodes: seq<Node>, c: Checks, later: int)
    requires c.now != 0 && c.validJson("{}") && NodesVerdict(nodes, c).Fine?
    ensures NodesVerdict(TidyNodes(nodes, c), c.(now := later)).Fine?
  {
    hide TidyNode, NodeVerdict;
    if nodes != [] {
      var n := |nodes| - 1;
      var tidy := TidyNodes(nodes, c);
      NodesVerdictSettles(nodes[..n], c, later);
      assert tidy[..n] == TidyNodes(nodes[..n], c);
      NodesSettle(nodes[..n], c, later);
      VerdictSettles(nodes[n], n, Ids(TidyNodes(nodes[..n], c)), c, later);
    }
  }

  // Subscriptions.

  ghost predicate TidyKeyed(sub: Subscription) {
    sub.providerKey != "" && sub.url != "" && TidySub(sub) == sub
  }

  lemma {:induction false} TidySubsAreKeyed(subs: seq<Subscription>)
    requires SubsVerdict(subs).Fine?
    ensures forall i :: 0 <= i < |subs| ==> TidyKeyed(TidySub(subs[i]))
  {
    hide Trim, TidyKeyed, TidySub;
    if subs != [] {
      var n := |subs| - 1;
      TidySubsAreKeyed(subs[..n]);
      FineIsKeyed(subs[n]);
      forall i | 0 <= i < |subs| ensures TidyKeyed(TidySub(subs[i])) {
        if i < n { assert subs[..n][i] == subs[i]; }
      }
    }
  }

  lemma FineIsKeyed(sub: Subscription)
    ensures Trim(sub.providerKey) != "" && Trim(sub.url) != "" ==> TidyKeyed(TidySub(sub))
  {
    hide Trim;
    TidySubSettles(sub);
  }

  lemma TidySubSettles(sub: Subscription)
    ensures TidySub(TidySub(sub)) == TidySub(sub)
  {
    hide TrimLeft, TrimRight, Trimmed;
  }

  lemma {:induction false} KeyedSubsFine(subs: seq<Subscription>)
    requires forall i :: 0 <= i < |subs| ==> TidyKeyed(subs[i])
    ensures SubsVerdict(subs).Fine? && TidySubs(subs) == subs && KeyedKeys(subs) == ProviderKeys(subs)
  {
    hide Trim;
    if subs != [] {
      var n := |subs| - 1;
      KeyedSubsFine(subs[..n]);
      assert TidyKeyed(subs[n]);
      assert ProviderKeys(subs) == ProviderKeys(subs[..n]) + [subs[n].providerKey];
    }
  }

  lemma {:induction false} LatestKeepsTidy(subs: seq<Subscription>)
    requires forall i :: 0 <= i < |subs| ==> TidyKeyed(subs[i])
    ensures forall k :: k in LatestSubs(subs) ==> TidyKeyed(LatestSubs(subs)[k]) && LatestSubs(subs)[k].providerKey == k
    ensures forall i :: 0 <= i < |subs| ==> subs[i].providerKey in LatestSubs(subs)
  {
    hide Trim, TidyKeyed;
    if subs != [] {
      var n := |subs| - 1;
      LatestKeepsTidy(subs[..n]);
      LatestStep(subs);
      assert forall i :: 0 <= i < n ==> subs[..n][i] == subs[i];
    }
  }

  lemma LatestStep(subs: seq<Subscription>)
    requires subs != [] && TidyKeyed(subs[|subs| - 1])
    ensures var last := subs[|subs| - 1]; LatestSubs(subs) == LatestSubs(subs[..|subs| - 1])[last.providerKey := last]
  {
    hide Trim;
  }

  /** With distinct keys every entry is the latest of its key. */
  lemma {:induction false} LatestIsEach(subs: seq<Subscription>)
    requires forall i :: 0 <= i < |subs| ==> TidyKeyed(subs[i])
    requires Sorted(ProviderKeys(subs))
    ensures forall i :: 0 <= i < |subs| ==> subs[i].providerKey in LatestSubs(subs) && LatestSubs(subs)[subs[i].providerKey] == subs[i]
  {
    hide TidyKeyed, Less, LatestSubs;
    if subs != [] {
      var n := |subs| - 1;
      var keys := ProviderKeys(subs);
      assert ProviderKeys(subs[..n]) == keys[..n];
      LatestIsEach(subs[..n]);
      LatestStep(subs);
      forall i | 0 <= i < n ensures subs[i].providerKey != subs[n].providerKey && subs[..n][i] == subs[i] {
        LessTrichotomy(keys[i], keys[n]);
      }
    }
  }

  lemma NormalSubsFacts(subs: seq<Subscription>, nodes: seq<Node>)
    requires forall i :: 0 <= i < |subs| ==> TidyKeyed(subs[i])
    ensures var r := NormalSubs(subs, nodes);
            ProviderKeys(r) == SortedSet(ProviderKeys(subs)) && Sorted(ProviderKeys(r))
            && (forall k :: k in ProviderKeys(r) <==> k in ProviderKeys(subs))
            && forall i :: 0 <= i < |r| ==> TidyKeyed(r[i]) && Counted(r[i], nodes) == r[i]
  {
    hide Trim, CountNodes, SortedSet, Sorted;
    KeyedSubsFine(subs);
    LatestKeepsTidy(subs);
    LatestHasKeys(subs);
    SortedSetFacts(ProviderKeys(subs));
    var r, keys := NormalSubs(subs, nodes), SortedSet(ProviderKeys(subs));
    forall i | 0 <= i < |r| ensures TidyKeyed(r[i]) && Counted(r[i], nodes) == r[i] && r[i].providerKey == keys[i] {
      assert keys[i] in keys;
      assert TidyKeyed(LatestSubs(subs)[keys[i]]);
    }
  }

  lemma SubsSettle(subs: seq<Subscription>, nodes: seq<Node>)
    requires forall i :: 0 <= i < |subs| ==> TidyKeyed(subs[i])
    ensures NormalSubs(NormalSubs(subs, nodes), nodes) == NormalSubs(subs, nodes)
  {
    hide Trim, CountNodes, SortedSet, Sorted, TidyKeyed;
    var r := NormalSubs(subs, nodes);
    var keys := ProviderKeys(r);
    NormalSubsFacts(subs, nodes);
    KeyedSubsFine(r);
    LatestIsEach(r);
    LatestHasKeys(r);
    SortedSetFacts(keys);
    SortedUnique(SortedSet(keys), keys);
    forall i | 0 <= i < |r| ensures Counted(LatestSubs(r)[keys[i]], nodes) == r[i] {
      assert keys[i] == r[i].providerKey;
    }
  }

  lemma {:induction false} ProvidersByMembership(nodes: seq<Node>, a: seq<string>, b: seq<string>)
    requires forall k :: k in a <==> k in b
    ensures ProvidersVerdict(nodes, a) == ProvidersVerdict(nodes, b)
  {
    if nodes != [] { ProvidersByMembership(nodes[..|nodes| - 1], a, b); }
  }

  // The document.

  lemma FirstLiveIsLive(nodes: seq<Node>)
    ensures FirstLiveId(nodes) == "" || FirstLiveId(nodes) in LiveIds(nodes)
  {
    FirstLiveFacts(nodes);
    if exists n :: n in nodes && !n.stale {
      var n :| n in nodes && !n.stale && n.id == FirstLiveId(nodes);
    }
  }

  /** Normalising a normalised document gives it back unchanged and without a warning, at
      whatever later time that happens. */
  lemma NormalizeIsIdempotent(document: Document, c: Checks, later: int)
    requires c.now != 0 && c.validJson("{}")
    ensures Normalized(document, c).Accepted? ==>
              Normalized(Normalized(document, c).doc, c.(now := later)) == Accepted(Normalized(document, c).doc, [])
  {
    hide Normalized;
    if Normalized(document, c).Accepted? { NormalizeAgain(document, c, later); }
  }

  lemma NormalizeAgain(document: Document, c: Checks, later: int)
    requires c.now != 0 && c.validJson("{}") && Normalized(document, c).Accepted?
    ensures Normalized(Normalized(document, c).doc, c.(now := later)) == Accepted(Normalized(document, c).doc, [])
  {
    hide TidyScalars, TidyNodes, NodesVerdict, SubsVerdict, ProvidersVerdict, NormalSubs, TidySubs, FirstLiveId, ValidPort,
         ProviderKeys, TidyKeyed, TidySub;
    var start := document.(schemaVersion := DefaultInt(document.schemaVersion, CURRENT_SCHEMA));
    var doc := Normalized(document, c).doc;
    var nodes, subs := TidyNodes(start.nodes, c), TidySubs(start.subscriptions);
    TidyScalarsKeeps(start);
    ScalarsSettle(start);
    NodesSettle(start.nodes, c, later);
    NodesVerdictSettles(start.nodes, c, later);
    TidySubsKeyed(start.subscriptions);
    NormalSubsFacts(subs, nodes);
    KeyedSubsFine(doc.subscriptions);
    SubsSettle(subs, nodes);
    ProvidersByMembership(nodes, ProviderKeys(subs), ProviderKeys(doc.subscriptions));
    FirstLiveIsLive(nodes);
    ScalarsIgnore(start, doc);
    TidyScalarsKeeps(doc);
  }

  lemma TidySubsKeyed(subs: seq<Subscription>)
    requires SubsVerdict(subs).Fine?
    ensures forall i :: 0 <= i < |TidySubs(subs)| ==> TidyKeyed(TidySubs(subs)[i])
  {
    hide Trim;
    TidySubsAreKeyed(subs);
  }

  /** Settling the scalars does not depend on the nodes, the subscriptions or the active node. */
  lemma ScalarsIgnore(start: Document, doc: Document)
    requires doc == TidyScalars(start).(nodes := doc.nodes, subscriptions := doc.subscriptions, activeNodeId := doc.activeNodeId)
    requires TidyScalars(TidyScalars(start)) == TidyScalars(start)
    ensures TidyScalars(doc) == doc
  {
    hide Default;
  }

  /** A normalised document names a live node or none, and its IDs are trimmed, non-blank and distinct. */
  lemma NormalizedActiveIsLive(document: Document, c: Checks)
    ensures Normalized(document, c).Accepted? ==>
              var doc := Normalized(document, c).doc;
              (doc.activeNodeId == "" || doc.activeNodeId in LiveIds(doc.nodes))
              && NoRepeats(TrimmedIds(doc.nodes)) && "" !in TrimmedIds(doc.nodes)
  {
    hide Normalized, NoRepeats, TrimmedIds;
    if Normalized(document, c).Accepted? { AcceptedActiveIsLive(document, c); }
  }

  lemma AcceptedActiveIsLive(document: Document, c: Checks)
    requires Normalized(document, c).Accepted?
    ensures var doc := Normalized(document, c).doc;
            (doc.activeNodeId == "" || doc.activeNodeId in LiveIds(doc.nodes))
            && NoRepeats(TrimmedIds(doc.nodes)) && "" !in TrimmedIds(doc.nodes)
  {
    hide TidyScalars, TidyNodes, NodesVerdict, SubsVerdict, ProvidersVerdict, NormalSubs, TidySubs, FirstLiveId, ValidPort, Trim,
         NoRepeats, TrimmedIds;
    var start := document.(schemaVersion := DefaultInt(document.schemaVersion, CURRENT_SCHEMA));
    TidyScalarsKeeps(start);
    FirstLiveIsLive(TidyNodes(start.nodes, c));
    DistinctTidyIds(start.nodes, c);
  }

  lemma {:induction false} DistinctTidyIds(nodes: seq<Node>, c: Checks)
    requires NodesVerdict(nodes, c).Fine?
    ensures NoRepeats(TrimmedIds(TidyNodes(nodes, c))) && "" !in TrimmedIds(TidyNodes(nodes, c))
    ensures TrimmedIds(TidyNodes(nodes, c)) == Ids(TidyNodes(nodes, c))
  {
    hide Trim, TidyNode, NodeVerdict, NoRepeats, NonBlank;
    if nodes != [] {
      var n := |nodes| - 1;
      var tidy, front := TidyNodes(nodes, c), TidyNodes(nodes[..n], c);
      DistinctTidyIds(nodes[..n], c);
      FineIdIsNew(nodes[n], n, Ids(front), c);
      assert tidy == front + [tidy[n]];
      assert TrimmedIds(tidy) == TrimmedIds(front) + [tidy[n].id];
      assert Ids(tidy) == Ids(front) + [tidy[n].id];
      NoRepeatsStep(TrimmedIds(front), tidy[n].id);
    } else {
      assert TrimmedIds(TidyNodes(nodes, c)) == [];
      NothingRepeats();
    }
  }

  lemma NothingRepeats()
    ensures NoRepeats([])
  {
  }

  lemma FineIdIsNew(node: Node, i: nat, seen: seq<string>, c: Checks)
    requires NodeVerdict(node, i, seen, c).Fine?
    ensures var id := TidyNode(node, i, c).id;
            id != "" && Trim(id) == id && id !in seen && id !in NonBlank(seen)
  {
    hide Trim, NormalizeProtocol, FirstNonEmpty, Upper, TidyId, Trimmed, Default;
    IdSettles(node, i);
    TrimFixed(TidyId(node, i));
  }

  // Counting.

  function Sum(subs: seq<Subscription>): int {
    if subs == [] then 0
    else Sum(subs[..|subs| - 1]) + subs[|subs| - 1].lastSeenNodeCount + subs[|subs| - 1].staleNodeCount
  }

  function SubscriptionNodes(nodes: seq<Node>): nat {
    if nodes == [] then 0
    else SubscriptionNodes(nodes[..|nodes| - 1]) + (if nodes[|nodes| - 1].source.kind == SUBSCRIPTION then 1 else 0)
  }

  function KeySum(keys: seq<string>, nodes: seq<Node>): int {
    if keys == [] then 0
    else KeySum(keys[..|keys| - 1], nodes)
         + CountNodes(nodes, keys[|keys| - 1], false) + CountNodes(nodes, keys[|keys| - 1], true)
  }

  lemma {:induction false} KeySumStep(keys: seq<string>, nodes: seq<Node>)
    requires nodes != [] && Sorted(keys)
    ensures var last := nodes[|nodes| - 1];
            KeySum(keys, nodes) == KeySum(keys, nodes[..|nodes| - 1])
            + (if last.source.kind == SUBSCRIPTION && last.source.providerKey in keys then 1 else 0)
  {
    hide Less;
    if keys != [] {
      var n := |keys| - 1;
      KeySumStep(keys[..n], nodes);
      assert keys == keys[..n] + [keys[n]];
      forall i | 0 <= i < n ensures keys[i] != keys[n] { LessTrichotomy(keys[i], keys[n]); }
    }
  }

  lemma {:induction false} KeySumNone(keys: seq<string>)
    ensures KeySum(keys, []) == 0
  {
    if keys != [] { KeySumNone(keys[..|keys| - 1]); }
  }

  lemma {:induction false} KeySumCountsAll(keys: seq<string>, nodes: seq<Node>)
    requires Sorted(keys) && ProvidersVerdict(nodes, keys).Fine?
    ensures KeySum(keys, nodes) == SubscriptionNodes(nodes)
  {
    hide KeySum, CountNodes;
    if nodes == [] {
      KeySumNone(keys);
    } else {
      KeySumCountsAll(keys, nodes[..|nodes| - 1]);
      KeySumStep(keys, nodes);
    }
  }

  lemma {:induction false} SumIsKeySum(subs: seq<Subscription>, nodes: seq<Node>)
    requires forall i :: 0 <= i < |subs| ==> Counted(subs[i], nodes) == subs[i]
    ensures Sum(subs) == KeySum(ProviderKeys(subs), nodes)
  {
    hide CountNodes;
    if subs != [] {
      var n := |subs| - 1;
      SumIsKeySum(subs[..n], nodes);
      assert ProviderKeys(subs)[..n] == ProviderKeys(subs[..n]);
      assert Counted(subs[n], nodes) == subs[n];
    }
  }

  /** In a normalised document the subscriptions are strictly sorted by provider key, and their
      live and stale counts add up to the number of subscription nodes: none is missed or counted twice. */
  lemma NormalizedCountsAddUp(document: Document, c: Checks)
    ensures Normalized(document, c).Accepted? ==>
              var doc := Normalized(document, c).doc;
              Sorted(ProviderKeys(doc.subscriptions)) && Sum(doc.subscriptions) == SubscriptionNodes(doc.nodes)
  {
    hide Normalized, Sorted, Sum, SubscriptionNodes;
    if Normalized(document, c).Accepted? { AcceptedCountsAddUp(document, c); }
  }

  lemma AcceptedCountsAddUp(document: Document, c: Checks)
    requires Normalized(document, c).Accepted?
    ensures var doc := Normalized(document, c).doc;
            Sorted(ProviderKeys(doc.subscriptions)) && Sum(doc.subscriptions) == SubscriptionNodes(doc.nodes)
  {
    hide TidyScalars, TidyNodes, NodesVerdict, SubsVerdict, ProvidersVerdict, NormalSubs, TidySubs, FirstLiveId, ValidPort,
         Sorted, ProviderKeys, TidyKeyed, Sum, SubscriptionNodes, Counted;
    var start := document.(schemaVersion := DefaultInt(document.schemaVersion, CURRENT_SCHEMA));
    var nodes, subs := TidyNodes(start.nodes, c), TidySubs(start.subscriptions);
    var r := NormalSubs(subs, nodes);
    TidyScalarsKeeps(start);
    TidySubsKeyed(start.subscriptions);
    NormalSubsFacts(subs, nodes);
    ProvidersByMembership(nodes, ProviderKeys(subs), ProviderKeys(r));
    KeySumCountsAll(ProviderKeys(r), nodes);
    SumIsKeySum(r, nodes);
  }
}
