/** The two-way projection between the profile document and the daemon's configuration. */
module ConfigProjection {
  import opened Text
  import opened ProfileModel
  import opened ProfileNormalization

  datatype Panel = Panel(
    id: string, name: string, activeNodeId: string, nodes: seq<Node>, subscriptions: seq<Subscription>,
    tun: Tun, inbounds: Inbounds, extra: string)

  /** The routing and per-app part of the configuration; `others` holds what no document reaches. */
  datatype Rules = Rules(
    mode: string, appsMode: string, packages: seq<string>, appGroups: map<string, string>,
    customDirect: seq<string>, customProxy: seq<string>, customBlock: seq<string>,
    inactiveAppProxyList: seq<string>, inactiveAppBypassList: seq<string>,
    alwaysDirectApps: seq<string>, alwaysDirectExcludedApps: seq<string>, alwaysDirectSystemApps: bool,
    bypassRussia: bool, others: string)

  datatype Resolver = Resolver(
    proxyDns: string, directDns: string, bootstrapIp: string, fakeIp: bool, ipv6Mode: string, others: string)

  datatype Config = Config(
    profile: Panel, runtime: Runtime, rules: Rules, resolver: Resolver, health: Health, sharing: Sharing, others: string)

  datatype Applied = Applied(config: Config, warnings: seq<Warning>) | NotApplied(problem: Problem)

  // Rule lists.

  /** The non-blank entries, trimmed. */
  function Kept(values: seq<string>): seq<string> {
    if values == [] then []
    else
      var front, last := Kept(values[..|values| - 1]), Trim(values[|values| - 1]);
      if last == "" then front else front + [last]
  }

  predicate HasSlash(s: string) {
    '/' in s
  }

  /** The entries with a slash, or those without one. */
  function Slashed(values: seq<string>, slash: bool): seq<string> {
    if values == [] then []
    else
      var front, last := Slashed(values[..|values| - 1], slash), values[|values| - 1];
      if HasSlash(last) == slash then front + [last] else front
  }

  function SplitDomains(values: seq<string>): seq<string> {
    Slashed(Kept(values), false)
  }

  function SplitIps(values: seq<string>): seq<string> {
    Slashed(Kept(values), true)
  }

  function MergedRules(domains: seq<string>, ips: seq<string>): seq<string> {
    Kept(domains) + Kept(ips)
  }

  method SplitRoutingRuleInputs(values: seq<string>) returns (domains: seq<string>, ips: seq<string>)
    ensures domains == SplitDomains(values) && ips == SplitIps(values)
  {
    hide Trim;
    domains, ips := [], [];
    for i := 0 to |values|
      invariant domains == SplitDomains(values[..i]) && ips == SplitIps(values[..i])
    {
      assert values[..i + 1][..i] == values[..i];
      var value := Trim(values[i]);
      if value == "" {
        continue;
      }
      var front := Kept(values[..i]);
      assert (front + [value])[..|front|] == front;
      if HasSlash(value) {
        ips := ips + [value];
      } else {
        domains := domains + [value];
      }
    }
    assert values[..|values|] == values;
  }

  method AppendTrimmedRoutingRules(dst: seq<string>, values: seq<string>) returns (result: seq<string>)
    ensures result == dst + Kept(values)
  {
    hide Trim;
    result := dst;
    for i := 0 to |values|
      invariant result == dst + Kept(values[..i])
    {
      assert values[..i + 1][..i] == values[..i];
      var value := Trim(values[i]);
      if value != "" {
        result := result + [value];
      }
    }
    assert values[..|values|] == values;
  }

  method MergeRoutingRuleInputs(domains: seq<string>, ips: seq<string>) returns (result: seq<string>)
    ensures result == MergedRules(domains, ips)
  {
    hide Kept;
    result := AppendTrimmedRoutingRules([], domains);
    result := AppendTrimmedRoutingRules(result, ips);
  }

  /** A rule list that trimming keeps as it is and whose entries all have, or all lack, a slash. */
  predicate Plain(values: seq<string>, slash: bool) {
    forall i :: 0 <= i < |values| ==> values[i] != "" && Trimmed(values[i]) && HasSlash(values[i]) == slash
  }

  lemma {:induction false} SplitsArePlain(values: seq<string>, slash: bool)
    ensures Plain(Slashed(Kept(values), slash), slash)
  {
    hide Trim, HasSlash;
    if values != [] {
      var n := |values| - 1;
      SplitsArePlain(values[..n], slash);
      var front := Kept(values[..n]);
      assert (front + [Trim(values[n])])[..|front|] == front;
    }
  }

  lemma {:induction false} PlainIsKept(values: seq<string>, slash: bool)
    requires Plain(values, slash)
    ensures Kept(values) == values && Slashed(values, slash) == values && Slashed(values, !slash) == []
  {
    hide Trim, HasSlash, Trimmed;
    if values != [] {
      PlainIsKept(values[..|values| - 1], slash);
      TrimFixed(values[|values| - 1]);
    }
  }

  lemma {:induction false} KeptSettles(values: seq<string>)
    ensures Kept(Kept(values)) == Kept(values)
  {
    hide Trim;
    if values != [] {
      var front, last := Kept(values[..|values| - 1]), Trim(values[|values| - 1]);
      KeptSettles(values[..|values| - 1]);
      assert (front + [last])[..|front|] == front;
      TrimFixed(last);
    }
  }

  lemma {:induction false} KeptAppends(a: seq<string>, b: seq<string>)
    ensures Kept(a + b) == Kept(a) + Kept(b)
  {
    hide Trim;
    if b == [] {
      assert a + b == a;
    } else {
      KeptAppends(a, b[..|b| - 1]);
      assert (a + b)[..|a + b| - 1] == a + b[..|b| - 1];
    }
  }

  lemma {:induction false} SlashedAppends(a: seq<string>, b: seq<string>, slash: bool)
    ensures Slashed(a + b, slash) == Slashed(a, slash) + Slashed(b, slash)
  {
    hide HasSlash;
    if b == [] {
      assert a + b == a;
    } else {
      SlashedAppends(a, b[..|b| - 1], slash);
      assert (a + b)[..|a + b| - 1] == a + b[..|b| - 1];
    }
  }

  /** Splitting what was merged gives back the two lists exactly when they were plain:
      trimmed, not blank, no slash in a domain rule and one in every address rule. */
  lemma SplitOfMergeIff(domains: seq<string>, ips: seq<string>)
    ensures SplitDomains(MergedRules(domains, ips)) == domains && SplitIps(MergedRules(domains, ips)) == ips
       <==> Plain(domains, false) && Plain(ips, true)
  {
    var merged := MergedRules(domains, ips);
    SplitsArePlain(merged, false);
    SplitsArePlain(merged, true);
    KeptAppends(Kept(domains), Kept(ips));
    KeptSettles(domains);
    KeptSettles(ips);
    SlashedAppends(Kept(domains), Kept(ips), false);
    SlashedAppends(Kept(domains), Kept(ips), true);
    if Plain(domains, false) && Plain(ips, true) {
      PlainIsKept(domains, false);
      PlainIsKept(ips, true);
    }
  }

  function Resorted(values: seq<string>): seq<string> {
    MergedRules(SplitDomains(values), SplitIps(values))
  }

  /** Merging what was split only moves the address rules behind the domain rules: nothing but
      blanks is lost, and doing it again changes nothing. */
  lemma MergeOfSplit(values: seq<string>)
    ensures Resorted(values) == SplitDomains(values) + SplitIps(values)
    ensures multiset(Resorted(values)) == multiset(Kept(values))
    ensures Resorted(Resorted(values)) == Resorted(values)
  {
    var domains, ips := SplitDomains(values), SplitIps(values);
    SplitsArePlain(values, false);
    SplitsArePlain(values, true);
    PlainIsKept(domains, false);
    PlainIsKept(ips, true);
    SplitConserves(Kept(values));
    SplitOfMergeIff(domains, ips);
  }

  lemma {:induction false} SplitConserves(values: seq<string>)
    ensures multiset(Slashed(values, false)) + multiset(Slashed(values, true)) == multiset(values)
  {
    hide HasSlash;
    if values != [] {
      var n := |values| - 1;
      SplitConserves(values[..n]);
      assert values == values[..n] + [values[n]];
    }
  }

  // The projections.

  function SharedRouting(rules: Rules): Routing {
    Routing("PER_APP", rules.bypassRussia, rules.inactiveAppProxyList, rules.inactiveAppBypassList, rules.appGroups,
            SplitDomains(rules.customDirect), SplitDomains(rules.customProxy), SplitDomains(rules.customBlock),
            SplitIps(rules.customDirect), SplitIps(rules.customProxy), SplitIps(rules.customBlock),
            rules.alwaysDirectApps, rules.alwaysDirectExcludedApps, rules.alwaysDirectSystemApps)
  }

  function RoutingFromConfig(rules: Rules): Routing {
    var shared := SharedRouting(rules);
    match rules.mode
    case "all" => shared.(mode := "PROXY_ALL")
    case "blacklist" => shared.(mode := "PER_APP_BYPASS", appBypassList := rules.packages)
    case "direct" => shared.(mode := "DIRECT")
    case "rules" => shared.(mode := "RULES", appProxyList := rules.packages)
    case _ => shared.(appProxyList := rules.packages)
  }

  function SharedRules(rules: Rules, routing: Routing): Rules {
    rules.(
      customDirect := MergedRules(routing.directDomains, routing.directIps),
      customProxy := MergedRules(routing.proxyDomains, routing.proxyIps),
      customBlock := MergedRules(routing.blockDomains, routing.blockIps),
      alwaysDirectApps := routing.alwaysDirectApps, alwaysDirectExcludedApps := routing.alwaysDirectExcludedApps,
      alwaysDirectSystemApps := routing.alwaysDirectSystemApps, bypassRussia := routing.bypassRussia,
      inactiveAppProxyList := routing.appProxyList, inactiveAppBypassList := routing.appBypassList,
      appGroups := routing.appGroupRoutes)
  }

  function ApplyRouting(rules: Rules, routing: Routing): Rules {
    var shared := SharedRules(rules, routing);
    match routing.mode
    case "PROXY_ALL" => shared.(mode := "all", appsMode := "all", packages := [])
    case "PER_APP_BYPASS" => shared.(mode := "blacklist", appsMode := "blacklist", packages := routing.appBypassList)
    case "DIRECT" => shared.(mode := "direct", appsMode := "off", packages := [])
    case "RULES" => shared.(mode := "rules", appsMode := "all", packages := routing.appProxyList)
    case _ => shared.(mode := "whitelist", appsMode := "whitelist", packages := routing.appProxyList)
  }

  function DnsFromConfig(resolver: Resolver): Dns {
    Dns(resolver.proxyDns, resolver.directDns, resolver.bootstrapIp, Upper(resolver.ipv6Mode), resolver.fakeIp)
  }

  function ApplyDns(resolver: Resolver, dns: Dns): Resolver {
    var mode := Lower(dns.ipv6Mode);
    resolver.(proxyDns := dns.remoteDns, directDns := dns.directDns, bootstrapIp := dns.bootstrapIp, fakeIp := dns.fakeDns,
              ipv6Mode := if mode == "" then "mirror" else mode)
  }

  function FromConfig(config: Config): Document {
    var panel := config.profile;
    Document(CURRENT_SCHEMA, FirstNonEmpty([panel.id, "default"]), FirstNonEmpty([panel.name, "Default"]), panel.activeNodeId,
             panel.nodes, panel.subscriptions, config.runtime, RoutingFromConfig(config.rules), DnsFromConfig(config.resolver),
             config.health, config.sharing, panel.tun, panel.inbounds.(allowLan := false), panel.extra)
  }

  /** The configuration that a normalised document turns `base` into. */
  function Project(base: Config, doc: Document): Config {
    base.(
      profile := Panel(doc.id, doc.name, doc.activeNodeId, doc.nodes, doc.subscriptions, doc.tun, doc.inbounds, doc.extra),
      runtime := Runtime(FirstNonEmpty([doc.runtime.backendKind, "ROOT_TPROXY"]),
                         FirstNonEmpty([doc.runtime.fallbackPolicy, "OFFER_RESET"])),
      rules := ApplyRouting(base.rules, doc.routing),
      resolver := ApplyDns(base.resolver, doc.dns),
      health := doc.health.(checkUrl := FirstNonEmpty([doc.health.checkUrl, "https://www.gstatic.com/generate_204"])),
      sharing := doc.sharing)
  }

  function ApplyToConfig(base: Config, document: Document, c: Checks): Applied {
    match Normalized(document, c)
    case Accepted(doc, warnings) => Applied(Project(base, doc), warnings)
    case Refused(problem) => NotApplied(problem)
  }

  // Round trips.

  predicate KnownMode(mode: string) {
    mode == "PROXY_ALL" || mode == "PER_APP" || mode == "PER_APP_BYPASS" || mode == "DIRECT" || mode == "RULES"
  }

  predicate PlainRules(routing: Routing) {
    && Plain(routing.directDomains, false) && Plain(routing.directIps, true)
    && Plain(routing.proxyDomains, false) && Plain(routing.proxyIps, true)
    && Plain(routing.blockDomains, false) && Plain(routing.blockIps, true)
  }

  lemma ModeTrip(rules: Rules, routing: Routing)
    ensures var r := RoutingFromConfig(ApplyRouting(rules, routing));
            r.appProxyList == routing.appProxyList && r.appBypassList == routing.appBypassList
            && r.mode == if KnownMode(routing.mode) then routing.mode else "PER_APP"
  {
    hide SplitDomains, SplitIps, MergedRules, RoutingFromConfig, ApplyRouting;
    ModeWritten(rules, routing);
    ModeRead(ApplyRouting(rules, routing));
  }

  function ModeOf(configMode: string): string {
    match configMode
    case "all" => "PROXY_ALL"
    case "blacklist" => "PER_APP_BYPASS"
    case "direct" => "DIRECT"
    case "rules" => "RULES"
    case _ => "PER_APP"
  }

  lemma ModeRead(rules: Rules)
    ensures var r, m := RoutingFromConfig(rules), ModeOf(rules.mode);
            r.mode == m
            && r.appBypassList == (if m == "PER_APP_BYPASS" then rules.packages else rules.inactiveAppBypassList)
            && r.appProxyList == (if m == "RULES" || m == "PER_APP" then rules.packages else rules.inactiveAppProxyList)
  {
    hide SplitDomains, SplitIps;
  }

  lemma ModeWritten(rules: Rules, routing: Routing)
    ensures var r := ApplyRouting(rules, routing);
            var m := if KnownMode(routing.mode) then routing.mode else "PER_APP";
            ModeOf(r.mode) == m
            && r.inactiveAppProxyList == routing.appProxyList && r.inactiveAppBypassList == routing.appBypassList
            && (m == "PER_APP_BYPASS" ==> r.packages == routing.appBypassList)
            && (m == "RULES" || m == "PER_APP" ==> r.packages == routing.appProxyList)
  {
    hide MergedRules;
  }

  lemma RulesTrip(rules: Rules, routing: Routing)
    ensures var r := RoutingFromConfig(ApplyRouting(rules, routing));
            r == routing.(
              mode := r.mode, appProxyList := r.appProxyList, appBypassList := r.appBypassList,
              directDomains := SplitDomains(MergedRules(routing.directDomains, routing.directIps)),
              directIps := SplitIps(MergedRules(routing.directDomains, routing.directIps)),
              proxyDomains := SplitDomains(MergedRules(routing.proxyDomains, routing.proxyIps)),
              proxyIps := SplitIps(MergedRules(routing.proxyDomains, routing.proxyIps)),
              blockDomains := SplitDomains(MergedRules(routing.blockDomains, routing.blockIps)),
              blockIps := SplitIps(MergedRules(routing.blockDomains, routing.blockIps)))
  {
    hide SplitDomains, SplitIps, MergedRules, RoutingFromConfig, ApplyRouting;
    ReadsShared(ApplyRouting(rules, routing));
    WritesShared(rules, routing);
  }

  /** Apart from the mode and the two app lists, the mode plays no part in reading the rules. */
  lemma ReadsShared(rules: Rules)
    ensures var r, shared := RoutingFromConfig(rules), SharedRouting(rules);
            r == shared.(mode := r.mode, appProxyList := r.appProxyList, appBypassList := r.appBypassList)
  {
    hide SharedRouting;
  }

  lemma WritesShared(rules: Rules, routing: Routing)
    ensures var r, shared := ApplyRouting(rules, routing), SharedRules(rules, routing);
            r == shared.(mode := r.mode, appsMode := r.appsMode, packages := r.packages)
  {
    hide SharedRules;
  }

  lemma RoutingTripIff(rules: Rules, routing: Routing)
    ensures RoutingFromConfig(ApplyRouting(rules, routing)) == routing <==> KnownMode(routing.mode) && PlainRules(routing)
  {
    hide SplitDomains, SplitIps, MergedRules, Plain, RoutingFromConfig, ApplyRouting;
    ModeTrip(rules, routing);
    RulesTrip(rules, routing);
    SplitOfMergeIff(routing.directDomains, routing.directIps);
    SplitOfMergeIff(routing.proxyDomains, routing.proxyIps);
    SplitOfMergeIff(routing.blockDomains, routing.blockIps);
  }

  lemma RoutingTripIsPlain(rules: Rules, routing: Routing)
    ensures var r := RoutingFromConfig(ApplyRouting(rules, routing)); KnownMode(r.mode) && PlainRules(r)
  {
    hide MergedRules, Plain, Kept, RoutingFromConfig, ApplyRouting;
    var merged := ApplyRouting(rules, routing);
    ModeTrip(rules, routing);
    ReadsShared(merged);
    SplitsArePlain(merged.customDirect, false);
    SplitsArePlain(merged.customDirect, true);
    SplitsArePlain(merged.customProxy, false);
    SplitsArePlain(merged.customProxy, true);
    SplitsArePlain(merged.customBlock, false);
    SplitsArePlain(merged.customBlock, true);
  }

  lemma UpperOfLower(s: string)
    ensures Upper(Lower(s)) == Upper(s) && |Lower(s)| == |s|
  {
    assert forall i :: 0 <= i < |s| ==> UpperChar(LowerChar(s[i])) == UpperChar(s[i]);
  }

  lemma DnsTrip(resolver: Resolver, dns: Dns)
    ensures DnsFromConfig(ApplyDns(resolver, dns)) == dns.(ipv6Mode := if dns.ipv6Mode == "" then "MIRROR" else Upper(dns.ipv6Mode))
  {
    hide Lower, Upper;
    UpperOfLower(dns.ipv6Mode);
    UpperOfMirror();
  }

  lemma UpperOfMirror()
    ensures Upper("mirror") == "MIRROR"
  {
    assert |Upper("mirror")| == 6;
  }

  /** What survives the configuration unchanged, of documents already in normal form. */
  predicate Projectable(doc: Document) {
    && doc.schemaVersion == CURRENT_SCHEMA
    && KnownMode(doc.routing.mode) && PlainRules(doc.routing)
    && Upper(doc.dns.ipv6Mode) == doc.dns.ipv6Mode
    && Trimmed(doc.health.checkUrl)
  }

  /** The fields of a normalised document that the projection also defaults. */
  predicate NormalScalars(doc: Document) {
    && doc.id != "" && Trimmed(doc.id) && doc.name != "" && Trimmed(doc.name)
    && doc.runtime.backendKind != "" && Trimmed(doc.runtime.backendKind)
    && doc.runtime.fallbackPolicy != "" && Trimmed(doc.runtime.fallbackPolicy)
    && doc.dns.ipv6Mode != "" && doc.health.checkUrl != "" && !doc.inbounds.allowLan
  }

  lemma DefaultIsNormal(value: string, fallback: string)
    requires Trimmed(fallback) && fallback != ""
    ensures Default(value, fallback) != "" && Trimmed(Default(value, fallback))
  {
    hide Trim;
    TwoNames(Trim(value), fallback);
    TrimFixed(fallback);
  }

  lemma NormalizedScalars(document: Document, c: Checks)
    requires Normalized(document, c).Accepted?
    ensures NormalScalars(Normalized(document, c).doc)
  {
    hide Default, Trimmed, TidyNodes, NodesVerdict, SubsVerdict, ProvidersVerdict, NormalSubs, TidySubs, ValidPort, ProviderKeys, LiveIds;
    PlainDefaults();
    DefaultIsNormal(document.id, "default");
    DefaultIsNormal(document.name, "Default");
    DefaultIsNormal(document.runtime.backendKind, "ROOT_TPROXY");
    DefaultIsNormal(document.runtime.fallbackPolicy, "OFFER_RESET");
    DefaultIsNormal(document.dns.ipv6Mode, "MIRROR");
  }

  lemma PlainDefaults()
    ensures Trimmed("default") && Trimmed("Default") && Trimmed("ROOT_TPROXY") && Trimmed("OFFER_RESET") && Trimmed("MIRROR")
    ensures Trimmed("https://www.gstatic.com/generate_204")
  {
  }

  lemma KeepsName(value: string, fallback: string)
    requires value != "" && Trimmed(value)
    ensures FirstNonEmpty([value, fallback]) == value
  {
    hide Trim;
    TwoNames(value, fallback);
    TrimFixed(value);
  }

  lemma UrlTripIff(value: string, fallback: string)
    requires value != "" && fallback != "" && Trimmed(fallback)
    ensures FirstNonEmpty([value, fallback]) == value <==> Trimmed(value)
  {
    hide Trim;
    TwoNames(value, fallback);
    if Trimmed(value) { TrimFixed(value); }
  }

  /** A document applied to any configuration and read back gives its normal form exactly when that
      is projectable; and the configuration it was written into does not matter. */
  lemma DocumentRoundTripIff(base: Config, document: Document, c: Checks)
    ensures ApplyToConfig(base, document, c).Applied? <==> Normalized(document, c).Accepted?
    ensures ApplyToConfig(base, document, c).Applied? ==>
              var doc := Normalized(document, c).doc;
              FromConfig(ApplyToConfig(base, document, c).config) == doc <==> Projectable(doc)
  {
    hide Normalized, FromConfig, Project, Projectable;
    if Normalized(document, c).Accepted? {
      NormalizedScalars(document, c);
      NormalTripIff(base, Normalized(document, c).doc);
    }
  }

  /** What the trip makes of a document in normal form. */
  lemma NormalTrip(base: Config, doc: Document)
    requires NormalScalars(doc)
    ensures FromConfig(Project(base, doc)) == doc.(
              schemaVersion := CURRENT_SCHEMA, routing := RoutingFromConfig(ApplyRouting(base.rules, doc.routing)),
              dns := DnsFromConfig(ApplyDns(base.resolver, doc.dns)),
              health := doc.health.(checkUrl := FirstNonEmpty([doc.health.checkUrl, "https://www.gstatic.com/generate_204"])))
  {
    hide RoutingFromConfig, ApplyRouting, DnsFromConfig, ApplyDns, Trimmed, FirstNonEmpty;
    KeepsName(doc.id, "default");
    KeepsName(doc.name, "Default");
    KeepsName(doc.runtime.backendKind, "ROOT_TPROXY");
    KeepsName(doc.runtime.fallbackPolicy, "OFFER_RESET");
  }

  lemma NormalTripIff(base: Config, doc: Document)
    requires NormalScalars(doc)
    ensures FromConfig(Project(base, doc)) == doc <==> Projectable(doc)
  {
    hide FromConfig, Project, RoutingFromConfig, ApplyRouting, DnsFromConfig, ApplyDns, Trimmed, Upper, KnownMode, PlainRules, FirstNonEmpty;
    NormalTrip(base, doc);
    RoutingTripIff(base.rules, doc.routing);
    DnsTrip(base.resolver, doc.dns);
    PlainDefaults();
    UrlTripIff(doc.health.checkUrl, "https://www.gstatic.com/generate_204");
  }

  /** Whatever the document, one trip through a configuration settles it for the bare projection: a
      second trip, through any other configuration, reads back the same. */
  lemma TripSettles(first: Config, second: Config, doc: Document)
    ensures var once := FromConfig(Project(first, doc)); FromConfig(Project(second, once)) == once
  {
    hide RoutingFromConfig, ApplyRouting, DnsFromConfig, ApplyDns, Trimmed, Upper, KnownMode, PlainRules;
    var once := FromConfig(Project(first, doc));
    PlainDefaults();
    NamedSettles(doc.id, "default");
    NamedSettles(doc.name, "Default");
    NamedSettles(doc.runtime.backendKind, "ROOT_TPROXY");
    NamedSettles(doc.runtime.fallbackPolicy, "OFFER_RESET");
    NamedSettles(doc.health.checkUrl, "https://www.gstatic.com/generate_204");
    RoutingTripIsPlain(first.rules, doc.routing);
    RoutingTripIff(second.rules, once.routing);
    DnsTrip(first.resolver, doc.dns);
    DnsTrip(second.resolver, once.dns);
    UpperSettles(doc.dns.ipv6Mode);
  }

  lemma NamedSettles(value: string, fallback: string)
    requires fallback != "" && Trimmed(fallback)
    ensures var r := FirstNonEmpty([value, fallback]); r != "" && Trimmed(r) && FirstNonEmpty([r, fallback]) == r
  {
    hide Trim;
    TwoNames(value, fallback);
    TrimFixed(fallback);
    KeepsName(FirstNonEmpty([value, fallback]), fallback);
  }

  lemma UpperSettles(s: string)
    ensures Upper(Upper(s)) == Upper(s) && (Upper(s) == "" <==> s == "") && Upper("MIRROR") == "MIRROR"
  {
    CaseIsSettled(s);
    UpperFixed("MIRROR");
  }
}
