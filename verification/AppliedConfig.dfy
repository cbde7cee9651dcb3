/** What a configuration says after a document was applied to it, field by field, and what the daemon
    then wants of its routing. */
module AppliedConfig {
  import opened Text
  import opened ProfileModel
  import opened ProfileNormalization
  import opened ConfigProjection
  import opened NormalForm

  /** The packages that the desired state takes into the tunnel, and those that it leaves out. */
  datatype AppSelection = AppSelection(proxied: seq<string>, bypassed: seq<string>)

  function SelectedApps(rules: Rules): AppSelection {
    match rules.appsMode
    case "whitelist" => AppSelection(rules.packages, rules.alwaysDirectApps)
    case "blacklist" => AppSelection([], rules.alwaysDirectApps + rules.packages)
    case _ => AppSelection([], rules.alwaysDirectApps)
  }

  /** The routing mode of the desired state. */
  function DesiredMode(rules: Rules): string {
    match rules.mode
    case "all" =>
      if rules.appsMode == "whitelist" then "PER_APP" else if rules.appsMode == "blacklist" then "PER_APP_BYPASS" else "PROXY_ALL"
    case "whitelist" => "PER_APP"
    case "blacklist" => "PER_APP_BYPASS"
    case "rules" => "RULES"
    case "direct" => "DIRECT"
    case _ => "PROXY_ALL"
  }

  // Rule lists.

  /** How many of the first i entries are not blank. */
  function KeptBefore(values: seq<string>, i: nat): nat
    requires i <= |values|
  {
    if i == 0 then 0 else KeptBefore(values, i - 1) + if Trim(values[i - 1]) == "" then 0 else 1
  }

  lemma {:induction false} KeptBeforeFront(values: seq<string>, n: nat, i: nat)
    requires i <= n <= |values|
    ensures KeptBefore(values[..n], i) == KeptBefore(values, i)
  {
    hide Trim;
    if i > 0 { KeptBeforeFront(values, n, i - 1); }
  }

  /** Cleaning a rule list keeps every entry that is not blank, trimmed and in its order, and nothing else. */
  lemma {:induction false} KeptAt(values: seq<string>, i: nat)
    requires i < |values|
    ensures |Kept(values)| == KeptBefore(values, |values|)
    ensures Trim(values[i]) != "" ==> KeptBefore(values, i) < |Kept(values)| && Kept(values)[KeptBefore(values, i)] == Trim(values[i])
  {
    hide Trim, Kept;
    var n := |values| - 1;
    KeptStep(values);
    KeptLength(values);
    KeptLength(values[..n]);
    KeptBeforeFront(values, n, n);
    if i < n {
      KeptAt(values[..n], i);
      KeptBeforeFront(values, n, i);
    }
  }

  lemma KeptStep(values: seq<string>)
    requires values != []
    ensures var last := Trim(values[|values| - 1]); Kept(values) == Kept(values[..|values| - 1]) + if last == "" then [] else [last]
  {
    hide Trim;
  }

  lemma {:induction false} KeptLength(values: seq<string>)
    ensures |Kept(values)| == KeptBefore(values, |values|)
  {
    hide Trim;
    if values != [] {
      KeptLength(values[..|values| - 1]);
      KeptBeforeFront(values, |values| - 1, |values| - 1);
    }
  }

  /** How many of the first i entries are address rules, or domain rules. */
  function RulesBefore(values: seq<string>, slash: bool, i: nat): nat
    requires i <= |values|
  {
    if i == 0 then 0
    else RulesBefore(values, slash, i - 1) + if Trim(values[i - 1]) != "" && ('/' in Trim(values[i - 1]) <==> slash) then 1 else 0
  }

  lemma {:induction false} RulesBeforeFront(values: seq<string>, slash: bool, n: nat, i: nat)
    requires i <= n <= |values|
    ensures RulesBefore(values[..n], slash, i) == RulesBefore(values, slash, i)
  {
    hide Trim;
    if i > 0 { RulesBeforeFront(values, slash, n, i - 1); }
  }

  lemma SplitStep(values: seq<string>, slash: bool)
    requires values != []
    ensures var n, last := |values| - 1, Trim(values[|values| - 1]);
            Slashed(Kept(values), slash) ==
            Slashed(Kept(values[..n]), slash) + if last != "" && ('/' in last <==> slash) then [last] else []
  {
    hide Trim;
    var front, last := Kept(values[..|values| - 1]), Trim(values[|values| - 1]);
    assert (front + [last])[..|front|] == front;
  }

  lemma {:induction false} SplitLength(values: seq<string>, slash: bool)
    ensures |Slashed(Kept(values), slash)| == RulesBefore(values, slash, |values|)
  {
    hide Trim, Kept, Slashed;
    if values != [] {
      SplitLength(values[..|values| - 1], slash);
      SplitStep(values, slash);
      RulesBeforeFront(values, slash, |values| - 1, |values| - 1);
    } else {
      NothingSplit(slash);
    }
  }

  lemma NothingSplit(slash: bool)
    ensures Slashed(Kept([]), slash) == []
  {
  }

  /** Splitting puts every entry that is not blank, trimmed and in its order, among the address rules
      if it holds a slash and among the domain rules otherwise, and nothing else into either list. */
  lemma {:induction false} SplitAt(values: seq<string>, slash: bool, i: nat)
    requires i < |values|
    ensures |Slashed(Kept(values), slash)| == RulesBefore(values, slash, |values|)
    ensures Trim(values[i]) != "" && ('/' in Trim(values[i]) <==> slash) ==>
              var at := RulesBefore(values, slash, i);
              at < |Slashed(Kept(values), slash)| && Slashed(Kept(values), slash)[at] == Trim(values[i])
  {
    hide Trim, Kept, Slashed;
    var n := |values| - 1;
    SplitStep(values, slash);
    SplitLength(values, slash);
    SplitLength(values[..n], slash);
    RulesBeforeFront(values, slash, n, n);
    if i < n {
      SplitAt(values[..n], slash, i);
      RulesBeforeFront(values, slash, n, i);
    }
  }

  // What is written.

  /** What the mode of a document makes of the routing mode, the apps mode and the packages. */
  ghost predicate ModeApplied(rules: Rules, mode: string, routing: Routing) {
    && (mode == "PROXY_ALL" ==> rules.mode == "all" && rules.appsMode == "all" && rules.packages == [])
    && (mode == "PER_APP" ==> rules.mode == "whitelist" && rules.appsMode == "whitelist" && rules.packages == routing.appProxyList)
    && (mode == "PER_APP_BYPASS" ==> rules.mode == "blacklist" && rules.appsMode == "blacklist" && rules.packages == routing.appBypassList)
    && (mode == "DIRECT" ==> rules.mode == "direct" && rules.appsMode == "off" && rules.packages == [])
    && (mode == "RULES" ==> rules.mode == "rules" && rules.appsMode == "all" && rules.packages == routing.appProxyList)
    && (mode !in ["PROXY_ALL", "PER_APP", "PER_APP_BYPASS", "DIRECT", "RULES"] ==>
          rules.mode == "whitelist" && rules.appsMode == "whitelist" && rules.packages == routing.appProxyList)
  }

  lemma ModeIsWritten(rules: Rules, routing: Routing)
    ensures ModeApplied(ApplyRouting(rules, routing), routing.mode, routing)
  {
    hide SharedRules;
  }

  lemma RulesAreWritten(rules: Rules, routing: Routing)
    ensures var after := ApplyRouting(rules, routing);
            && after.customDirect == Kept(routing.directDomains) + Kept(routing.directIps)
            && after.customProxy == Kept(routing.proxyDomains) + Kept(routing.proxyIps)
            && after.customBlock == Kept(routing.blockDomains) + Kept(routing.blockIps)
            && after.inactiveAppProxyList == routing.appProxyList && after.inactiveAppBypassList == routing.appBypassList
            && after.alwaysDirectApps == routing.alwaysDirectApps && after.alwaysDirectExcludedApps == routing.alwaysDirectExcludedApps
            && after.alwaysDirectSystemApps == routing.alwaysDirectSystemApps && after.bypassRussia == routing.bypassRussia
            && after.appGroups == routing.appGroupRoutes && after.others == rules.others
  {
    hide Kept, ApplyRouting;
    WritesShared(rules, routing);
  }

  lemma AppliedMeans(base: Config, document: Document, c: Checks)
    requires ApplyToConfig(base, document, c).Applied?
    ensures Normalized(document, c).Accepted?
    ensures var config, doc := ApplyToConfig(base, document, c).config, Normalized(document, c).doc;
            && config.rules == ApplyRouting(base.rules, doc.routing)
            && config.resolver == ApplyDns(base.resolver, doc.dns)
            && config.profile == Panel(doc.id, doc.name, doc.activeNodeId, doc.nodes, doc.subscriptions, doc.tun, doc.inbounds, doc.extra)
            && config.runtime == Runtime(FirstNonEmpty([doc.runtime.backendKind, "ROOT_TPROXY"]), FirstNonEmpty([doc.runtime.fallbackPolicy, "OFFER_RESET"]))
            && config.health == doc.health.(checkUrl := FirstNonEmpty([doc.health.checkUrl, "https://www.gstatic.com/generate_204"]))
            && config.sharing == doc.sharing && config.others == base.others
  {
    hide Normalized, ApplyRouting, ApplyDns, FirstNonEmpty;
  }

  /** The routing that an applied document leaves in the configuration. */
  lemma AppliedRouting(base: Config, document: Document, c: Checks)
    requires ApplyToConfig(base, document, c).Applied?
    ensures ModeApplied(ApplyToConfig(base, document, c).config.rules, Or(document.routing.mode, "PROXY_ALL"), document.routing)
    ensures var rules, routing := ApplyToConfig(base, document, c).config.rules, document.routing;
            && rules.customDirect == Kept(routing.directDomains) + Kept(routing.directIps)
            && rules.customProxy == Kept(routing.proxyDomains) + Kept(routing.proxyIps)
            && rules.customBlock == Kept(routing.blockDomains) + Kept(routing.blockIps)
            && rules.inactiveAppProxyList == routing.appProxyList && rules.inactiveAppBypassList == routing.appBypassList
            && rules.alwaysDirectApps == routing.alwaysDirectApps && rules.alwaysDirectExcludedApps == routing.alwaysDirectExcludedApps
            && rules.alwaysDirectSystemApps == routing.alwaysDirectSystemApps && rules.bypassRussia == routing.bypassRussia
            && rules.appGroups == routing.appGroupRoutes && rules.others == base.rules.others
  {
    hide ApplyToConfig, Normalized, ApplyRouting, ApplyDns, FirstNonEmpty, Kept, Or, ModeApplied;
    AppliedMeans(base, document, c);
    NormalSettings(document, c);
    var routing := Normalized(document, c).doc.routing;
    ModeIsWritten(base.rules, routing);
    RulesAreWritten(base.rules, routing);
    SameLists(ApplyToConfig(base, document, c).config.rules, routing, document.routing);
  }

  lemma SameLists(rules: Rules, a: Routing, b: Routing)
    requires a == b.(mode := a.mode) && ModeApplied(rules, a.mode, a)
    ensures ModeApplied(rules, a.mode, b)
  {
  }

  /** What the daemon wants once a document is applied: an unknown mode counts as PER_APP; the proxied
      list is taken in by PER_APP alone, and the bypassed list is left out by PER_APP_BYPASS alone, on
      top of the apps that always go direct. */
  lemma AppliedSelection(base: Config, document: Document, c: Checks)
    requires ApplyToConfig(base, document, c).Applied?
    ensures var rules, routing := ApplyToConfig(base, document, c).config.rules, document.routing;
            var mode := Or(routing.mode, "PROXY_ALL");
            && DesiredMode(rules) == (if mode in ["PROXY_ALL", "PER_APP_BYPASS", "DIRECT", "RULES"] then mode else "PER_APP")
            && SelectedApps(rules) ==
               if mode == "PER_APP_BYPASS" then AppSelection([], routing.alwaysDirectApps + routing.appBypassList)
               else if mode == "PROXY_ALL" || mode == "DIRECT" || mode == "RULES" then AppSelection([], routing.alwaysDirectApps)
               else AppSelection(routing.appProxyList, routing.alwaysDirectApps)
  {
    hide ApplyToConfig, Kept, Or;
    AppliedRouting(base, document, c);
  }

  lemma FallbackTwice(value: string, fallback: string)
    requires Trimmed(fallback) && fallback != ""
    ensures FirstNonEmpty([Or(value, fallback), fallback]) == Or(value, fallback)
  {
    hide Trim;
    TwoNames(Or(value, fallback), fallback);
    TrimFixed(Or(value, fallback));
  }

  /** Everything else that an applied document leaves in the configuration. */
  lemma AppliedSettings(base: Config, document: Document, c: Checks)
    requires ApplyToConfig(base, document, c).Applied?
    ensures var config, doc := ApplyToConfig(base, document, c).config, Normalized(document, c).doc;
            && config.profile == Panel(Or(document.id, "default"), Or(document.name, "Default"), doc.activeNodeId, doc.nodes, doc.subscriptions,
                                       doc.tun, document.inbounds, document.extra)
            && config.runtime == Runtime(Or(document.runtime.backendKind, "ROOT_TPROXY"), Or(document.runtime.fallbackPolicy, "OFFER_RESET"))
            && config.sharing == document.sharing && config.others == base.others
    ensures var resolver, dns := ApplyToConfig(base, document, c).config.resolver, document.dns;
            && resolver.proxyDns == Or(dns.remoteDns, "https://1.1.1.1/dns-query")
            && resolver.directDns == Or(dns.directDns, "https://dns.google/dns-query")
            && resolver.bootstrapIp == Or(dns.bootstrapIp, "1.1.1.1") && resolver.fakeIp == dns.fakeDns
            && resolver.ipv6Mode == Lower(Or(dns.ipv6Mode, "MIRROR")) && resolver.others == base.resolver.others
    ensures var health, doc := ApplyToConfig(base, document, c).config.health, Normalized(document, c).doc.health;
            health == doc.(checkUrl := if document.health.checkUrl == "" then "https://www.gstatic.com/generate_204"
                                       else Or(document.health.checkUrl, "https://www.gstatic.com/generate_204"))
  {
    hide ApplyToConfig, Normalized, ApplyRouting, FirstNonEmpty, Or, Trimmed, Lower;
    AppliedMeans(base, document, c);
    NormalSettings(document, c);
    PlainDefaults();
    FallbackTwice(document.runtime.backendKind, "ROOT_TPROXY");
    FallbackTwice(document.runtime.fallbackPolicy, "OFFER_RESET");
    ModeIsNotBlank(document.dns.ipv6Mode);
    UrlIsWritten(Normalized(document, c).doc.health.checkUrl);
  }

  lemma ModeIsNotBlank(mode: string)
    ensures Lower(Or(mode, "MIRROR")) != ""
  {
    hide Trim;
  }

  lemma UrlIsWritten(url: string)
    ensures FirstNonEmpty([url, "https://www.gstatic.com/generate_204"]) == Or(url, "https://www.gstatic.com/generate_204")
    ensures Or("https://www.gstatic.com/generate_204", "https://www.gstatic.com/generate_204") == "https://www.gstatic.com/generate_204"
  {
    hide Trim, Trimmed;
    TwoNames(url, "https://www.gstatic.com/generate_204");
    PlainDefaults();
    TrimFixed("https://www.gstatic.com/generate_204");
  }

  // What is read.

  /** What the routing mode of a configuration makes of a document's mode and app lists. */
  lemma ModeIsRead(config: Config)
    ensures var rules, routing := config.rules, FromConfig(config).routing;
            && (rules.mode == "all" ==> routing.mode == "PROXY_ALL")
            && (rules.mode == "blacklist" ==> routing.mode == "PER_APP_BYPASS")
            && (rules.mode == "direct" ==> routing.mode == "DIRECT")
            && (rules.mode == "rules" ==> routing.mode == "RULES")
            && (rules.mode !in ["all", "blacklist", "direct", "rules"] ==> routing.mode == "PER_APP")
            && routing.appBypassList == (if rules.mode == "blacklist" then rules.packages else rules.inactiveAppBypassList)
            && routing.appProxyList == (if rules.mode in ["all", "blacklist", "direct"] then rules.inactiveAppProxyList else rules.packages)
  {
    hide SplitDomains, SplitIps, FromConfig;
    RoutingIsRead(config);
  }

  lemma RulesAreRead(config: Config)
    ensures var rules, routing := config.rules, FromConfig(config).routing;
            && routing.directDomains == Slashed(Kept(rules.customDirect), false) && routing.directIps == Slashed(Kept(rules.customDirect), true)
            && routing.proxyDomains == Slashed(Kept(rules.customProxy), false) && routing.proxyIps == Slashed(Kept(rules.customProxy), true)
            && routing.blockDomains == Slashed(Kept(rules.customBlock), false) && routing.blockIps == Slashed(Kept(rules.customBlock), true)
            && routing.alwaysDirectApps == rules.alwaysDirectApps && routing.alwaysDirectExcludedApps == rules.alwaysDirectExcludedApps
            && routing.alwaysDirectSystemApps == rules.alwaysDirectSystemApps && routing.bypassRussia == rules.bypassRussia
            && routing.appGroupRoutes == rules.appGroups
  {
    hide Slashed, Kept, RoutingFromConfig, FromConfig;
    RoutingIsRead(config);
    ReadsShared(config.rules);
  }

  lemma RoutingIsRead(config: Config)
    ensures FromConfig(config).routing == RoutingFromConfig(config.rules)
  {
    hide RoutingFromConfig, FirstNonEmpty, DnsFromConfig;
  }

  lemma SettingsAreRead(config: Config)
    ensures var doc, panel, resolver := FromConfig(config), config.profile, config.resolver;
            && doc.schemaVersion == 2 && doc.id == Or(panel.id, "default") && doc.name == Or(panel.name, "Default")
            && doc.activeNodeId == panel.activeNodeId && doc.nodes == panel.nodes && doc.subscriptions == panel.subscriptions
            && doc.runtime == config.runtime && doc.health == config.health && doc.sharing == config.sharing
            && doc.dns == Dns(resolver.proxyDns, resolver.directDns, resolver.bootstrapIp, Upper(resolver.ipv6Mode), resolver.fakeIp)
            && doc.tun == panel.tun && doc.inbounds == Inbounds(panel.inbounds.socksPort, panel.inbounds.httpPort, false)
            && doc.extra == panel.extra
  {
    hide Trim, RoutingFromConfig, Upper;
    TwoNames(config.profile.id, "default");
    TwoNames(config.profile.name, "Default");
    PlainDefaults();
    TrimFixed("default");
    TrimFixed("Default");
  }
}
