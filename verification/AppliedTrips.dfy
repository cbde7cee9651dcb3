/** The trip of a document through a configuration as the daemon makes it, normalisation included. */
module AppliedTrips {
  import opened Text
  import opened ProfileModel
  import opened ProfileNormalization
  import opened NodeMerge
  import opened NormalizationFacts
  import opened ConfigProjection

  /** What a document brings into normalisation besides the scalars of its settings. */
  predicate SameButSettings(a: Document, b: Document) {
    b == a.(schemaVersion := b.schemaVersion, routing := b.routing, dns := b.dns, health := b.health)
  }

  /** Settings do not decide whether a document is accepted, and are tidied on their own. */
  lemma SettingsApart(a: Document, b: Document, c: Checks)
    requires SameButSettings(a, b) && b.schemaVersion == CURRENT_SCHEMA && Normalized(a, c).Accepted?
    ensures var r, t := Normalized(a, c), TidyScalars(b);
            Normalized(b, c) == Accepted(r.doc.(schemaVersion := CURRENT_SCHEMA, routing := t.routing, dns := t.dns, health := t.health), r.warnings)
  {
    hide Default, TidyNodes, NodesVerdict, SubsVerdict, ProvidersVerdict, NormalSubs, TidySubs, FirstLiveId, ValidPort, ProviderKeys, LiveIds;
  }

  lemma SettledSettings(doc: Document, c: Checks)
    requires Normalized(doc, c) == Accepted(doc, [])
    ensures var t := TidyScalars(doc); t.routing == doc.routing && t.dns == doc.dns && t.health == doc.health
  {
    hide Default, DefaultInt, TidyNodes, NodesVerdict, SubsVerdict, ProvidersVerdict, NormalSubs, TidySubs, FirstLiveId, ValidPort,
         ProviderKeys, LiveIds;
  }

  lemma DefaultKeeps(value: string, fallback: string)
    requires value != "" && Trimmed(value)
    ensures Default(value, fallback) == value
  {
    hide Trim;
    TrimFixed(value);
    TwoNames(value, fallback);
  }

  lemma KnownModeStays(mode: string)
    requires KnownMode(mode)
    ensures mode != "" && Trimmed(mode)
  {
  }

  lemma UpperDnsStays(dns: Dns)
    requires dns.ipv6Mode != "" && Default(dns.ipv6Mode, "MIRROR") == dns.ipv6Mode
    ensures Default(Upper(dns.ipv6Mode), "MIRROR") == Upper(dns.ipv6Mode)
  {
    hide Trim, Trimmed;
    CaseIsSettled(dns.ipv6Mode);
    DefaultKeeps(Upper(dns.ipv6Mode), "MIRROR");
  }

  /** What is read back from an applied document is already in normal form. */
  lemma ReadBackIsNormal(first: Config, doc: Document, c: Checks)
    requires Normalized(doc, c) == Accepted(doc, []) && NormalScalars(doc)
    ensures var once := FromConfig(Project(first, doc)); Normalized(once, c) == Accepted(once, [])
  {
    hide Normalized, NormalScalars, FromConfig, Project, RoutingFromConfig, ApplyRouting, DnsFromConfig, ApplyDns, Default, Upper, Trimmed,
         KnownMode, PlainRules, FirstNonEmpty;
    var once := FromConfig(Project(first, doc));
    NonBlankSettings(doc);
    NormalTrip(first, doc);
    SettledSettings(doc, c);
    RoutingTripIsPlain(first.rules, doc.routing);
    KnownModeStays(once.routing.mode);
    DefaultKeeps(once.routing.mode, "PROXY_ALL");
    DnsTrip(first.resolver, doc.dns);
    UpperDnsStays(doc.dns);
    PlainDefaults();
    NamedSettles(doc.health.checkUrl, "https://www.gstatic.com/generate_204");
    SettingsApart(doc, once, c);
  }

  lemma NonBlankSettings(doc: Document)
    requires NormalScalars(doc)
    ensures doc.dns.ipv6Mode != ""
  {
  }

  /** A document that is applied to any configuration, read back and applied to any other one, at
      whatever later time, is accepted without a warning and reads back as it did the first time. */
  lemma AppliedTripSettles(first: Config, second: Config, document: Document, c: Checks, later: int)
    requires c.now != 0 && c.validJson("{}")
    ensures ApplyToConfig(first, document, c).Applied? ==>
              var once := FromConfig(ApplyToConfig(first, document, c).config);
              var again := ApplyToConfig(second, once, c.(now := later));
              again.Applied? && again.warnings == [] && FromConfig(again.config) == once
  {
    hide Normalized, FromConfig, Project, NormalScalars;
    if Normalized(document, c).Accepted? {
      var doc := Normalized(document, c).doc;
      NormalizeIsIdempotent(document, c, later);
      NormalizedScalars(document, c);
      ReadBackIsNormal(first, doc, c.(now := later));
      TripSettles(first, second, doc);
    }
  }
}
