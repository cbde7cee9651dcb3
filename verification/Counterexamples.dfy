/** Inputs at which a promise fails as it is usually put. The theorem with the exact condition is
    named at each; here the condition is seen to bite. */
module Counterexamples {
  import opened Text
  import opened ProfileModel
  import opened FreshIds
  import opened NodeMerge
  import opened NodeMergeFacts
  import opened ProviderOrder
  import opened SubscriptionRefresh
  import opened RefreshFacts
  import opened RefreshTheorems
  import opened RefreshAgain
  import RefreshDocument
  import ProfileEdits
  import ProfileNormalization
  import ConfigProjection

  function FromProvider(id: string, providerKey: string, link: string): Node {
    Node(id, id, "trojan", "example.org", 443, link, "{}", "", "", 1, false, Source(SUBSCRIPTION, "u", providerKey, 1), "")
  }

  lemma KeyOf(id: string, providerKey: string, link: string)
    requires link != "" && Trimmed(providerKey) && Trimmed(link)
    ensures Linked(FromProvider(id, providerKey, link))
    ensures NodeMatchKey(FromProvider(id, providerKey, link)) == SUBSCRIPTION + ":" + providerKey + BAR + link
    ensures forall p :: IsProviderNode(FromProvider(id, providerKey, link), p) <==> p == providerKey
  {
    hide Trim, Trimmed, Lower, NodeMatchKey;
    TrimFixed(providerKey);
    TrimFixed(link);
    LinkedKey(FromProvider(id, providerKey, link));
  }

  /** `ProviderOrder.ReorderPermutesIff`: of two nodes with one link, the reordering keeps one. */
  lemma SharedLinkLosesANode()
    ensures var nodes := [FromProvider("1", "a", "x"), FromProvider("2", "a", "x")];
            var order := Distinct(Keys(nodes));
            NoRepeats(order) && multiset(Reordered(nodes, "a", order)) != multiset(nodes)
  {
    hide NodeMatchKey, IsProviderNode, Reordered, Claimed, Distinct, Provided, Used;
    var nodes, key := [FromProvider("1", "a", "x"), FromProvider("2", "a", "x")], NodeMatchKey(FromProvider("1", "a", "x"));
    var order := Distinct(Keys(nodes));
    KeyOf("1", "a", "x");
    KeyOf("2", "a", "x");
    DistinctFacts(Keys(nodes));
    assert Keys(nodes)[0] == key;
    AllProvided(nodes, "a");
    ReorderPermutesIff(nodes, "a", order);
    BothClaimed(nodes, key, order);
  }

  lemma BothClaimed(nodes: seq<Node>, key: string, order: seq<string>)
    requires |nodes| == 2 && key != "" && NodeMatchKey(nodes[0]) == key == NodeMatchKey(nodes[1]) && key in order
    ensures !NoRepeats(Keys(Claimed(nodes, Used(order, ByKey(nodes)))))
  {
    hide NodeMatchKey;
    assert nodes == [nodes[0], nodes[1]] && nodes[..1] == [nodes[0]] && nodes[..1][..0] == [];
    assert key in ByKey(nodes);
    var claimed := Claimed(nodes, Used(order, ByKey(nodes)));
    assert Claimed(nodes[..1], Used(order, ByKey(nodes))) == [nodes[0]];
    assert claimed == [nodes[0], nodes[1]];
    assert Keys(claimed)[0] == Keys(claimed)[1] == key;
  }

  const BAR := "|link:"

  /** `RefreshTheorems.RefreshLeavesOthersIff`: the node of provider `a|link:x` with link `y` answers
      to the key of provider `a`'s node with link `x|link:y`, and a refresh of `a` takes it over. */
  lemma BarredProviderIsTakenOver()
    ensures var stored, feed := [FromProvider("1", "a" + BAR + "x", "y")], [FromProvider("2", "a", "x" + BAR + "y")];
            AllProviders(feed, "a") && Others(RefreshedNodes(stored, "a", feed), "a") != Others(stored, "a")
  {
    hide NodeMatchKey, IsProviderNode, RefreshedNodes, Others, FromProvider, Hit, BAR, Trimmed;
    var stored, feed := [FromProvider("1", "a" + BAR + "x", "y")], [FromProvider("2", "a", "x" + BAR + "y")];
    LettersAreTrimmed();
    BarMakesKeysEqual("a", "x", "y");
    RefreshLeavesOthersIff(stored, "a", feed);
    OneIsHit(stored[0], feed[0]);
  }

  lemma LettersAreTrimmed()
    ensures Trimmed("a") && Trimmed("x") && Trimmed("y")
  {
  }

  lemma BarMakesKeysEqual(a: string, x: string, y: string)
    requires a != "" && Trimmed(a) && x != "" && Trimmed(x) && y != "" && Trimmed(y)
    ensures var mine, other := FromProvider("2", a, x + BAR + y), FromProvider("1", a + BAR + x, y);
            NodeMatchKey(other) == NodeMatchKey(mine) != "" && IsProviderNode(mine, a) && !IsProviderNode(other, a)
  {
    hide NodeMatchKey, IsProviderNode, FromProvider, BAR;
    KeyOf("1", a + BAR + x, y);
    KeyOf("2", a, x + BAR + y);
    Regrouped(SUBSCRIPTION + ":", a, BAR, x, y);
    assert |a + BAR + x| > |a|;
  }

  lemma Regrouped(head: string, a: string, bar: string, x: string, y: string)
    ensures head + (a + bar + x) + bar + y == head + a + bar + (x + bar + y)
  {
  }

  lemma OneIsHit(node: Node, incoming: Node)
    requires NodeMatchKey(node) == NodeMatchKey(incoming) != ""
    ensures Hit([node], 0, [incoming])
  {
    hide NodeMatchKey;
    var key := NodeMatchKey(node);
    assert Keys([node]) == [key] && Keys([incoming]) == [key];
    assert key in NonBlank([key]);
  }

  function Provider(providerKey: string): Subscription {
    Subscription(providerKey, "u", "", 0, 0, 0, "")
  }

  lemma TagsItself(nodes: seq<Node>)
    ensures Trim("a") == "a" && Trim("u") == "u"
    ensures (forall n :: n in nodes ==> n.source.kind == SUBSCRIPTION && n.source.providerKey == "a" && n.source.url == "u")
              ==> Tagged(nodes, "a", "u") == nodes
  {
    hide Trim;
    TrimFixed("a");
    TrimFixed("u");
    forall i | 0 <= i < |nodes| ensures nodes[i] in nodes {
    }
  }

  /** `RefreshAgain.RefreshIsIdempotentIff`: a new node whose name begins with a blank is stored with
      the blank, and loses it when it comes in again. */
  lemma UntrimmedNameSettlesLate(current: Document)
    requires current.nodes == []
    ensures var feed := [FromProvider("1", "a", "x").(name := " x")];
            var next := Refreshed(current, Provider("a"), feed).0;
            Refreshed(next, Provider("a"), feed).0 != next
  {
    hide Trim, NodeMatchKey, Refreshed, InLine, Fresh, First;
    var node := FromProvider("1", "a", "x").(name := " x");
    KeyOf("1", "a", "x");
    SameKeyWhateverTheName(FromProvider("1", "a", "x"), " x");
    TagsItself([node]);
    assert [node] == [] + [node] && !Trimmed(node.name);
    NewlyFirst([], node);
    FreshStep([], [], node);
    RefreshIsIdempotentIff(current, Provider("a"), [node]);
  }

  lemma SameKeyWhateverTheName(node: Node, name: string)
    ensures NodeMatchKey(node.(name := name)) == NodeMatchKey(node)
  {
    hide Trim, Upper, Lower, NormalizeProtocol, JoinBar, DecimalInt, LinkKey;
  }

  /** `RefreshAgain.RefreshIsIdempotentIff`: of two nodes that answer to one key of the feed, the one of
      provider `a|link:x` stands behind a node of provider `a` after the first refresh, and is taken
      over by the second. */
  lemma BystanderIsTakenOverLater(current: Document)
    requires current.nodes == [FromProvider("0", "a", "y"), FromProvider("1", "a" + BAR + "x", "y"), FromProvider("2", "a", "x" + BAR + "y")]
    ensures var feed := [current.nodes[2]];
            var next := Refreshed(current, Provider("a"), feed).0;
            Refreshed(next, Provider("a"), feed).0 != next
  {
    hide Trim, NodeMatchKey, IsProviderNode, Refreshed, FreshTidy, InLine, BAR, Trimmed, Linked;
    var nodes := current.nodes;
    LettersAreTrimmed();
    KeyOf("0", "a", "y");
    BarMakesKeysEqual("a", "x", "y");
    StaysLinked();
    OutOfLine(nodes, "a");
    TagsItself([nodes[2]]);
    RefreshIsIdempotentIff(current, Provider("a"), [nodes[2]]);
  }

  lemma StaysLinked()
    ensures Linked(FromProvider("2", "a", "x" + BAR + "y"))
  {
    hide Trim;
    TrimFixed("x" + BAR + "y");
  }

  lemma OutOfLine(nodes: seq<Node>, p: string)
    requires |nodes| == 3 && IsProviderNode(nodes[0], p) && !IsProviderNode(nodes[1], p)
    requires NodeMatchKey(nodes[1]) == NodeMatchKey(nodes[2]) != ""
    ensures !InLine(nodes, p, [nodes[2]])
  {
    hide NodeMatchKey, IsProviderNode;
    var k := NodeMatchKey(nodes[2]);
    assert Keys(nodes)[2] == k;
    assert KeyIndex(Keys(nodes))[k] == 2;
    assert Keys([nodes[2]])[0] == k;
    assert Claims(nodes, p, [nodes[2]], 0) && !Claims(nodes, p, [nodes[2]], 1);
  }

  /** `RefreshDocument.LinklessKeepsKeyIff`: a node without a link whose ID is taken gets another key. */
  lemma LinklessNodeChangesKey()
    ensures var node := FromProvider("a", "p", "");
            NodeMatchKey(node.(id := ImportedId(node, {"a"}))) != NodeMatchKey(node)
  {
    hide NodeMatchKey, ImportedId, Trim, Upper;
    var node := FromProvider("a", "p", "");
    TrimFixed("");
    TrimFixed("a");
    UpperKeepsSubscription();
    RefreshDocument.LinklessKeepsKeyIff(node, {"a"});
  }

  function Bare(activeNodeId: string, nodes: seq<Node>): Document {
    Document(2, "default", "Default", activeNodeId, nodes, [], Runtime("ROOT_TPROXY", "OFFER_RESET"),
             Routing("CUSTOM", false, [], [], map[], [], [], [], [], [], [], [], [], false),
             Dns("", "", "", "", false), Health(true, 0, 0, "", 0, [], [], false), Sharing(false, []), Tun(false, 0, "", ""),
             Inbounds(0, 0, false), "")
  }

  /** `ProfileEdits.UpsertKeepsIff`: upserting the active node as stale leaves a stale node active. */
  lemma UpsertTurnsActiveStale()
    ensures var node := FromProvider("a", "p", "x");
            var doc := Bare("a", [node]);
            ProfileEdits.Consistent(doc) && !ProfileEdits.Consistent(ProfileEdits.Upserted(doc, node.(stale := true)).doc)
  {
    var node := FromProvider("a", "p", "x");
    var doc := Bare("a", [node]);
    assert doc.nodes[0].id == "a" && !doc.nodes[0].stale;
    ProfileEdits.UpsertKeepsIff(doc, node.(stale := true));
  }

  /** `ProfileEdits.EditKeepsIff`: a runtime intent that names no node of the document is taken as it is. */
  lemma IntentActivatesNobody()
    ensures var doc := Bare("a", [FromProvider("a", "p", "x")]);
            var next := ProfileEdits.Intended(doc, ProfileEdits.Intent("", "", "b"));
            ProfileEdits.Consistent(doc) && next.activeNodeId == "b" && !ProfileEdits.Consistent(next)
  {
    var node := FromProvider("a", "p", "x");
    var doc := Bare("a", [node]);
    assert doc.nodes[0].id == "a" && !doc.nodes[0].stale;
    ProfileEdits.EditKeepsIff(doc, ProfileEdits.DoIntend(ProfileEdits.Intent("", "", "b")));
  }

  /** `ConfigProjection.DocumentRoundTripIff`: a routing mode that the configuration does not know is
      accepted by normalisation and lost on the trip through any configuration. */
  lemma UnknownModeIsLost(base: ConfigProjection.Config, c: ProfileNormalization.Checks)
    ensures var normal, applied := ProfileNormalization.Normalized(Bare("", []), c), ConfigProjection.ApplyToConfig(base, Bare("", []), c);
            normal.Accepted? && normal.doc.routing.mode == "CUSTOM" && applied.Applied?
            && ConfigProjection.FromConfig(applied.config) != normal.doc
  {
    hide ProfileNormalization.Normalized, ConfigProjection.ApplyToConfig, ConfigProjection.FromConfig, Bare;
    BareIsAccepted(c);
    ConfigProjection.DocumentRoundTripIff(base, Bare("", []), c);
  }

  lemma BareIsAccepted(c: ProfileNormalization.Checks)
    ensures var outcome := ProfileNormalization.Normalized(Bare("", []), c);
            outcome.Accepted? && outcome.doc.routing.mode == "CUSTOM"
  {
    hide ProfileNormalization.Default, ProfileNormalization.NormalSubs;
    KeptMode();
  }

  lemma KeptMode()
    ensures ProfileNormalization.Default("CUSTOM", "PROXY_ALL") == "CUSTOM"
  {
    hide Trim;
    TrimFixed("CUSTOM");
    TwoNames("CUSTOM", "PROXY_ALL");
  }
}
