/** The compiler from stored nodes to the core's outbound graph and the routes into it. */
module OutboundGraph {
  import opened Basics
  import opened Text
  import opened ProxyNode

  /** A stored node either cannot be decoded or decodes to a profile, still without its tag. */
  datatype StoredNode = Unreadable | Stored(profile: NodeProfile)

  /** The node configuration and transport that are projected from the active node. */
  datatype NodeConfig = NodeConfig(protocol: string, address: string, port: int, transport: string, details: string)

  /** `settings` stands for everything else that is compiled without looking at the nodes. */
  datatype Config = Config(
    activeNodeId: string, nodes: seq<StoredNode>, node: NodeConfig, healthUrl: string,
    routingMode: string, appsMode: string, packages: seq<string>, appGroups: map<string, string>, alwaysDirectApps: seq<string>,
    apiPort: int, apiSecret: string, settings: string)

  datatype Outbound =
    | NodeOut(tag: string, profile: NodeProfile)
    | UrlTest(tag: string, members: seq<string>)
    | Selector(tag: string, members: seq<string>, chosen: string)
    | Direct(tag: string)

  datatype Plan = Plan(name: string, base: string, tags: seq<string>)

  datatype PlanTable = PlanTable(plans: seq<Plan>, used: map<string, nat>)

  /** Whether a node can be written as an outbound; the protocol-specific fields decide. */
  type Renders = NodeProfile -> bool

  // Tags.

  predicate TagChar(c: char) {
    'a' <= c <= 'z' || '0' <= c <= '9' || c == '_' || c == '-'
  }

  /** Every run of other characters becomes one dash. */
  function Squeezed(s: string, inRun: bool): (r: string)
    ensures forall c | c in r :: TagChar(c)
  {
    if s == "" then ""
    else if TagChar(s[0]) then [s[0]] + Squeezed(s[1..], false)
    else (if inRun then "" else "-") + Squeezed(s[1..], true)
  }

  function DropDashes(s: string): (r: string)
    ensures forall c | c in r :: c in s
  {
    if s != "" && s[0] == '-' then DropDashes(s[1..])
    else if s != "" && s[|s| - 1] == '-' then DropDashes(s[..|s| - 1])
    else s
  }

  function Sanitized(s: string): (r: string)
    ensures forall c | c in r :: TagChar(c)
  {
    DropDashes(Squeezed(Lower(s), false))
  }

  /** What the tag of the node at position i is made of: its ID, or else its name, if that sanitises to
      something, and otherwise its position. */
  function TagBase(profile: NodeProfile, i: nat): string {
    var fallback := "node-" + Decimal(i + 1);
    var base := if profile.id != "" then profile.id else if profile.name != "" then profile.name else fallback;
    if Sanitized(base) == "" then fallback else Sanitized(base)
  }

  function OutboundTag(profile: NodeProfile, i: nat): string {
    "node-" + TagBase(profile, i)
  }

  predicate NodeTag(tag: string) {
    "node-" <= tag
  }

  lemma TagsOfNodes(profile: NodeProfile, i: nat)
    ensures NodeTag(OutboundTag(profile, i)) && Trim(OutboundTag(profile, i)) == OutboundTag(profile, i)
  {
    hide Sanitized, Trim, Decimal;
    var tag := OutboundTag(profile, i);
    assert tag[0] == 'n';
    assert forall c | c in tag :: TagChar(c) by {
      assert forall c | c in "node-" :: TagChar(c);
    }
    assert tag[|tag| - 1] in tag;
    TrimFixed(tag);
  }

  // Usable and renderable nodes.

  predicate IsUsable(p: NodeProfile) {
    !p.stale && p.address != "" && p.port != 0 && p.protocol != ""
  }

  function Usable(nodes: seq<StoredNode>): seq<NodeProfile> {
    if nodes == [] then []
    else
      var n := |nodes| - 1;
      if nodes[n].Stored? && IsUsable(nodes[n].profile)
      then Usable(nodes[..n]) + [nodes[n].profile.(tag := OutboundTag(nodes[n].profile, n))]
      else Usable(nodes[..n])
  }

  method UsableProfileNodes(cfg: Config) returns (profiles: seq<NodeProfile>)
    ensures profiles == Usable(cfg.nodes)
  {
    hide OutboundTag;
    profiles := [];
    for i := 0 to |cfg.nodes|
      invariant profiles == Usable(cfg.nodes[..i])
    {
      assert cfg.nodes[..i + 1][..i] == cfg.nodes[..i];
      if cfg.nodes[i].Unreadable? {
        continue;
      }
      var profile := cfg.nodes[i].profile;
      profile := profile.(tag := OutboundTag(profile, i));
      if profile.stale || profile.address == "" || profile.port == 0 || profile.protocol == "" {
        continue;
      }
      profiles := profiles + [profile];
    }
    assert cfg.nodes[..|cfg.nodes|] == cfg.nodes;
  }

  /** The first profile with this ID. */
  function Find(profiles: seq<NodeProfile>, id: string): Option<NodeProfile> {
    if profiles == [] then None
    else if profiles[0].id == id then Some(profiles[0])
    else Find(profiles[1..], id)
  }

  method FindByID(profiles: seq<NodeProfile>, id: string) returns (found: Option<NodeProfile>)
    ensures found == Find(profiles, id)
  {
    for i := 0 to |profiles|
      invariant Find(profiles, id) == Find(profiles[i..], id)
    {
      if profiles[i].id == id {
        return Some(profiles[i]);
      }
    }
    return None;
  }

  /** The active node by its stored ID, untrimmed, or the first usable node. */
  function ResolveActive(cfg: Config): Option<NodeProfile> {
    var profiles := Usable(cfg.nodes);
    if profiles == [] then None
    else if Find(profiles, cfg.activeNodeId).Some? then Find(profiles, cfg.activeNodeId)
    else Some(profiles[0])
  }

  predicate Requires(profile: Option<NodeProfile>) {
    profile.Some? && RequiresXraySidecar(profile.value)
  }

  function ActiveXhttpId(cfg: Config): string {
    if Requires(ResolveActive(cfg)) then ResolveActive(cfg).value.id else ""
  }

  predicate Skipped(p: NodeProfile, xhttpId: string) {
    RequiresXraySidecar(p) && p.id != xhttpId
  }

  /** The nodes that render, or none at all when the active one is invalid. */
  function Renderable(profiles: seq<NodeProfile>, activeId: string, xhttpId: string, renders: Renders): Option<seq<NodeProfile>> {
    if profiles == [] then Some([])
    else
      var front, p := Renderable(profiles[..|profiles| - 1], activeId, xhttpId, renders), profiles[|profiles| - 1];
      if front.None? then None
      else if Skipped(p, xhttpId) then front
      else if !renders(p) then (if activeId != "" && p.id == activeId then None else front)
      else Some(front.value + [p])
  }

  function RenderableNodes(cfg: Config, renders: Renders): Option<seq<NodeProfile>> {
    Renderable(Usable(cfg.nodes), Trim(cfg.activeNodeId), ActiveXhttpId(cfg), renders)
  }

  lemma {:induction false} InvalidStaysInvalid(profiles: seq<NodeProfile>, n: nat, activeId: string, xhttpId: string, renders: Renders)
    requires n <= |profiles| && Renderable(profiles[..n], activeId, xhttpId, renders).None?
    ensures Renderable(profiles, activeId, xhttpId, renders).None?
  {
    hide Skipped;
    if n == |profiles| {
      assert profiles[..n] == profiles;
    } else {
      assert profiles[..|profiles| - 1][..n] == profiles[..n];
      InvalidStaysInvalid(profiles[..|profiles| - 1], n, activeId, xhttpId, renders);
    }
  }

  method RenderableProfileNodes(cfg: Config, profiles: seq<NodeProfile>, renders: Renders) returns (renderable: Option<seq<NodeProfile>>)
    requires profiles == Usable(cfg.nodes)
    ensures renderable == RenderableNodes(cfg, renders)
  {
    hide Trim, RequiresXraySidecar, Usable;
    var activeId := Trim(cfg.activeNodeId);
    var active := FindByID(profiles, cfg.activeNodeId);
    if active.None? && profiles != [] {
      active := Some(profiles[0]);
    }
    var xhttpId := "";
    if active.Some? && RequiresXraySidecar(active.value) {
      xhttpId := active.value.id;
    }
    var kept: seq<NodeProfile> := [];
    for i := 0 to |profiles|
      invariant Renderable(profiles[..i], activeId, xhttpId, renders) == Some(kept)
    {
      assert profiles[..i + 1][..i] == profiles[..i];
      var profile := profiles[i];
      if RequiresXraySidecar(profile) && profile.id != xhttpId {
        continue;
      }
      if !renders(profile) {
        if activeId != "" && profile.id == activeId {
          InvalidStaysInvalid(profiles, i + 1, activeId, xhttpId, renders);
          return None;
        }
        continue;
      }
      kept := kept + [profile];
    }
    assert profiles[..|profiles|] == profiles;
    return Some(kept);
  }

  // Groups.

  function PlanIndex(plans: seq<Plan>, name: string): (i: nat)
    ensures i <= |plans| && (i < |plans| ==> plans[i].name == name)
    ensures forall j :: 0 <= j < i ==> plans[j].name != name
  {
    if plans == [] then 0 else if plans[0].name == name then 0 else 1 + PlanIndex(plans[1..], name)
  }

  function Uses(used: map<string, nat>, base: string): nat {
    if base in used then used[base] else 0
  }

  /** What a group's tag is made of before any renaming. */
  function RawBase(group: string): string {
    if Sanitized(Trim(group)) == "" then "default" else Sanitized(Trim(group))
  }

  function FreshBase(used: map<string, nat>, group: string): string {
    var base := RawBase(group);
    if Uses(used, base) > 0 then base + "-" + Decimal(Uses(used, base) + 1) else base
  }

  /** A group's first node opens its plan; the renamed base is the one that is counted. */
  function Planned(table: PlanTable, profile: NodeProfile): PlanTable {
    var group := Trim(profile.group);
    if group == "" || profile.tag == "" then table
    else
      var i := PlanIndex(table.plans, group);
      if i < |table.plans| then table.(plans := table.plans[i := table.plans[i].(tags := table.plans[i].tags + [profile.tag])])
      else
        var base := FreshBase(table.used, group);
        PlanTable(table.plans + [Plan(group, base, [profile.tag])], table.used[base := Uses(table.used, base) + 1])
  }

  function PlanAll(profiles: seq<NodeProfile>): PlanTable {
    if profiles == [] then PlanTable([], map[]) else Planned(PlanAll(profiles[..|profiles| - 1]), profiles[|profiles| - 1])
  }

  function Plans(profiles: seq<NodeProfile>): seq<Plan> {
    PlanAll(profiles).plans
  }

  ghost predicate IndexesPlans(byName: map<string, nat>, plans: seq<Plan>) {
    forall name :: (name in byName <==> PlanIndex(plans, name) < |plans|) && (name in byName ==> byName[name] == PlanIndex(plans, name))
  }

  lemma {:induction false} PlanIndexUpdates(plans: seq<Plan>, i: nat, tags: seq<string>, name: string)
    requires i < |plans|
    ensures PlanIndex(plans[i := plans[i].(tags := tags)], name) == PlanIndex(plans, name)
  {
    var updated := plans[i := plans[i].(tags := tags)];
    if i > 0 {
      PlanIndexUpdates(plans[1..], i - 1, tags, name);
      assert updated[1..] == plans[1..][i - 1 := plans[i].(tags := tags)];
    } else {
      assert updated[1..] == plans[1..];
    }
  }

  lemma {:induction false} PlanIndexAppends(plans: seq<Plan>, plan: Plan, name: string)
    ensures PlanIndex(plans + [plan], name) ==
              if PlanIndex(plans, name) < |plans| then PlanIndex(plans, name)
              else if plan.name == name then |plans| else |plans| + 1
  {
    if plans == [] {
      assert [plan][1..] == [];
    } else {
      assert (plans + [plan])[1..] == plans[1..] + [plan];
      PlanIndexAppends(plans[1..], plan, name);
    }
  }

  lemma IndexesAppended(byName: map<string, nat>, plans: seq<Plan>, plan: Plan)
    requires IndexesPlans(byName, plans) && plan.name !in byName
    ensures IndexesPlans(byName[plan.name := |plans|], plans + [plan])
  {
    hide PlanIndex;
    forall name ensures PlanIndex(plans + [plan], name) ==
                  if PlanIndex(plans, name) < |plans| then PlanIndex(plans, name) else if plan.name == name then |plans| else |plans| + 1 {
      PlanIndexAppends(plans, plan, name);
    }
  }

  lemma IndexesUpdated(byName: map<string, nat>, plans: seq<Plan>, i: nat, tags: seq<string>)
    requires IndexesPlans(byName, plans) && i < |plans|
    ensures IndexesPlans(byName, plans[i := plans[i].(tags := tags)])
  {
    hide PlanIndex;
    forall name ensures PlanIndex(plans[i := plans[i].(tags := tags)], name) == PlanIndex(plans, name) {
      PlanIndexUpdates(plans, i, tags, name);
    }
  }

  lemma IndexOf(byName: map<string, nat>, plans: seq<Plan>, name: string)
    requires IndexesPlans(byName, plans)
    ensures if name in byName then byName[name] == PlanIndex(plans, name) < |plans| else PlanIndex(plans, name) == |plans|
  {
    hide PlanIndex;
  }

  method BuildGroupOutboundPlans(profiles: seq<NodeProfile>) returns (plans: seq<Plan>)
    ensures plans == Plans(profiles)
  {
    hide Trim, FreshBase, PlanIndex, IndexesPlans;
    plans := [];
    var byName: map<string, nat> := map[];
    var used: map<string, nat> := map[];
    EmptyIndexes();
    for n := 0 to |profiles|
      invariant PlanAll(profiles[..n]) == PlanTable(plans, used)
      invariant IndexesPlans(byName, plans)
    {
      assert profiles[..n + 1][..n] == profiles[..n];
      var profile := profiles[n];
      var group := Trim(profile.group);
      if group == "" || profile.tag == "" {
        continue;
      }
      IndexOf(byName, plans, group);
      if group !in byName {
        var base := FreshBase(used, group);
        used := used[base := Uses(used, base) + 1];
        var plan := Plan(group, base, [profile.tag]);
        IndexesAppended(byName, plans, plan);
        byName := byName[group := |plans|];
        plans := plans + [plan];
      } else {
        var i := byName[group];
        IndexesUpdated(byName, plans, i, plans[i].tags + [profile.tag]);
        plans := plans[i := plans[i].(tags := plans[i].tags + [profile.tag])];
      }
    }
    assert profiles[..|profiles|] == profiles;
  }

  lemma EmptyIndexes()
    ensures IndexesPlans(map[], [])
  {
  }

  function GroupTag(plan: Plan): string {
    "group-" + plan.base
  }

  function AutoTag(plan: Plan): string {
    GroupTag(plan) + "-auto"
  }

  /** One group's outbounds: a selector, and an automatic choice when there is one to make. */
  function GroupOutbounds(plan: Plan): seq<Outbound> {
    if plan.tags == [] then []
    else if |plan.tags| == 1 then [Selector(GroupTag(plan), plan.tags, plan.tags[0])]
    else [UrlTest(AutoTag(plan), plan.tags), Selector(GroupTag(plan), [AutoTag(plan)] + plan.tags, AutoTag(plan))]
  }

  function AllGroups(plans: seq<Plan>): seq<Outbound> {
    if plans == [] then [] else AllGroups(plans[..|plans| - 1]) + GroupOutbounds(plans[|plans| - 1])
  }

  method BuildGroupOutbounds(plans: seq<Plan>) returns (outbounds: seq<Outbound>)
    ensures outbounds == AllGroups(plans)
  {
    outbounds := [];
    for i := 0 to |plans|
      invariant outbounds == AllGroups(plans[..i])
    {
      assert plans[..i + 1][..i] == plans[..i];
      var plan := plans[i];
      if plan.tags == [] {
        continue;
      }
      var members, chosen := plan.tags, plan.tags[0];
      ghost var before := outbounds;
      if |plan.tags| > 1 {
        outbounds := outbounds + [UrlTest(AutoTag(plan), plan.tags)];
        members, chosen := [AutoTag(plan)] + plan.tags, AutoTag(plan);
      }
      outbounds := outbounds + [Selector(GroupTag(plan), members, chosen)];
      assert outbounds == before + GroupOutbounds(plan);
    }
    assert plans[..|plans|] == plans;
  }

  // The whole graph.

  /** A single node is the proxy itself. */
  function Retagged(profiles: seq<NodeProfile>): seq<NodeProfile> {
    seq(|profiles|, i requires 0 <= i < |profiles| =>
      if |profiles| == 1 then profiles[i].(tag := "proxy")
      else if profiles[i].tag == "" then profiles[i].(tag := "node-" + Decimal(i + 1))
      else profiles[i])
  }

  function NodeOuts(profiles: seq<NodeProfile>): seq<Outbound> {
    seq(|profiles|, i requires 0 <= i < |profiles| => NodeOut(profiles[i].tag, profiles[i]))
  }

  function Tags(profiles: seq<NodeProfile>): seq<string> {
    seq(|profiles|, i requires 0 <= i < |profiles| => profiles[i].tag)
  }

  function GroupTags(plans: seq<Plan>): seq<string> {
    seq(|plans|, i requires 0 <= i < |plans| => GroupTag(plans[i]))
  }

  function ActiveTag(cfg: Config, profiles: seq<NodeProfile>): string {
    var id := Trim(cfg.activeNodeId);
    if id == "" then "" else FirstTag(profiles, id)
  }

  function FirstTag(profiles: seq<NodeProfile>, id: string): string {
    if profiles == [] then ""
    else if profiles[0].id == id && profiles[0].tag != "" then profiles[0].tag
    else FirstTag(profiles[1..], id)
  }

  function Choice(cfg: Config, profiles: seq<NodeProfile>): seq<Outbound> {
    if |profiles| <= 1 then []
    else
      var tags, active := Tags(profiles), ActiveTag(cfg, profiles);
      [UrlTest("auto", tags),
       Selector("proxy", ["auto"] + tags + GroupTags(Plans(profiles)), if active != "" then active else "auto")]
  }

  function Graph(cfg: Config, profiles: seq<NodeProfile>): seq<Outbound> {
    NodeOuts(profiles) + Choice(cfg, profiles) + AllGroups(Plans(profiles)) + [Direct("direct")]
  }

  /** The nodes that the graph is built from, tags settled; none when the configuration does not render. */
  function Sources(cfg: Config, resolved: NodeProfile, renders: Renders): Option<seq<NodeProfile>> {
    if Usable(cfg.nodes) == [] then
      if resolved.address == "" || resolved.port == 0 || !renders(resolved.(tag := "proxy")) then None
      else Some([resolved.(tag := "proxy")])
    else
      var renderable := RenderableNodes(cfg, renders);
      if renderable.None? || renderable.value == [] then None else Some(Retagged(renderable.value))
  }

  function Outbounds(cfg: Config, resolved: NodeProfile, renders: Renders): Option<seq<Outbound>> {
    var sources := Sources(cfg, resolved, renders);
    if sources.None? then None else Some(Graph(cfg, sources.value))
  }

  method ActiveProfileNodeTag(cfg: Config, profiles: seq<NodeProfile>) returns (tag: string)
    ensures tag == ActiveTag(cfg, profiles)
  {
    hide Trim;
    var id := Trim(cfg.activeNodeId);
    if id == "" {
      return "";
    }
    for i := 0 to |profiles|
      invariant FirstTag(profiles, id) == FirstTag(profiles[i..], id)
    {
      if profiles[i].id == id && profiles[i].tag != "" {
        return profiles[i].tag;
      }
    }
    return "";
  }

  method BuildOutbounds(cfg: Config, resolved: NodeProfile, renders: Renders) returns (outbounds: Option<seq<Outbound>>)
    ensures outbounds == Outbounds(cfg, resolved, renders)
  {
    hide Usable, RenderableNodes, Plans, ActiveTag, AllGroups, Decimal;
    var profiles := UsableProfileNodes(cfg);
    if profiles != [] {
      var renderable := RenderableProfileNodes(cfg, profiles, renders);
      if renderable.None? || renderable.value == [] {
        return None;
      }
      profiles := SettleTags(renderable.value);
    } else {
      if resolved.address == "" || resolved.port == 0 {
        return None;
      }
      var only := resolved.(tag := "proxy");
      if !renders(only) {
        return None;
      }
      profiles := [only];
    }
    var plans := BuildGroupOutboundPlans(profiles);
    var list: seq<Outbound> := [];
    var tags: seq<string> := [];
    for i := 0 to |profiles|
      invariant list == NodeOuts(profiles[..i]) && tags == Tags(profiles[..i])
    {
      list := list + [NodeOut(profiles[i].tag, profiles[i])];
      tags := tags + [profiles[i].tag];
    }
    assert profiles[..|profiles|] == profiles;
    ghost var nodes := list;
    if |tags| > 1 {
      list := list + [UrlTest("auto", tags)];
      var members := ["auto"] + tags;
      for i := 0 to |plans|
        invariant members == ["auto"] + tags + GroupTags(plans[..i])
      {
        members := members + ["group-" + plans[i].base];
      }
      assert plans[..|plans|] == plans;
      var chosen := "auto";
      var active := ActiveProfileNodeTag(cfg, profiles);
      if active != "" {
        chosen := active;
      }
      list := list + [Selector("proxy", members, chosen)];
    }
    assert list == nodes + Choice(cfg, profiles);
    var groups := BuildGroupOutbounds(plans);
    return Some(list + groups + [Direct("direct")]);
  }

  method SettleTags(profiles: seq<NodeProfile>) returns (settled: seq<NodeProfile>)
    ensures settled == Retagged(profiles)
  {
    hide Decimal;
    settled := [];
    for i := 0 to |profiles|
      invariant settled == Retagged(profiles)[..i]
    {
      var profile := profiles[i];
      if |profiles| == 1 {
        profile := profile.(tag := "proxy");
      } else if profile.tag == "" {
        profile := profile.(tag := "node-" + Decimal(i + 1));
      }
      settled := settled + [profile];
    }
  }

  // Routes.

  predicate AlwaysDirect(cfg: Config, package: string) {
    exists i :: 0 <= i < |cfg.alwaysDirectApps| && Trim(cfg.alwaysDirectApps[i]) == package
  }

  /** The group outbound that an app-group entry routes its package to, if any. */
  function RouteOf(cfg: Config, plans: seq<Plan>, key: string): Option<string>
    requires key in cfg.appGroups
  {
    var package, group := Trim(key), Trim(cfg.appGroups[key]);
    var i := PlanIndex(plans, group);
    if package == "" || group == "" || AlwaysDirect(cfg, package) || i == |plans| then None
    else Some(GroupTag(plans[i]))
  }

  /** Where traffic goes that no rule decides on. */
  function FinalOutbound(cfg: Config): string {
    if cfg.routingMode == "direct" then "direct" else "proxy"
  }

  /** What the remote resolver is reached through. */
  function RemoteDetour(resolved: NodeProfile): string {
    if RequiresXraySidecar(resolved) then "direct" else "proxy"
  }

  /** Every outbound that the configuration names outside the outbound list: by the rules of the app
      groups, as the last resort, as the resolver's detour, and by the rules that lead to a fixed place. */
  function References(cfg: Config, resolved: NodeProfile, rules: map<string, set<string>>): set<string> {
    rules.Keys + {FinalOutbound(cfg), RemoteDetour(resolved), "proxy", "direct"}
  }

  /** The packages of the rule for each group outbound. */
  ghost predicate RoutesGroups(cfg: Config, plans: seq<Plan>, done: set<string>, rules: map<string, set<string>>)
    requires done <= cfg.appGroups.Keys
  {
    && (forall key :: key in done && RouteOf(cfg, plans, key).Some? ==>
          RouteOf(cfg, plans, key).value in rules && Trim(key) in rules[RouteOf(cfg, plans, key).value])
    && (forall tag, package :: tag in rules && package in rules[tag] ==>
          exists key :: key in done && RouteOf(cfg, plans, key) == Some(tag) && Trim(key) == package)
    && (forall tag :: tag in rules ==> rules[tag] != {})
  }

  function WithRoute(rules: map<string, set<string>>, tag: string, package: string): map<string, set<string>> {
    rules[tag := (if tag in rules then rules[tag] else {}) + {package}]
  }

  lemma RouteSkipped(cfg: Config, plans: seq<Plan>, done: set<string>, key: string, rules: map<string, set<string>>)
    requires done <= cfg.appGroups.Keys && key in cfg.appGroups && RoutesGroups(cfg, plans, done, rules)
    requires RouteOf(cfg, plans, key).None?
    ensures RoutesGroups(cfg, plans, done + {key}, rules)
  {
    hide RouteOf, Trim;
    forall t, package | t in rules && package in rules[t]
      ensures exists k :: k in done + {key} && RouteOf(cfg, plans, k) == Some(t) && Trim(k) == package
    {
      var k :| k in done && RouteOf(cfg, plans, k) == Some(t) && Trim(k) == package;
      assert k in done + {key};
    }
  }

  lemma RouteAdded(cfg: Config, plans: seq<Plan>, done: set<string>, key: string, rules: map<string, set<string>>, tag: string)
    requires done <= cfg.appGroups.Keys && key in cfg.appGroups && RoutesGroups(cfg, plans, done, rules)
    requires RouteOf(cfg, plans, key) == Some(tag)
    ensures RoutesGroups(cfg, plans, done + {key}, WithRoute(rules, tag, Trim(key)))
  {
    hide RouteOf, Trim;
    var next := WithRoute(rules, tag, Trim(key));
    forall t, package | t in next && package in next[t]
      ensures exists k :: k in done + {key} && RouteOf(cfg, plans, k) == Some(t) && Trim(k) == package
    {
      if t in rules && package in rules[t] {
        var k :| k in done && RouteOf(cfg, plans, k) == Some(t) && Trim(k) == package;
        assert k in done + {key};
      } else {
        assert key in done + {key};
      }
    }
  }

  /** Whatever order the map of app groups is walked in, each group outbound gets exactly the trimmed
      packages that are routed to it, and a rule exists exactly where there is such a package. */
  method BuildAppGroupRouteRules(cfg: Config) returns (rules: map<string, set<string>>)
    ensures RoutesGroups(cfg, Plans(Usable(cfg.nodes)), cfg.appGroups.Keys, rules)
  {
    hide Trim, Usable, RouteOf, RoutesGroups, WithRoute;
    rules := map[];
    var profiles := UsableProfileNodes(cfg);
    var plans := BuildGroupOutboundPlans(profiles);
    var left := cfg.appGroups.Keys;
    NothingRouted(cfg, plans);
    assert cfg.appGroups.Keys - left == {};
    while left != {}
      invariant left <= cfg.appGroups.Keys
      invariant RoutesGroups(cfg, plans, cfg.appGroups.Keys - left, rules)
      decreases |left|
    {
      var key :| key in left;
      var tag := RouteOf(cfg, plans, key);
      assert cfg.appGroups.Keys - (left - {key}) == cfg.appGroups.Keys - left + {key};
      if tag.None? {
        RouteSkipped(cfg, plans, cfg.appGroups.Keys - left, key, rules);
      } else {
        RouteAdded(cfg, plans, cfg.appGroups.Keys - left, key, rules, tag.value);
      }
      left := left - {key};
      if tag.Some? {
        rules := WithRoute(rules, tag.value, Trim(key));
      }
    }
    assert cfg.appGroups.Keys - left == cfg.appGroups.Keys;
  }

  lemma NothingRouted(cfg: Config, plans: seq<Plan>)
    ensures RoutesGroups(cfg, plans, {}, map[])
  {
  }
}
