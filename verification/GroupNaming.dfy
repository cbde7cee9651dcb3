/** When the tags of the group outbounds are distinct. */
module GroupNaming {
  import opened Text
  import opened ProxyNode
  import opened OutboundGraph
  import opened GraphFacts

  /** The groups of the nodes in the order of their first node. */
  function GroupNames(profiles: seq<NodeProfile>): seq<string> {
    if profiles == [] then []
    else
      var front, last := GroupNames(profiles[..|profiles| - 1]), profiles[|profiles| - 1];
      if Trim(last.group) == "" || last.tag == "" || Trim(last.group) in front then front else front + [Trim(last.group)]
  }

  function Raws(names: seq<string>): seq<string> {
    seq(|names|, i requires 0 <= i < |names| => RawBase(names[i]))
  }

  /** Naming with one spare: a name that is taken already gets `-2`. */
  function Named(raws: seq<string>): seq<string> {
    if raws == [] then []
    else
      var front, last := Named(raws[..|raws| - 1]), raws[|raws| - 1];
      front + [if last in front then last + "-2" else last]
  }

  /** No name comes when both it and its spare are taken. */
  predicate NoClash(raws: seq<string>) {
    raws == [] ||
    (var front, last := Named(raws[..|raws| - 1]), raws[|raws| - 1];
     NoClash(raws[..|raws| - 1]) && !(last in front && last + "-2" in front))
  }

  function Bases(plans: seq<Plan>): seq<string> {
    seq(|plans|, i requires 0 <= i < |plans| => plans[i].base)
  }

  function Names(plans: seq<Plan>): seq<string> {
    seq(|plans|, i requires 0 <= i < |plans| => plans[i].name)
  }

  ghost predicate AllDifferent(s: seq<string>) {
    forall i, j :: 0 <= i < j < |s| ==> s[i] != s[j]
  }

  lemma DifferentStep(s: seq<string>, x: string)
    ensures AllDifferent(s + [x]) <==> AllDifferent(s) && x !in s
  {
    var t := s + [x];
    if AllDifferent(t) {
      assert forall i :: 0 <= i < |s| ==> s[i] == t[i] && t[i] != t[|s|];
    }
  }

  lemma NamedLength(raws: seq<string>)
    ensures |Named(raws)| == |raws|
  {
    if raws != [] { NamedLength(raws[..|raws| - 1]); }
  }

  lemma {:induction false} NamedDiffer(raws: seq<string>)
    ensures NoClash(raws) ==> AllDifferent(Named(raws))
  {
    if raws != [] {
      NamedDiffer(raws[..|raws| - 1]);
      var front, last := Named(raws[..|raws| - 1]), raws[|raws| - 1];
      DifferentStep(front, if last in front then last + "-2" else last);
    }
  }

  lemma RawOfTrimmed(group: string)
    ensures RawBase(Trim(group)) == RawBase(group)
  {
    hide Sanitized, Trim;
    TrimFixed(Trim(group));
  }

  lemma SecondName(used: map<string, nat>, group: string)
    ensures Uses(used, RawBase(group)) == 0 ==> FreshBase(used, group) == RawBase(group)
    ensures Uses(used, RawBase(group)) == 1 ==> FreshBase(used, group) == RawBase(group) + "-2"
  {
    hide RawBase;
    assert Decimal(2) == "2";
    assert "-" + "2" == "-2";
    assert RawBase(group) + "-" + "2" == RawBase(group) + ("-" + "2");
  }

  /** As long as no clash has come up, the table gives the spare names and counts each base once. */
  ghost predicate InStep(table: PlanTable, raws: seq<string>) {
    if NoClash(raws) then
      Bases(table.plans) == Named(raws) && forall b :: Uses(table.used, b) == if b in Named(raws) then 1 else 0
    else !AllDifferent(Bases(table.plans))
  }

  lemma StepOpens(table: PlanTable, raws: seq<string>, group: string, tag: string)
    requires InStep(table, raws)
    ensures var base := FreshBase(table.used, group);
            InStep(PlanTable(table.plans + [Plan(Trim(group), base, [tag])], table.used[base := Uses(table.used, base) + 1]),
                   raws + [RawBase(group)])
  {
    hide RawBase, FreshBase, Trim;
    var base, raw, more := FreshBase(table.used, group), RawBase(group), raws + [RawBase(group)];
    var plans := table.plans + [Plan(Trim(group), base, [tag])];
    assert more[..|raws|] == raws;
    assert Bases(plans) == Bases(table.plans) + [base];
    DifferentStep(Bases(table.plans), base);
    SecondName(table.used, group);
    NamedDiffer(raws);
  }

  lemma {:induction false} PlansInStep(profiles: seq<NodeProfile>)
    ensures Names(Plans(profiles)) == GroupNames(profiles)
    ensures InStep(PlanAll(profiles), Raws(GroupNames(profiles)))
  {
    hide InStep, Trim, FreshBase, RawBase, PlanIndex;
    if profiles == [] {
      NothingInStep();
      assert Raws(GroupNames(profiles)) == [];
    } else {
      var front, last := profiles[..|profiles| - 1], profiles[|profiles| - 1];
      var table, group := PlanAll(front), Trim(last.group);
      PlansInStep(front);
      IndexOfName(table.plans, group);
      RawOfTrimmed(last.group);
      if group != "" && last.tag != "" {
        var i := PlanIndex(table.plans, group);
        if i < |table.plans| {
          SameBases(table, i, table.plans[i].tags + [last.tag], Raws(GroupNames(front)));
        } else {
          StepOpens(table, Raws(GroupNames(front)), last.group, last.tag);
          FreshOfTrimmed(table.used, last.group);
          assert Raws(GroupNames(profiles)) == Raws(GroupNames(front)) + [RawBase(last.group)];
        }
      }
    }
  }

  lemma FreshOfTrimmed(used: map<string, nat>, group: string)
    ensures FreshBase(used, Trim(group)) == FreshBase(used, group)
  {
    hide RawBase, Trim, Decimal;
    RawOfTrimmed(group);
  }

  lemma NothingInStep()
    ensures InStep(PlanTable([], map[]), [])
  {
  }

  lemma SameBases(table: PlanTable, i: nat, tags: seq<string>, raws: seq<string>)
    requires i < |table.plans| && InStep(table, raws)
    ensures var plans := table.plans[i := table.plans[i].(tags := tags)];
            InStep(table.(plans := plans), raws) && Names(plans) == Names(table.plans)
  {
    assert Bases(table.plans[i := table.plans[i].(tags := tags)]) == Bases(table.plans);
  }

  lemma IndexOfName(plans: seq<Plan>, name: string)
    ensures PlanIndex(plans, name) < |plans| <==> name in Names(plans)
  {
    var i := PlanIndex(plans, name);
    if i < |plans| { assert Names(plans)[i] == name; }
  }

  /** The groups' bases are distinct exactly when no group comes whose raw name and whose spare name
      are both taken; and then each group has its raw name or its spare. */
  lemma BasesDifferIff(profiles: seq<NodeProfile>)
    ensures AllDifferent(Bases(Plans(profiles))) <==> NoClash(Raws(GroupNames(profiles)))
    ensures NoClash(Raws(GroupNames(profiles))) ==> Bases(Plans(profiles)) == Named(Raws(GroupNames(profiles)))
  {
    hide NoClash, Named;
    PlansInStep(profiles);
    NamedDiffer(Raws(GroupNames(profiles)));
  }

  /** Groups whose names sanitise differently all keep their raw names. */
  lemma {:induction false} DifferentRawsNeverClash(raws: seq<string>)
    requires AllDifferent(raws)
    ensures NoClash(raws) && Named(raws) == raws
  {
    if raws != [] {
      DifferentRawsNeverClash(raws[..|raws| - 1]);
      assert raws == raws[..|raws| - 1] + [raws[|raws| - 1]];
      DifferentStep(raws[..|raws| - 1], raws[|raws| - 1]);
    }
  }

  lemma {:induction false} NamedIsRawOrSpare(raws: seq<string>, i: nat)
    requires i < |raws|
    ensures |Named(raws)| == |raws| && (Named(raws)[i] == raws[i] || Named(raws)[i] == raws[i] + "-2")
  {
    NamedLength(raws);
    NamedLength(raws[..|raws| - 1]);
    if i < |raws| - 1 { NamedIsRawOrSpare(raws[..|raws| - 1], i); }
  }

  /** Three groups whose names sanitise alike always clash. */
  lemma ThreeAlikeClash(raws: seq<string>, i: nat, j: nat, k: nat)
    requires i < j < k < |raws| && raws[i] == raws[j] == raws[k]
    ensures !NoClash(raws)
  {
    hide NoClash, Named;
    NamedIsRawOrSpare(raws, i);
    NamedIsRawOrSpare(raws, j);
    NamedIsRawOrSpare(raws, k);
    NamedDiffer(raws);
  }

  // The emitted tags.

  /** No two selectors among the group outbounds share a tag. */
  ghost predicate SelectorsDiffer(outs: seq<Outbound>) {
    forall a, b :: 0 <= a < b < |outs| && outs[a].Selector? && outs[b].Selector? ==> outs[a].tag != outs[b].tag
  }

  ghost predicate AllTagged(plans: seq<Plan>) {
    forall i :: 0 <= i < |plans| ==> plans[i].tags != []
  }

  lemma {:induction false} SelectorTagsAre(plans: seq<Plan>)
    requires AllTagged(plans)
    ensures forall a :: 0 <= a < |AllGroups(plans)| && AllGroups(plans)[a].Selector? ==> AllGroups(plans)[a].tag in GroupTags(plans)
    ensures SelectorsDiffer(AllGroups(plans)) <==> AllDifferent(GroupTags(plans))
    ensures forall tag :: tag in GroupTags(plans) ==> exists a :: 0 <= a < |AllGroups(plans)| && AllGroups(plans)[a].Selector? && AllGroups(plans)[a].tag == tag
  {
    hide GroupTag, AutoTag;
    if plans != [] {
      var n := |plans| - 1;
      var front, last := AllGroups(plans[..n]), GroupOutbounds(plans[n]);
      SelectorTagsAre(plans[..n]);
      assert GroupTags(plans) == GroupTags(plans[..n]) + [GroupTag(plans[n])];
      DifferentStep(GroupTags(plans[..n]), GroupTag(plans[n]));
      OneSelector(plans[n]);
      SelectorsAppend(front, last, GroupTags(plans[..n]), GroupTag(plans[n]));
    }
  }

  lemma OneSelector(plan: Plan)
    requires plan.tags != []
    ensures var outs := GroupOutbounds(plan);
            outs != [] && outs[|outs| - 1].Selector? && outs[|outs| - 1].tag == GroupTag(plan)
            && forall a :: 0 <= a < |outs| - 1 ==> !outs[a].Selector?
  {
    hide GroupTag, AutoTag;
  }

  /** One more selector, at the end. */
  lemma SelectorsAppend(front: seq<Outbound>, last: seq<Outbound>, tags: seq<string>, tag: string)
    requires last != [] && last[|last| - 1].Selector? && last[|last| - 1].tag == tag
    requires forall a :: 0 <= a < |last| - 1 ==> !last[a].Selector?
    requires forall a :: 0 <= a < |front| && front[a].Selector? ==> front[a].tag in tags
    requires forall t :: t in tags ==> exists a :: 0 <= a < |front| && front[a].Selector? && front[a].tag == t
    ensures var all := front + last;
            (SelectorsDiffer(all) <==> SelectorsDiffer(front) && tag !in tags)
            && (forall a :: 0 <= a < |all| && all[a].Selector? ==> all[a].tag in tags + [tag])
            && (forall t :: t in tags + [tag] ==> exists a :: 0 <= a < |all| && all[a].Selector? && all[a].tag == t)
  {
    var all, end := front + last, |front + last| - 1;
    assert all[end] == last[|last| - 1];
    forall t | t in tags + [tag] ensures exists a :: 0 <= a < |all| && all[a].Selector? && all[a].tag == t {
      if t in tags {
        var a :| 0 <= a < |front| && front[a].Selector? && front[a].tag == t;
        assert all[a] == front[a];
      }
    }
    if tag in tags {
      var a :| 0 <= a < |front| && front[a].Selector? && front[a].tag == tag;
      assert all[a] == front[a];
    }
    if SelectorsDiffer(all) {
      assert forall a :: 0 <= a < |front| ==> all[a] == front[a];
    }
  }

  lemma TagsFollowBases(plans: seq<Plan>)
    ensures AllDifferent(GroupTags(plans)) <==> AllDifferent(Bases(plans))
  {
    forall i, j | 0 <= i < j < |plans| ensures GroupTags(plans)[i] == GroupTags(plans)[j] <==> Bases(plans)[i] == Bases(plans)[j] {
      assert ("group-" + plans[i].base)[|"group-"|..] == plans[i].base;
      assert ("group-" + plans[j].base)[|"group-"|..] == plans[j].base;
    }
  }

  lemma PlansAreTagged(profiles: seq<NodeProfile>)
    ensures AllTagged(Plans(profiles))
  {
    hide Plans;
    PlansAreGood(profiles);
    assert forall i :: 0 <= i < |Plans(profiles)| ==> Plans(profiles)[i] in Plans(profiles);
  }

  /** The group selectors that are emitted carry distinct tags exactly when no group clashes. */
  lemma GroupTagsDifferIff(profiles: seq<NodeProfile>)
    ensures SelectorsDiffer(AllGroups(Plans(profiles))) <==> NoClash(Raws(GroupNames(profiles)))
  {
    hide AllGroups, Plans, NoClash;
    PlansAreTagged(profiles);
    SelectorTagsAre(Plans(profiles));
    TagsFollowBases(Plans(profiles));
    BasesDifferIff(profiles);
  }

  // An input that clashes.

  function NodeIn(id: string, group: string): NodeProfile {
    NodeProfile(id, id, group, "node-" + id, "trojan", "example.org", 443, "tcp", false, "")
  }

  const THREE_ALIKE := [NodeIn("1", "a"), NodeIn("2", "a!"), NodeIn("3", "a?")]

  lemma ShortIsTrimmed(c: char)
    requires c == '!' || c == '?'
    ensures Trim("a") == "a" && Trim(['a', c]) == ['a', c]
    ensures Lower("a") == "a" && Lower(['a', c]) == ['a', c]
  {
    hide Trim, Lower;
    TrimFixed("a");
    TrimFixed(['a', c]);
    LowerFixed("a");
    LowerFixed(['a', c]);
  }

  lemma ShortIsSqueezed(c: char)
    requires c == '!' || c == '?'
    ensures Squeezed("a", false) == "a" && Squeezed(['a', c], false) == "a-"
  {
    assert "a"[1..] == "" && ['a', c][1..] == [c] && [c][1..] == "";
    assert Squeezed("", false) == "" && Squeezed("", true) == "";
    assert Squeezed([c], false) == "-";
  }

  lemma ShortDropsDash()
    ensures DropDashes("a") == "a" && DropDashes("a-") == "a"
  {
    assert "a-"[..1] == "a";
  }

  lemma RawOfShort(c: char)
    requires c == '!' || c == '?'
    ensures RawBase("a") == "a" && RawBase(['a', c]) == "a" && Trim("a") == "a" && Trim(['a', c]) == ['a', c]
  {
    hide Trim, Lower, Squeezed, DropDashes;
    ShortIsTrimmed(c);
    ShortIsSqueezed(c);
    ShortDropsDash();
  }

  /** Three nodes in the groups `a`, `a!` and `a?`: two of the emitted group selectors share a tag. */
  lemma ThreeAlikeShareATag()
    ensures !SelectorsDiffer(AllGroups(Plans(THREE_ALIKE)))
  {
    hide AllGroups, Plans, NoClash, RawBase, Trim;
    var p := THREE_ALIKE;
    RawOfShort('!');
    RawOfShort('?');
    assert p[..2] == [p[0], p[1]] && p[..2][..1] == [p[0]] && p[..2][..1][..0] == [];
    assert GroupNames([]) == [];
    assert GroupNames([p[0]]) == ["a"];
    assert GroupNames([p[0], p[1]]) == ["a", "a!"];
    assert GroupNames(p) == ["a", "a!", "a?"];
    var raws := Raws(GroupNames(p));
    ThreeAlikeClash(raws, 0, 1, 2);
    GroupTagsDifferIff(p);
  }
}
