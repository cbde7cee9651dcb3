/** What a start, a stop and a hot swap come to, told from what each stage met alone. */
module CoreOutcomes {
  import opened Basics
  import opened ProxyNode
  import opened NetstackRules
  import opened CoreLifecycle
  import opened CoreRuns

  // Scripts.

  /** A stop script counts as clean when it ran or was missing; it leaves its rules only if it did not run. */
  predicate Clean(run: ScriptRun) {
    run == Ran || (run.Broke? && run.missing)
  }

  predicate LeavesRules(run: ScriptRun) {
    run.Broke? && run.left
  }

  /** After both stop scripts, exactly the rules are in place that a script that broke has left. */
  predicate RulesAfter(rules: Rules, runs: StopRuns) {
    (rules.dns <==> LeavesRules(runs.dns)) && (rules.iptables <==> LeavesRules(runs.iptables))
  }

  predicate RulesApply(runs: ApplyRuns) {
    Clean(runs.before.dns) && Clean(runs.before.iptables) && runs.iptables == Ran && runs.dns == Ran
  }

  /** Applying rules starts with taking down what is there; the packet rules go in before the
      interception that relies on them; and whatever was started without success is taken down again. */
  lemma ApplyInOrder(runs: ApplyRuns)
    ensures var calls, code := ApplyCalls(runs), ApplyCode(runs);
            calls[..2] == [DnsStop, IptablesStop]
            && (IptablesStart in calls <==> Clean(runs.before.dns) && Clean(runs.before.iptables))
            && (DnsStart in calls <==> IptablesStart in calls && runs.iptables == Ran)
            && (DnsStart in calls ==> calls[2..4] == [IptablesStart, DnsStart])
            && (PrivacyGuardStart in calls <==> RulesApply(runs))
            && (code.None? <==> RulesApply(runs))
            && (code == Some(NetstackCleanupFailed) <==> IptablesStart !in calls)
            && (code == Some(RulesNotApplied) <==> IptablesStart in calls && runs.iptables != Ran)
            && (code == Some(DnsApplyFailed) <==> DnsStart in calls && runs.dns != Ran)
            && (code.Some? ==> calls[|calls| - 2..] == [DnsStop, IptablesStop])
            && if code.None? then AfterApply(runs) == Rules(true, true)
               else RulesAfter(AfterApply(runs), if IptablesStart in calls then runs.undo else runs.before)
  {
  }

  // Start.

  predicate SidecarUp(runs: SidecarRuns) {
    runs.renders && runs.checks && runs.spawn.Some? && runs.listens
  }

  /** The core is spawned, listens on all its ports and owns them. */
  predicate LaunchRuns(runs: StartRuns) {
    runs.prepares && runs.spawn.Spawned? && runs.down.None? && runs.ownersMatch
  }

  predicate StartRunsThrough(runs: StartRuns, needsSidecar: bool) {
    && (needsSidecar ==> SidecarUp(runs.sidecar)) && runs.write == Written && runs.checks
    && LaunchRuns(runs) && RulesApply(runs.apply) && runs.iptablesStatus && runs.dnsStatus
  }

  predicate ReachesRules(runs: StartRuns, needsSidecar: bool) {
    (needsSidecar ==> SidecarUp(runs.sidecar)) && runs.write == Written && runs.checks && LaunchRuns(runs)
  }

  lemma StagesIff(runs: StartRuns, needsSidecar: bool)
    ensures PreparationFailsAt(runs, needsSidecar).None? <==> (needsSidecar ==> SidecarUp(runs.sidecar)) && runs.write == Written && runs.checks
    ensures LaunchFailsAt(runs).None? <==> LaunchRuns(runs)
    ensures StartFailsAt(runs, needsSidecar).None? <==> StartRunsThrough(runs, needsSidecar)
  {
    hide PreparationFailsAt;
    StartStages(runs, needsSidecar);
    PreparationIff(runs, needsSidecar);
  }

  lemma PreparationIff(runs: StartRuns, needsSidecar: bool)
    ensures PreparationFailsAt(runs, needsSidecar).None? <==> (needsSidecar ==> SidecarUp(runs.sidecar)) && runs.write == Written && runs.checks
  {
  }

  lemma PreparationLeaves(core: Core, profile: NodeProfile, runs: StartRuns)
    requires PreparationFailsAt(runs, RequiresXraySidecar(profile)).Some?
    ensures var after := Started(core, profile, runs);
            after == core.(state := Stopped, file := after.file, sidecar := after.sidecar) && (after.sidecar == core.sidecar || after.sidecar.None?)
  {
    hide RequiresXraySidecar, PreparationFailsAt, StartFailsAt, Committed;
    StartStages(runs, RequiresXraySidecar(profile));
    PreparationStages(runs, RequiresXraySidecar(profile));
  }

  lemma StartCommits(core: Core, profile: NodeProfile, runs: StartRuns)
    requires Sound(core) && !StartRefused(core) && StartRunsThrough(runs, RequiresXraySidecar(profile))
    ensures var after, needsSidecar := Started(core, profile, runs), RequiresXraySidecar(profile);
            && SoundRunning(after) && after.state == Running && after.runningProfile == Some(profile)
            && after.runningConfig == Some(core.config.(projection := ""))
            && after.config == core.config && after.file == Some(Rendered(core.config, profile))
            && after.process == Some(Process(runs.spawn.pid, after.file)) && after.rules == Rules(true, true)
            && after.marker == (core.marker || runs.marks) && (needsSidecar ==> after.sidecar == runs.sidecar.spawn)
  {
    hide RequiresXraySidecar, Address, AfterApply, Started, StartFailsAt, PreparationFailsAt, LaunchFailsAt, SidecarUp;
    StagesIff(runs, RequiresXraySidecar(profile));
    StartedInTurn(core, profile, runs);
    SidecarUpMeans(runs.sidecar);
    ApplyInOrder(runs.apply);
  }

  /** Stopped, with nothing tracked, and otherwise as before but for the file and the rules. */
  ghost predicate StoppedAgain(core: Core, after: Core) {
    NothingTracked(after) && after.state == Stopped && after.config == core.config && after.marker == core.marker
  }

  lemma UntrackedBefore(core: Core)
    requires Sound(core) && !StartRefused(core)
    ensures NothingTracked(core)
  {
  }

  lemma LaunchLeaves(core: Core, profile: NodeProfile, runs: StartRuns, stage: StartStage)
    requires NothingTracked(core)
    requires stage.Listen? || stage.Owners? || stage.Prepare? || stage.OpenLog? || stage.Spawn?
    ensures StoppedAgain(core, LaunchFailed(Ready(core, profile, runs), stage)) && LaunchFailed(Ready(core, profile, runs), stage).rules == core.rules
  {
    hide RequiresXraySidecar;
  }

  lemma LaunchStages(runs: StartRuns)
    ensures LaunchFailsAt(runs).Some? ==> LaunchFailsAt(runs).value in {Prepare, OpenLog, Spawn, Listen, Owners}
  {
  }

  lemma StartFails(core: Core, profile: NodeProfile, runs: StartRuns)
    requires NothingTracked(core) && !StartRunsThrough(runs, RequiresXraySidecar(profile))
    ensures var after := Started(core, profile, runs);
            StoppedAgain(core, after) && if ReachesRules(runs, RequiresXraySidecar(profile)) then RulesAfter(after.rules, runs.undo) else after.rules == core.rules
  {
    hide RequiresXraySidecar, Address, AfterApply, Started, StartFailsAt, PreparationFailsAt, LaunchFailsAt, LaunchFailed, SidecarUp, StoppedRules,
         RulesAfter, LaunchRuns, Committed, Clean, Applied;
    StagesIff(runs, RequiresXraySidecar(profile));
    StartedInTurn(core, profile, runs);
    LaunchStages(runs);
    if PreparationFailsAt(runs, RequiresXraySidecar(profile)).Some? {
      PreparationLeaves(core, profile, runs);
    } else if LaunchFailsAt(runs).Some? {
      LaunchLeaves(core, profile, runs, LaunchFailsAt(runs).value);
    } else {
      UndoneRules(runs.undo);
      AppliedMeans(runs.apply);
    }
  }

  lemma AppliedMeans(runs: ApplyRuns)
    ensures Applied(runs) <==> RulesApply(runs)
  {
  }

  /** A start commits exactly when every stage it needs succeeds; otherwise nothing is tracked, and the
      rules are those from before unless their own stage was reached. */
  lemma StartCommitsIff(core: Core, profile: NodeProfile, runs: StartRuns)
    requires Sound(core) && !StartRefused(core)
    ensures var after, needsSidecar := Started(core, profile, runs), RequiresXraySidecar(profile);
            (StartFailsAt(runs, needsSidecar).None? <==> StartRunsThrough(runs, needsSidecar))
            && if StartRunsThrough(runs, needsSidecar) then
                 && SoundRunning(after) && after.state == Running && after.runningProfile == Some(profile)
                 && after.runningConfig == Some(core.config.(projection := "")) && after.config == core.config && after.file == Some(Rendered(core.config, profile))
                 && after.process == Some(Process(runs.spawn.pid, after.file)) && after.rules == Rules(true, true)
                 && after.marker == (core.marker || runs.marks) && (needsSidecar ==> after.sidecar == runs.sidecar.spawn)
               else
                 && NothingTracked(after) && after.state == Stopped && after.config == core.config && after.marker == core.marker
                 && if ReachesRules(runs, needsSidecar) then RulesAfter(after.rules, runs.undo) else after.rules == core.rules
  {
    hide RequiresXraySidecar, Sound, Started, StartFailsAt, StartRunsThrough, SoundRunning, NothingTracked, RulesAfter, ReachesRules;
    StagesIff(runs, RequiresXraySidecar(profile));
    if StartRunsThrough(runs, RequiresXraySidecar(profile)) {
      SpawnNeeded(runs, RequiresXraySidecar(profile));
      StartCommits(core, profile, runs);
    } else {
      UntrackedBefore(core);
      StartFails(core, profile, runs);
    }
  }

  /** The configuration file that a start leaves: the old one until the sidecar's draft has passed, then
      the new one if it could be written, and none if writing broke it. */
  lemma StartLeavesFile(core: Core, profile: NodeProfile, runs: StartRuns)
    ensures var after, drafted := Started(core, profile, runs), RequiresXraySidecar(profile) ==> runs.sidecar.renders && runs.sidecar.checks;
            after.file == if !drafted then core.file
                          else if runs.write == Written then Some(Rendered(core.config, profile))
                          else if runs.write.broken then None else core.file
  {
    hide RequiresXraySidecar, Address, AfterApply, StoppedRules, Applied;
  }

  lemma SpawnNeeded(runs: StartRuns, needsSidecar: bool)
    ensures StartRunsThrough(runs, needsSidecar) ==> runs.spawn.Spawned?
  {
  }

  lemma SidecarUpMeans(runs: SidecarRuns)
    ensures SidecarUp(runs) ==> runs.spawn.Some?
  {
  }

  lemma UndoneRules(runs: StopRuns)
    ensures RulesAfter(StoppedRules(runs), runs)
  {
  }

  /** Which error a start reports while it prepares: that of the first stage that failed. */
  lemma PreparationReports(runs: StartRuns, needsSidecar: bool)
    requires !((needsSidecar ==> SidecarUp(runs.sidecar)) && runs.write == Written && runs.checks)
    ensures var stage, sidecar := StartFailsAt(runs, needsSidecar), needsSidecar ==> runs.sidecar.renders && runs.sidecar.checks;
            stage.Some?
            && var error := StartError(stage.value, runs);
               error.Staged? && !error.preserved
               && (error.code == ConfigRenderFailed <==> (needsSidecar && !runs.sidecar.renders) || (sidecar && runs.write != Written))
               && (error.code == ConfigCheckFailed <==>
                     (needsSidecar && runs.sidecar.renders && !runs.sidecar.checks) || (sidecar && runs.write == Written && !runs.checks))
               && (sidecar && runs.write == Written && runs.checks ==>
                     error == if runs.sidecar.spawn.None? then Staged(SidecarSpawnFailed, false, false) else Staged(SidecarPortDown, true, false))
  {
  }

  /** And while it launches the core. */
  lemma LaunchReports(runs: StartRuns, needsSidecar: bool)
    requires (needsSidecar ==> SidecarUp(runs.sidecar)) && runs.write == Written && runs.checks && !LaunchRuns(runs)
    ensures var stage := StartFailsAt(runs, needsSidecar);
            stage.Some?
            && var error := StartError(stage.value, runs);
               (!runs.prepares ==> error == Staged(CoreSpawnFailed, false, false))
               && (runs.prepares && runs.spawn.NoLog? ==> error == Staged(CoreLogOpenFailed, false, false))
               && (runs.prepares && runs.spawn.NoProcess? ==> error == Staged(CoreSpawnFailed, false, false))
               && (runs.prepares && runs.spawn.Spawned? && runs.down.Some? ==> error == Staged(PortDown(runs.down.value), true, false))
               && (runs.prepares && runs.spawn.Spawned? && runs.down.None? ==> error == Staged(OwnerMismatch, true, false))
  {
    hide StartFailsAt, PreparationFailsAt, SidecarUp;
    StagesIff(runs, needsSidecar);
    StartStages(runs, needsSidecar);
  }

  /** And while it puts the rules in place. */
  lemma RulesReport(runs: StartRuns, needsSidecar: bool)
    requires ReachesRules(runs, needsSidecar) && !StartRunsThrough(runs, needsSidecar)
    ensures var stage := StartFailsAt(runs, needsSidecar);
            stage.Some?
            && StartError(stage.value, runs) ==
                 Staged(Net(if !Clean(runs.apply.before.dns) || !Clean(runs.apply.before.iptables) then NetstackCleanupFailed
                            else if runs.apply.iptables != Ran then RulesNotApplied
                            else if runs.apply.dns != Ran then DnsApplyFailed
                            else NetstackVerifyFailed), true, false)
  {
    hide StartFailsAt, PreparationFailsAt, LaunchFailsAt, SidecarUp, LaunchRuns;
    StagesIff(runs, needsSidecar);
    StartStages(runs, needsSidecar);
  }

  // Counting cores.

  function Count(effects: seq<Effect>, effect: Effect): int {
    multiset(effects)[effect]
  }

  lemma CountAppends(a: seq<Effect>, b: seq<Effect>, effect: Effect)
    ensures Count(a + b, effect) == Count(a, effect) + Count(b, effect)
  {
    assert multiset(a + b) == multiset(a) + multiset(b);
  }

  lemma ScriptsCount(calls: seq<Call>)
    ensures Count(Scripts(calls), KillCore) == 0 && Count(Scripts(calls), SpawnCore) == 0
  {
    assert KillCore !in Scripts(calls) && SpawnCore !in Scripts(calls);
  }

  function Cores(core: Core): int {
    if core.process.Some? then 1 else 0
  }

  /** A start leaves no core behind: what it spawns is tracked or killed again. */
  lemma StartLeaksNoCore(core: Core, profile: NodeProfile, runs: StartRuns)
    requires Sound(core) && !StartRefused(core)
    ensures var effects := StartEffects(profile, runs);
            Cores(Started(core, profile, runs)) == Count(effects, SpawnCore) - Count(effects, KillCore)
  {
    hide RequiresXraySidecar, Address, AfterApply, ApplyCalls, Scripts, VerifyCalls, StoppedRules, Count, Sound, Applied;
    var applied, verified := Scripts(ApplyCalls(runs.apply)), Scripts(VerifyCalls(runs.iptablesStatus));
    SoundIsUntracked(core);
    SpawnAndKill();
    forall e: Effect | e == SpawnCore || e == KillCore ensures Count(applied, e) == 0 && Count(verified, e) == 0 {
      ScriptsCount(ApplyCalls(runs.apply));
      ScriptsCount(VerifyCalls(runs.iptablesStatus));
    }
    forall e: Effect
      ensures Count([SpawnCore] + applied + verified, e) == Count([SpawnCore], e) + Count(applied, e) + Count(verified, e)
      ensures Count([SpawnCore] + applied + Unrule() + [KillCore], e)
                == Count([SpawnCore], e) + Count(applied, e) + Count(Unrule(), e) + Count([KillCore], e)
      ensures Count([SpawnCore] + applied + verified + Unrule() + [KillCore], e)
                == Count([SpawnCore], e) + Count(applied, e) + Count(verified, e) + Count(Unrule(), e) + Count([KillCore], e)
    {
      CountAppends([SpawnCore], applied, e);
      CountAppends([SpawnCore] + applied, verified, e);
      CountAppends([SpawnCore] + applied, Unrule(), e);
      CountAppends([SpawnCore] + applied + Unrule(), [KillCore], e);
      CountAppends([SpawnCore] + applied + verified, Unrule(), e);
      CountAppends([SpawnCore] + applied + verified + Unrule(), [KillCore], e);
    }
  }

  lemma SoundIsUntracked(core: Core)
    requires Sound(core) && !StartRefused(core)
    ensures core.process.None?
  {
  }

  lemma SpawnAndKill()
    ensures Count([SpawnCore], SpawnCore) == 1 && Count([SpawnCore], KillCore) == 0
    ensures Count([KillCore], SpawnCore) == 0 && Count([KillCore], KillCore) == 1
    ensures Count([SpawnCore, KillCore], SpawnCore) == 1 && Count([SpawnCore, KillCore], KillCore) == 1
    ensures Count(Unrule(), SpawnCore) == 0 && Count(Unrule(), KillCore) == 0
    ensures Count([], SpawnCore) == 0 && Count([], KillCore) == 0
  {
  }

  // Stop.

  /** A stop reports the first of: a stop script that broke and was not missing, a core that was not
      killed, a sidecar that was not killed; its rules are those that a broken script has left. */
  lemma StopReports(core: Core, runs: StopCoreRuns)
    ensures var error, clean := StopErrorOf(runs), Clean(runs.cleanup.dns) && Clean(runs.cleanup.iptables);
            (error == Some(CleanupFailed(NetstackCleanupFailed)) <==> !clean)
            && (error == Some(CoreNotKilled) <==> clean && !runs.kills)
            && (error == Some(SidecarNotKilled) <==> clean && runs.kills && !runs.killsSidecar)
            && (error.None? <==> clean && runs.kills && runs.killsSidecar)
            && RulesAfter(StoppedCore(core, runs).rules, runs.cleanup)
            && StoppedCore(core, runs).config == core.config && StoppedCore(core, runs).file == core.file
  {
  }

  // Hot swap.

  /** What is to replace the running core renders and passes its check. */
  predicate DraftPasses(runs: SwapRuns, needsSidecar: bool) {
    runs.renders && runs.checks && (needsSidecar ==> runs.sidecar.renders && runs.sidecar.checks)
  }

  /** The new runtime comes up once the old core is gone. */
  predicate ReplacementRuns(runs: SwapRuns, needsSidecar: bool) {
    && runs.stopsSidecar && (needsSidecar ==> runs.sidecar.spawn.Some? && runs.sidecar.listens)
    && runs.spawn.Spawned? && runs.down.None? && runs.renames
  }

  /** The runtime from before comes up again. */
  predicate ReturnRuns(core: Core, runs: RestoreRuns) {
    && core.runningProfile.Some? && core.runningConfig.Some?
    && (RequiresXraySidecar(core.runningProfile.value) ==> runs.sidecar.renders && runs.sidecar.spawn.Some? && runs.sidecar.listens)
    && runs.spawn.Spawned? && runs.down.None?
  }

  /** A hot swap commits exactly when the draft passes, the old core is killed if there is one, and
      the replacement comes up. */
  lemma SwapCommitsIff(core: Core, profile: NodeProfile, runs: SwapRuns)
    ensures var error, needsSidecar := SwapError(Outcome(core, profile, runs), runs), RequiresXraySidecar(profile);
            error.None? <==> DraftPasses(runs, needsSidecar) && (core.process.Some? ==> runs.kills) && ReplacementRuns(runs, needsSidecar)
  {
    hide RequiresXraySidecar, CanRestore, Restores;
  }

  /** Then one core is killed and one spawned, and the new one runs what was rendered. */
  lemma SwapCommits(core: Core, profile: NodeProfile, runs: SwapRuns)
    requires Sound(core) && DraftPasses(runs, RequiresXraySidecar(profile)) && (core.process.Some? ==> runs.kills)
    requires ReplacementRuns(runs, RequiresXraySidecar(profile))
    ensures var after := HotSwapped(core, profile, runs);
            && RunsNew(core, after, profile) && after.process == Some(Process(runs.spawn.pid, Some(Rendered(core.config, profile))))
            && after.sidecar == (if RequiresXraySidecar(profile) then runs.sidecar.spawn else None)
            && after.marker == (core.marker || runs.marks) && after.runningConfig == Some(core.config.(projection := ""))
            && SwapEffects(core, profile, runs) == if core.process.Some? then [KillCore, SpawnCore] else [SpawnCore]
  {
    hide RequiresXraySidecar, Address, CanRestore, Restores, Sound;
  }

  /** A draft that does not render or does not pass its check changes nothing and kills nothing. */
  lemma BadDraftChangesNothing(core: Core, profile: NodeProfile, runs: SwapRuns)
    requires !DraftPasses(runs, RequiresXraySidecar(profile))
    ensures var error, needsSidecar := SwapError(Outcome(core, profile, runs), runs), RequiresXraySidecar(profile);
            HotSwapped(core, profile, runs) == core && SwapEffects(core, profile, runs) == []
            && error.Some? && error.value.Staged? && !error.value.rollbackApplied && !error.value.preserved
            && error.value.code in {ConfigRenderFailed, ConfigCheckFailed}
            && (error.value.code == ConfigCheckFailed <==>
                  (needsSidecar && runs.sidecar.renders && !runs.sidecar.checks)
                  || ((needsSidecar ==> runs.sidecar.renders && runs.sidecar.checks) && runs.renders && !runs.checks))
  {
    hide RequiresXraySidecar;
  }

  /** A core that cannot be killed stays, tracked as it was. */
  lemma UnkilledCoreStays(core: Core, profile: NodeProfile, runs: SwapRuns)
    requires DraftPasses(runs, RequiresXraySidecar(profile)) && core.process.Some? && !runs.kills
    ensures HotSwapped(core, profile, runs) == core && SwapEffects(core, profile, runs) == [KillCore]
    ensures SwapError(Outcome(core, profile, runs), runs) == Some(Staged(CoreStopFailed, false, false))
  {
    hide RequiresXraySidecar;
  }

  /** When the replacement does not come up, the runtime from before runs again on its own file exactly
      if there was one and it comes up; otherwise nothing is left but what the stop scripts leave. */
  lemma FailedReplacement(core: Core, profile: NodeProfile, runs: SwapRuns)
    requires Sound(core) && DraftPasses(runs, RequiresXraySidecar(profile)) && (core.process.Some? ==> runs.kills)
    requires !ReplacementRuns(runs, RequiresXraySidecar(profile))
    ensures var after, error := HotSwapped(core, profile, runs), SwapError(Outcome(core, profile, runs), runs);
            error.Some? && error.value.Staged? && error.value.rollbackApplied && (error.value.preserved <==> ReturnRuns(core, runs.restore))
            && if ReturnRuns(core, runs.restore) then
                 && RunsPreviousAgain(core, after) && after.process == Some(Process(runs.restore.spawn.pid, core.file))
                 && after.sidecar == (if RequiresXraySidecar(core.runningProfile.value) then runs.restore.sidecar.spawn else None)
                 && after.marker == (core.marker || runs.restore.marks)
               else RunsNothing(core, after) && RulesAfter(after.rules, runs.cleanup)
  {
    hide RequiresXraySidecar, Address;
    if core.runningConfig.Some? { CloneSettles(core.runningConfig.value); }
  }

  /** And the error names the first stage that failed. */
  lemma ReplacementReports(core: Core, profile: NodeProfile, runs: SwapRuns)
    requires DraftPasses(runs, RequiresXraySidecar(profile)) && (core.process.Some? ==> runs.kills)
    requires !ReplacementRuns(runs, RequiresXraySidecar(profile))
    ensures var error, needsSidecar := SwapError(Outcome(core, profile, runs), runs), RequiresXraySidecar(profile);
            var sidecar := runs.stopsSidecar && (needsSidecar ==> runs.sidecar.spawn.Some? && runs.sidecar.listens);
            error.Some? && error.value.Staged?
            && (!runs.stopsSidecar ==> error.value.code == SidecarStopFailed)
            && (runs.stopsSidecar && needsSidecar && runs.sidecar.spawn.None? ==> error.value.code == SidecarSpawnFailed)
            && (runs.stopsSidecar && needsSidecar && runs.sidecar.spawn.Some? && !runs.sidecar.listens ==> error.value.code == SidecarPortDown)
            && (sidecar && runs.spawn.NoLog? ==> error.value.code == CoreLogOpenFailed)
            && (sidecar && runs.spawn.NoProcess? ==> error.value.code == CoreSpawnFailed)
            && (sidecar && runs.spawn.Spawned? && runs.down.Some? ==> error.value.code == PortDown(runs.down.value))
            && (sidecar && runs.spawn.Spawned? && runs.down.None? ==> error.value.code == ConfigRenderFailed)
  {
    hide RequiresXraySidecar, Restores, CanRestore;
  }

  /** A hot swap leaves no core behind and loses none: with the kill of the old core done, every core
      from before or spawned is tracked or killed, and where one is tracked, it is not killed. */
  lemma SwapLeaksNoCore(core: Core, profile: NodeProfile, runs: SwapRuns)
    requires Sound(core) && (core.process.Some? ==> runs.kills)
    ensures var effects := SwapEffects(core, profile, runs);
            var total, after := Cores(core) + Count(effects, SpawnCore), HotSwapped(core, profile, runs);
            total <= Count(effects, KillCore) + Cores(after) && (after.process.Some? ==> total == Count(effects, KillCore) + 1)
  {
    hide RequiresXraySidecar, Address, StoppedRules, SwapFailsAt, Count, Sound, Restores, RestoreSpawns, LateEffects;
    var stage, up := SwapFailsAt(runs, RequiresXraySidecar(profile), core.process.Some?), false;
    SpawnAndKill();
    OneEffect();
    KillsMean(runs, RequiresXraySidecar(profile), core.process.Some?);
    var killed := If(core.process.Some?, KillCore);
    if stage.None? {
      CountAppends(killed, [SpawnCore], SpawnCore);
      CountAppends(killed, [SpawnCore], KillCore);
    } else if !Early(stage.value) {
      up := NewCoreUp(stage.value);
      var spawned, late := If(up, SpawnCore), LateEffects(core, up, runs);
      LateLeaksNoCore(core, up, runs);
      forall e: Effect ensures Count(killed + spawned + late, e) == Count(killed, e) + Count(spawned, e) + Count(late, e) {
        CountAppends(killed, spawned, e);
        CountAppends(killed + spawned, late, e);
      }
    }
  }

  lemma KillsMean(runs: SwapRuns, needsSidecar: bool, hadProcess: bool)
    requires hadProcess ==> runs.kills
    ensures SwapFailsAt(runs, needsSidecar, hadProcess) != Some(StopOld)
  {
  }

  lemma OneEffect()
    ensures forall c, a, e: Effect :: Count(If(c, a), e) == if c && a == e then 1 else 0
  {
    forall c: bool, a: Effect, e: Effect ensures Count(If(c, a), e) == if c && a == e then 1 else 0 {
    }
  }

  /** The late effects kill the new core if it is up, and leave one core running exactly if they restore. */
  lemma LateLeaksNoCore(core: Core, up: bool, runs: SwapRuns)
    ensures var effects := LateEffects(core, up, runs);
            var total := (if up then 1 else 0) + Count(effects, SpawnCore);
            if CanRestore(core) && Restores(core.runningProfile.value, runs.restore) then total == Count(effects, KillCore) + 1
            else total <= Count(effects, KillCore)
  {
    hide RequiresXraySidecar, RestoreSpawns, Count;
    SpawnAndKill();
    OneEffect();
    var killed := If(up, KillCore);
    if CanRestore(core) {
      var profile := core.runningProfile.value;
      var respawn, last := RespawnEffects(profile, runs.restore), If(RestoreSpawns(profile, runs.restore), KillCore);
      forall e: Effect
        ensures Count(killed + respawn, e) == Count(killed, e) + Count(respawn, e)
        ensures Count(killed + respawn + Unrule() + last, e) == Count(killed, e) + Count(respawn, e) + Count(Unrule(), e) + Count(last, e)
      {
        CountAppends(killed, respawn, e);
        CountAppends(killed + respawn, Unrule(), e);
        CountAppends(killed + respawn + Unrule(), last, e);
      }
    } else {
      CountAppends(Unrule(), killed, SpawnCore);
      CountAppends(Unrule(), killed, KillCore);
    }
  }
}
