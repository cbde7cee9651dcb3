/** What every run of starts, stops, hot swaps and resets keeps true of the core manager. */
module CoreRuns {
  import opened Basics
  import opened ProxyNode
  import opened NetstackRules
  import opened CoreLifecycle

  datatype Task =
    | DoStart(profile: NodeProfile, startRuns: StartRuns)
    | DoStop(stopRuns: StopCoreRuns)
    | DoSwap(profile: NodeProfile, swapRuns: SwapRuns)
    | DoReset
    | DoSetConfig(config: Config)

  predicate StartRefused(core: Core) {
    core.state.Running? || core.state.Starting?
  }

  function After(core: Core, task: Task): Core {
    match task
    case DoStart(profile, runs) => if StartRefused(core) then core else Started(core, profile, runs)
    case DoStop(runs) => StoppedCore(core, runs)
    case DoSwap(profile, runs) => HotSwapped(core, profile, runs)
    case DoReset => ResetCore(core)
    case DoSetConfig(config) => core.(config := config)
  }

  function Run(core: Core, tasks: seq<Task>): Core {
    if tasks == [] then core else After(Run(core, tasks[..|tasks| - 1]), tasks[|tasks| - 1])
  }

  /** Everything that running means: a tracked core on the active file, which is the running
      profile rendered, and a tracked sidecar exactly when that profile requires one. */
  ghost predicate SoundRunning(core: Core) {
    && core.runningProfile.Some? && core.runningConfig.Some? && core.process.Some?
    && core.activeProfile == Address(core.runningProfile.value)
    && core.process.value.runs == core.file && core.file.Some?
    && core.file.value.profile == core.runningProfile.value
    && Clone(core.file.value.config) == core.runningConfig.value
    && (core.sidecar.Some? <==> RequiresXraySidecar(core.runningProfile.value))
  }

  ghost predicate NothingTracked(core: Core) {
    core.process.None? && core.sidecar.None? && core.activeProfile == "" && core.runningConfig.None? && core.runningProfile.None?
  }

  ghost predicate Sound(core: Core) {
    && (core.state.Running? || core.state.Stopped? || core.state.Degraded?)
    && (core.state.Running? ==> SoundRunning(core))
    && (!core.state.Running? ==> NothingTracked(core))
    && (core.state.Degraded? ==> !core.marker)
  }

  lemma CloneSettles(config: Config)
    ensures Clone(Clone(config)) == Clone(config)
  {
  }

  lemma StartKeeps(core: Core, profile: NodeProfile, runs: StartRuns)
    requires Sound(core) && !StartRefused(core)
    ensures Sound(Started(core, profile, runs))
  {
    hide RequiresXraySidecar, Address, Applied, AfterApply, StoppedRules;
  }

  lemma SwapKeeps(core: Core, profile: NodeProfile, runs: SwapRuns)
    requires Sound(core)
    ensures Sound(HotSwapped(core, profile, runs))
  {
    hide RequiresXraySidecar, Address, StoppedRules;
    if core.runningConfig.Some? { CloneSettles(core.runningConfig.value); }
  }

  lemma TaskKeeps(core: Core, task: Task)
    requires Sound(core)
    ensures Sound(After(core, task))
  {
    hide Sound, Started, HotSwapped;
    match task
    case DoStart(profile, runs) =>
      if !StartRefused(core) { StartKeeps(core, profile, runs); }
    case DoSwap(profile, runs) => SwapKeeps(core, profile, runs);
    case _ => OtherTasksKeep(core, task);
  }

  lemma OtherTasksKeep(core: Core, task: Task)
    requires Sound(core) && (task.DoStop? || task.DoReset? || task.DoSetConfig?)
    ensures Sound(After(core, task))
  {
    hide RequiresXraySidecar, Address, StoppedRules, Started, HotSwapped;
  }

  /** In every run, the manager is running, stopped or degraded; running means a tracked core on
      the rendering of the running profile with its sidecar; anything else means nothing is tracked. */
  lemma {:induction false} RunsAreSound(config: Config, file: Option<Rendered>, marker: bool, rules: Rules, tasks: seq<Task>)
    ensures Sound(Run(Created(config, file, marker, rules), tasks))
  {
    hide After, RequiresXraySidecar, Address;
    if tasks != [] {
      RunsAreSound(config, file, marker, rules, tasks[..|tasks| - 1]);
      TaskKeeps(Run(Created(config, file, marker, rules), tasks[..|tasks| - 1]), tasks[|tasks| - 1]);
    }
  }

  // No black hole.

  predicate RanAll(runs: StopRuns) {
    runs.dns.Ran? && runs.iptables.Ran?
  }

  /** The cleanup that a task ends with when it leaves no core, if it does one. */
  function FinalCleanup(core: Core, task: Task): Option<StopRuns> {
    match task
    case DoStop(runs) => Some(runs.cleanup)
    case DoStart(profile, runs) =>
      if StartRefused(core) then None
      else
        var stage := StartFailsAt(runs, RequiresXraySidecar(profile));
        if stage.Some? && (stage.value.ApplyRules? || stage.value.VerifyRules?) then Some(runs.undo) else None
    case DoSwap(profile, runs) => if Outcome(core, profile, runs).GivenUp? then Some(runs.cleanup) else None
    case _ => None
  }

  /** Whether rules may have outlived the core: the last cleanup had a stop script that did not
      run, or, with no cleanup yet, the manager began with rules in place; a reset vouches for nothing. */
  ghost predicate Suspect(core: Core, tasks: seq<Task>) {
    if tasks == [] then core.rules.Installed()
    else
      var n := |tasks| - 1;
      var last := FinalCleanup(Run(core, tasks[..n]), tasks[n]);
      if last.Some? then !RanAll(last.value)
      else Suspect(core, tasks[..n]) || (tasks[n].DoReset? && Run(core, tasks[..n]).process.Some?)
  }

  lemma CleanRules(runs: StopRuns)
    ensures RanAll(runs) ==> !StoppedRules(runs).Installed()
  {
  }

  lemma TaskLeavesNoHole(core: Core, task: Task, suspect: bool)
    requires Sound(core)
    requires core.process.None? && core.rules.Installed() ==> suspect
    ensures var last, next := FinalCleanup(core, task), After(core, task);
            next.process.None? && next.rules.Installed() ==>
              if last.Some? then !RanAll(last.value) else suspect || (task.DoReset? && core.process.Some?)
  {
    hide RequiresXraySidecar, Address, StoppedRules, RanAll, SwapFailsAt, StartFailsAt, Applied, AfterApply, Restores, Early;
    if FinalCleanup(core, task).Some? { CleanRules(FinalCleanup(core, task).value); }
  }

  /** Rules are in place without a tracked core only after a cleanup whose script did not run: in
      every other run the kernel never leads traffic to a core that is not there. */
  lemma {:induction false} NoBlackHole(config: Config, file: Option<Rendered>, marker: bool, rules: Rules, tasks: seq<Task>)
    ensures var first := Created(config, file, marker, rules);
            var core := Run(first, tasks);
            core.process.None? && core.rules.Installed() ==> Suspect(first, tasks)
  {
    hide After, RequiresXraySidecar, Address, Sound, FinalCleanup, RanAll;
    var first := Created(config, file, marker, rules);
    if tasks != [] {
      var n := |tasks| - 1;
      NoBlackHole(config, file, marker, rules, tasks[..n]);
      RunsAreSound(config, file, marker, rules, tasks[..n]);
      TaskLeavesNoHole(Run(first, tasks[..n]), tasks[n], Suspect(first, tasks[..n]));
    }
  }

  /** A stop without error leaves nothing tracked, no marker and no rules, except where a stop
      script was missing: that counts as clean although its rules stay. */
  lemma CleanStopLeavesNothing(core: Core, runs: StopCoreRuns)
    ensures var next := StoppedCore(core, runs);
            NothingTracked(next) && next.state.Stopped? && !next.marker
            && (StopErrorOf(runs).None? ==>
                  && runs.kills && runs.killsSidecar
                  && (next.rules.dns <==> runs.cleanup.dns.Broke? && runs.cleanup.dns.missing && runs.cleanup.dns.left)
                  && (next.rules.iptables <==> runs.cleanup.iptables.Broke? && runs.cleanup.iptables.missing && runs.cleanup.iptables.left))
  {
  }

  // The four ends of a hot swap.

  /** Previous profile and configuration, on the file as it was, with a core of its own. */
  ghost predicate RunsPreviousAgain(before: Core, after: Core) {
    && SoundRunning(after) && after.state.Running?
    && after.runningProfile == before.runningProfile && after.runningConfig == before.runningConfig
    && after.file == before.file && after.rules == before.rules
    && Some(after.config) == before.runningConfig
  }

  ghost predicate RunsNew(before: Core, after: Core, profile: NodeProfile) {
    && SoundRunning(after) && after.state.Running?
    && after.runningProfile == Some(profile) && after.runningConfig == Some(Clone(before.config))
    && after.file == Some(Rendered(before.config, profile)) && after.rules == before.rules && after.config == before.config
  }

  ghost predicate RunsNothing(before: Core, after: Core) {
    NothingTracked(after) && after.state.Degraded? && !after.marker && after.file == before.file
  }

  /** In any run, a hot swap commits exactly when no stage fails; it leaves the tracked runtime
      alone exactly when a stage fails before the old core is given up; and otherwise it brings the
      previous runtime back exactly when there is one and its restart succeeds, or gives up. The rules
      are touched in the last case only, and `preserved` is reported in the third only. */
  lemma SwapEndsInOneOfFour(core: Core, profile: NodeProfile, runs: SwapRuns)
    requires Sound(core)
    ensures var after, error := HotSwapped(core, profile, runs), SwapError(Outcome(core, profile, runs), runs);
            var stage := SwapFailsAt(runs, RequiresXraySidecar(profile), core.process.Some?);
            if stage.None? then error.None? && RunsNew(core, after, profile)
            else if Early(stage.value) then error == Some(Staged(SwapCode(stage.value, runs), false, false)) && after == core
            else if core.state.Running? && Restores(core.runningProfile.value, runs.restore)
            then error == Some(Staged(SwapCode(stage.value, runs), true, true)) && RunsPreviousAgain(core, after)
            else error == Some(Staged(SwapCode(stage.value, runs), true, false)) && RunsNothing(core, after)
                 && after.rules == StoppedRules(runs.cleanup)
  {
    hide RequiresXraySidecar, Address, StoppedRules, SwapFailsAt, SwapCode;
    SwapKeeps(core, profile, runs);
    SpawnNeedsProcess(runs, RequiresXraySidecar(profile), core.process.Some?);
    if core.runningConfig.Some? { CloneSettles(core.runningConfig.value); }
  }

  lemma SpawnNeedsProcess(runs: SwapRuns, needsSidecar: bool, hadProcess: bool)
    ensures SwapFailsAt(runs, needsSidecar, hadProcess).None? ==>
              runs.spawn.Spawned? && (needsSidecar ==> runs.sidecar.spawn.Some?)
  {
  }

  /** No script runs during a hot swap unless it gives up, and then the rules are taken down before
      the last kill; a stop takes them down before it kills anything. */
  lemma RulesGoFirst(core: Core, profile: NodeProfile, runs: SwapRuns)
    ensures var effects := SwapEffects(core, profile, runs);
            if Outcome(core, profile, runs).GivenUp? then
              exists front, back :: effects == front + Unrule() + back && NoScripts(front) && NoScripts(back)
            else NoScripts(effects)
  {
    hide RequiresXraySidecar, SwapFailsAt, LateEffects, Restores, CanRestore, NoScripts, If, Early, Unrule;
    var stage := SwapFailsAt(runs, RequiresXraySidecar(profile), core.process.Some?);
    EffectPieces();
    if stage.Some? && !Early(stage.value) {
      var up := NewCoreUp(stage.value);
      var head := If(core.process.Some?, KillCore) + If(up, SpawnCore);
      var front, back := LateEffectsShape(core, up, runs);
      NoScriptsAppend(If(core.process.Some?, KillCore), If(up, SpawnCore));
      NoScriptsAppend(head, front);
      Joined(head, front, Unrule(), back);
    } else if stage.None? {
      NoScriptsAppend(If(core.process.Some?, KillCore), [SpawnCore]);
    }
  }

  lemma LateEffectsShape(core: Core, up: bool, runs: SwapRuns) returns (front: seq<Effect>, back: seq<Effect>)
    ensures NoScripts(front) && NoScripts(back)
    ensures LateEffects(core, up, runs) ==
            if CanRestore(core) && Restores(core.runningProfile.value, runs.restore) then front else front + Unrule() + back
  {
    hide Restores, RestoreSpawns, NoScripts, If, Unrule;
    EffectPieces();
    front, back := [], If(up, KillCore);
    if CanRestore(core) {
      var profile := core.runningProfile.value;
      NoScriptsAppend(If(up, KillCore), RespawnEffects(profile, runs.restore));
      front := If(up, KillCore) + RespawnEffects(profile, runs.restore);
      back := If(RestoreSpawns(profile, runs.restore), KillCore);
    }
  }

  ghost predicate NoScripts(effects: seq<Effect>) {
    forall e :: e in effects ==> !e.Script?
  }

  lemma NoScriptsAppend(a: seq<Effect>, b: seq<Effect>)
    requires NoScripts(a) && NoScripts(b)
    ensures NoScripts(a + b)
  {
  }

  lemma EffectPieces()
    ensures NoScripts([]) && NoScripts([SpawnCore]) && NoScripts([SpawnCore, KillCore])
    ensures forall c, e: Effect :: !e.Script? ==> NoScripts(If(c, e))
  {
  }
}
