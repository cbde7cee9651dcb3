/** The proxy core's lifecycle: long transactions whose every stage can fail. */
module CoreLifecycle {
  import opened Basics
  import opened ProxyNode
  import opened NetstackRules

  /** `projection` is the stored profile, which the configuration's JSON form leaves out. */
  datatype Config = Config(settings: string, projection: string)

  /** What a trip through JSON keeps of a configuration. */
  function Clone(config: Config): Config {
    config.(projection := "")
  }

  datatype State = Stopped | Starting | Running | Degraded | Rescue | Stopping

  /** A core configuration file is known by what it was rendered from. */
  datatype Rendered = Rendered(config: Config, profile: NodeProfile)

  /** A tracked core process and the file content it was started on. */
  datatype Process = Process(pid: nat, runs: Option<Rendered>)

  datatype Effect = Script(call: Call) | KillCore | SpawnCore

  /** The manager's fields, the active configuration file, the active marker and the kernel's rules. */
  datatype Core = Core(
    config: Config, process: Option<Process>, sidecar: Option<nat>, state: State, activeProfile: string,
    runningConfig: Option<Config>, runningProfile: Option<NodeProfile>,
    file: Option<Rendered>, marker: bool, rules: Rules)

  datatype Port = Tproxy | Dns | Api

  datatype ErrorCode =
    | ConfigRenderFailed | ConfigCheckFailed | SidecarSpawnFailed | SidecarPortDown | SidecarStopFailed
    | CoreSpawnFailed | CoreLogOpenFailed | CoreStopFailed | PortDown(port: Port) | OwnerMismatch | Net(code: Code)

  datatype Error = AlreadyRunning | Staged(code: ErrorCode, rollbackApplied: bool, preserved: bool)

  datatype StopError = CleanupFailed(code: Code) | CoreNotKilled | SidecarNotKilled

  // What the environment does, stage by stage.

  datatype WriteRun = Written | NotWritten(broken: bool)

  datatype SpawnRun = Spawned(pid: nat) | NoLog | NoProcess

  datatype SidecarRuns = SidecarRuns(renders: bool, checks: bool, spawn: Option<nat>, listens: bool)

  datatype StartRuns = StartRuns(
    sidecar: SidecarRuns, write: WriteRun, checks: bool, prepares: bool, spawn: SpawnRun, down: Option<Port>,
    ownersMatch: bool, apply: ApplyRuns, iptablesStatus: bool, dnsStatus: bool, undo: StopRuns, marks: bool)

  datatype StopCoreRuns = StopCoreRuns(cleanup: StopRuns, kills: bool, killsSidecar: bool)

  datatype RestoreRuns = RestoreRuns(sidecar: SidecarRuns, spawn: SpawnRun, down: Option<Port>, marks: bool)

  datatype SwapRuns = SwapRuns(
    sidecar: SidecarRuns, renders: bool, checks: bool, kills: bool, stopsSidecar: bool, spawn: SpawnRun, down: Option<Port>,
    renames: bool, marks: bool, restore: RestoreRuns, cleanup: StopRuns)

  function Scripts(calls: seq<Call>): seq<Effect> {
    seq(|calls|, i requires 0 <= i < |calls| => Script(calls[i]))
  }

  // Start.

  datatype StartStage =
    | SidecarRender | SidecarCheck | Render | Check | SidecarSpawn | SidecarWait | Prepare | OpenLog | Spawn
    | Listen | Owners | ApplyRules | VerifyRules

  /** The first stage of a start that fails. */
  function StartFailsAt(runs: StartRuns, needsSidecar: bool): Option<StartStage> {
    if needsSidecar && !runs.sidecar.renders then Some(SidecarRender)
    else if needsSidecar && !runs.sidecar.checks then Some(SidecarCheck)
    else if runs.write.NotWritten? then Some(Render)
    else if !runs.checks then Some(Check)
    else if needsSidecar && runs.sidecar.spawn.None? then Some(SidecarSpawn)
    else if needsSidecar && !runs.sidecar.listens then Some(SidecarWait)
    else if !runs.prepares then Some(Prepare)
    else if runs.spawn.NoLog? then Some(OpenLog)
    else if runs.spawn.NoProcess? then Some(Spawn)
    else if runs.down.Some? then Some(Listen)
    else if !runs.ownersMatch then Some(Owners)
    else if !Applied(runs.apply) then Some(ApplyRules)
    else if !(runs.iptablesStatus && runs.dnsStatus) then Some(VerifyRules)
    else None
  }

  function StartError(stage: StartStage, runs: StartRuns): Error {
    match stage
    case SidecarRender | Render => Staged(ConfigRenderFailed, false, false)
    case SidecarCheck | Check => Staged(ConfigCheckFailed, false, false)
    case SidecarSpawn => Staged(SidecarSpawnFailed, false, false)
    case SidecarWait => Staged(SidecarPortDown, true, false)
    case Prepare | Spawn => Staged(CoreSpawnFailed, false, false)
    case OpenLog => Staged(CoreLogOpenFailed, false, false)
    case Listen => Staged(if runs.down.Some? then PortDown(runs.down.value) else CoreSpawnFailed, true, false)
    case Owners => Staged(OwnerMismatch, true, false)
    case ApplyRules => Staged(Net(if ApplyCode(runs.apply).Some? then ApplyCode(runs.apply).value else NetstackFailed), true, false)
    case VerifyRules => Staged(Net(NetstackVerifyFailed), true, false)
  }

  /** Nothing is running and nothing is tracked. */
  function Forgotten(core: Core): Core {
    core.(process := None, sidecar := None, activeProfile := "", runningConfig := None, runningProfile := None)
  }

  function Committed(core: Core, profile: NodeProfile, pid: nat, marks: bool): Core {
    var rendered := Some(Rendered(core.config, profile));
    core.(process := Some(Process(pid, rendered)), file := rendered, state := Running, activeProfile := Address(profile),
          runningConfig := Some(Clone(core.config)), runningProfile := Some(profile), marker := core.marker || marks)
  }

  function PidOf(run: SpawnRun): nat {
    if run.Spawned? then run.pid else 0
  }

  function VerifyCalls(iptables: bool): seq<Call> {
    if iptables then [IptablesStatus, DnsStatus] else [IptablesStatus]
  }

  /** A start ends running on the freshly rendered file with every rule in place, or stopped. */
  function Started(core: Core, profile: NodeProfile, runs: StartRuns): Core {
    var needsSidecar := RequiresXraySidecar(profile);
    var written := core.(state := Stopped, file := Some(Rendered(core.config, profile)));
    match StartFailsAt(runs, needsSidecar)
    case None =>
      Committed(core, profile, PidOf(runs.spawn), runs.marks).(
        sidecar := if needsSidecar then runs.sidecar.spawn else core.sidecar, rules := AfterApply(runs.apply))
    case Some(stage) =>
      match stage
      case SidecarRender | SidecarCheck => core.(state := Stopped)
      case Render => core.(state := Stopped, file := if runs.write.NotWritten? && runs.write.broken then None else core.file)
      case Check | SidecarSpawn => written
      case SidecarWait | Prepare | OpenLog | Spawn => written.(sidecar := None)
      case Listen | Owners => Forgotten(written)
      case ApplyRules | VerifyRules => Forgotten(written).(rules := StoppedRules(runs.undo))
  }

  /** Taking the rules down. */
  function Unrule(): seq<Effect> {
    [Script(DnsStop), Script(IptablesStop)]
  }

  function StartEffects(profile: NodeProfile, runs: StartRuns): seq<Effect> {
    match StartFailsAt(runs, RequiresXraySidecar(profile))
    case None => [SpawnCore] + Scripts(ApplyCalls(runs.apply)) + Scripts(VerifyCalls(runs.iptablesStatus))
    case Some(Listen) | Some(Owners) => [SpawnCore, KillCore]
    case Some(ApplyRules) => [SpawnCore] + Scripts(ApplyCalls(runs.apply)) + Unrule() + [KillCore]
    case Some(VerifyRules) => [SpawnCore] + Scripts(ApplyCalls(runs.apply)) + Scripts(VerifyCalls(runs.iptablesStatus)) + Unrule() + [KillCore]
    case Some(_) => []
  }

  // Stop.

  function StopErrorOf(runs: StopCoreRuns): Option<StopError> {
    if !CleanStops(runs.cleanup) then Some(CleanupFailed(NetstackCleanupFailed))
    else if !runs.kills then Some(CoreNotKilled)
    else if !runs.killsSidecar then Some(SidecarNotKilled)
    else None
  }

  /** A stop forgets everything whatever fails. */
  function StoppedCore(core: Core, runs: StopCoreRuns): Core {
    Forgotten(core).(state := Stopped, marker := false, rules := StoppedRules(runs.cleanup))
  }

  // Hot swap.

  datatype SwapStage =
    | SwapSidecarRender | SwapSidecarCheck | SwapRender | SwapCheck | StopOld
    | StopSidecar | SwapSidecarSpawn | SwapSidecarWait | SwapSpawn | SwapListen | SwapCommit

  function SwapFailsAt(runs: SwapRuns, needsSidecar: bool, hadProcess: bool): Option<SwapStage> {
    if needsSidecar && !runs.sidecar.renders then Some(SwapSidecarRender)
    else if needsSidecar && !runs.sidecar.checks then Some(SwapSidecarCheck)
    else if !runs.renders then Some(SwapRender)
    else if !runs.checks then Some(SwapCheck)
    else if hadProcess && !runs.kills then Some(StopOld)
    else if !runs.stopsSidecar then Some(StopSidecar)
    else if needsSidecar && runs.sidecar.spawn.None? then Some(SwapSidecarSpawn)
    else if needsSidecar && !runs.sidecar.listens then Some(SwapSidecarWait)
    else if !runs.spawn.Spawned? then Some(SwapSpawn)
    else if runs.down.Some? then Some(SwapListen)
    else if !runs.renames then Some(SwapCommit)
    else None
  }

  /** The stages before the old core has been given up. */
  predicate Early(stage: SwapStage) {
    stage.SwapSidecarRender? || stage.SwapSidecarCheck? || stage.SwapRender? || stage.SwapCheck? || stage.StopOld?
  }

  function SwapCode(stage: SwapStage, runs: SwapRuns): ErrorCode {
    match stage
    case SwapSidecarRender | SwapRender | SwapCommit => ConfigRenderFailed
    case SwapSidecarCheck | SwapCheck => ConfigCheckFailed
    case StopOld => CoreStopFailed
    case StopSidecar => SidecarStopFailed
    case SwapSidecarSpawn => SidecarSpawnFailed
    case SwapSidecarWait => SidecarPortDown
    case SwapSpawn => if runs.spawn.NoLog? then CoreLogOpenFailed else CoreSpawnFailed
    case SwapListen => if runs.down.Some? then PortDown(runs.down.value) else CoreSpawnFailed
  }

  datatype SwapOutcome = Swapped | Untouched(stage: SwapStage) | Preserved(stage: SwapStage) | GivenUp(stage: SwapStage)

  predicate RestoreSpawns(profile: NodeProfile, runs: RestoreRuns) {
    (RequiresXraySidecar(profile) ==> runs.sidecar.renders && runs.sidecar.spawn.Some? && runs.sidecar.listens) && runs.spawn.Spawned?
  }

  predicate Restores(profile: NodeProfile, runs: RestoreRuns) {
    RestoreSpawns(profile, runs) && runs.down.None?
  }

  predicate CanRestore(core: Core) {
    core.runningConfig.Some? && core.runningProfile.Some?
  }

  function Outcome(core: Core, profile: NodeProfile, runs: SwapRuns): SwapOutcome {
    match SwapFailsAt(runs, RequiresXraySidecar(profile), core.process.Some?)
    case None => Swapped
    case Some(stage) =>
      if Early(stage) then Untouched(stage)
      else if CanRestore(core) && Restores(core.runningProfile.value, runs.restore) then Preserved(stage)
      else GivenUp(stage)
  }

  function SwapError(outcome: SwapOutcome, runs: SwapRuns): Option<Error> {
    match outcome
    case Swapped => None
    case Untouched(stage) => Some(Staged(SwapCode(stage, runs), false, false))
    case Preserved(stage) => Some(Staged(SwapCode(stage, runs), true, true))
    case GivenUp(stage) => Some(Staged(SwapCode(stage, runs), true, false))
  }

  /** The new core is up and tracked when this late stage fails. */
  predicate NewCoreUp(stage: SwapStage) {
    stage.SwapListen? || stage.SwapCommit?
  }

  function If(c: bool, effect: Effect): seq<Effect> {
    if c then [effect] else []
  }

  function Back(core: Core, runs: RestoreRuns): Core
    requires CanRestore(core)
  {
    var profile := core.runningProfile.value;
    core.(config := Clone(core.runningConfig.value), state := Running, process := Some(Process(PidOf(runs.spawn), core.file)),
          sidecar := if RequiresXraySidecar(profile) then runs.sidecar.spawn else None,
          activeProfile := Address(profile), runningConfig := Some(Clone(core.runningConfig.value)), marker := core.marker || runs.marks)
  }

  function GivenUpCore(core: Core, runs: SwapRuns): Core {
    Forgotten(core).(config := if CanRestore(core) then Clone(core.runningConfig.value) else core.config,
                     state := Degraded, marker := false, rules := StoppedRules(runs.cleanup))
  }

  /** One of four ends: the new profile committed; the tracked runtime untouched; the previous
      profile running again on the unchanged file; or nothing tracked, no marker, rules taken down. */
  function HotSwapped(core: Core, profile: NodeProfile, runs: SwapRuns): Core {
    match Outcome(core, profile, runs)
    case Swapped =>
      Committed(core, profile, PidOf(runs.spawn), runs.marks).(
        sidecar := if RequiresXraySidecar(profile) then runs.sidecar.spawn else None)
    case Untouched(_) => core
    case Preserved(_) => if CanRestore(core) then Back(core, runs.restore) else core
    case GivenUp(_) => GivenUpCore(core, runs)
  }

  function RespawnEffects(profile: NodeProfile, runs: RestoreRuns): seq<Effect> {
    if !RestoreSpawns(profile, runs) then [] else if runs.down.Some? then [SpawnCore, KillCore] else [SpawnCore]
  }

  /** What a late failure does: first the try to go back, then the rules down before the core. */
  function LateEffects(core: Core, hadProcess: bool, runs: SwapRuns): seq<Effect> {
    if CanRestore(core) then
      var profile := core.runningProfile.value;
      var back := If(hadProcess, KillCore) + RespawnEffects(profile, runs.restore);
      if Restores(profile, runs.restore) then back else back + Unrule() + If(RestoreSpawns(profile, runs.restore), KillCore)
    else Unrule() + If(hadProcess, KillCore)
  }

  function SwapEffects(core: Core, profile: NodeProfile, runs: SwapRuns): seq<Effect> {
    var killed := If(core.process.Some?, KillCore);
    match SwapFailsAt(runs, RequiresXraySidecar(profile), core.process.Some?)
    case None => killed + [SpawnCore]
    case Some(stage) =>
      if Early(stage) then If(stage.StopOld?, KillCore)
      else killed + If(NewCoreUp(stage), SpawnCore) + LateEffects(core, NewCoreUp(stage), runs)
  }

  function ResetCore(core: Core): Core {
    Forgotten(core).(state := Stopped, marker := false)
  }

  function Created(config: Config, file: Option<Rendered>, marker: bool, rules: Rules): Core {
    Core(config, None, None, Stopped, "", None, None, file, marker, rules)
  }

  class CoreManager {
    var config: Config
    var process: Option<Process>
    var sidecar: Option<nat>
    var state: State
    var activeProfile: string
    var runningConfig: Option<Config>
    var runningProfile: Option<NodeProfile>
    var file: Option<Rendered>
    var marker: bool
    var rules: Rules
    ghost var trace: seq<Effect>

    function Contents(): Core
      reads this
    {
      Core(config, process, sidecar, state, activeProfile, runningConfig, runningProfile, file, marker, rules)
    }

    constructor (config: Config, file: Option<Rendered>, marker: bool, rules: Rules)
      ensures Contents() == Created(config, file, marker, rules) && trace == []
    {
      this.config, this.file, this.marker, this.rules := config, file, marker, rules;
      process, sidecar, state, activeProfile, runningConfig, runningProfile := None, None, Stopped, "", None, None;
      trace := [];
    }

    method SetConfig(next: Config)
      modifies this
      ensures Contents() == old(Contents()).(config := next) && trace == old(trace)
    {
      config := next;
    }

    /** The health and rescue subsystems mark degraded and rescue states from outside. */
    method SetState(next: State)
      modifies this`state
      ensures state == next
    {
      state := next;
    }

    method ResetState()
      modifies this
      ensures Contents() == ResetCore(old(Contents())) && trace == old(trace)
    {
      Forget(Stopped);
      marker := false;
    }

    /** Drops everything tracked. */
    method Forget(next: State)
      modifies this
      ensures Contents() == Forgotten(old(Contents())).(state := next) && trace == old(trace)
    {
      process := None;
      sidecar := None;
      activeProfile := "";
      runningConfig := None;
      runningProfile := None;
      state := next;
    }

    method CommitState(profile: NodeProfile, marks: bool)
      modifies this
      ensures Contents() == old(Contents()).(
                activeProfile := Address(profile), runningConfig := Some(Clone(config)), runningProfile := Some(profile),
                state := Running, marker := old(marker) || marks)
      ensures trace == old(trace)
    {
      activeProfile := Address(profile);
      runningConfig := Some(Clone(config));
      runningProfile := Some(profile);
      state := Running;
      marker := marker || marks;
    }

    method StopXraySidecar(killed: bool) returns (ok: bool)
      modifies this`sidecar
      ensures ok == killed && sidecar == None
    {
      ok := killed;
      sidecar := None;
    }

    method CleanRules(runs: StopRuns) returns (error: Option<Code>)
      modifies this`rules, this`trace
      ensures rules == StoppedRules(runs) && trace == old(trace) + Unrule()
      ensures error == if CleanStops(runs) then None else Some(NetstackCleanupFailed)
    {
      var report, left, calls := CleanupInto(EMPTY_REPORT, rules, runs);
      rules := left;
      assert Scripts([DnsStop, IptablesStop]) == Unrule();
      trace := trace + Scripts(calls);
      error := Err(report);
      if !CleanStops(runs) {
        FirstFailure(report, if CountsAsClean(runs.dns) then 1 else 0);
        CodeIsUnique(report, error, Some(NetstackCleanupFailed));
      }
    }

    method RollbackStarted(cleanup: Option<StopRuns>)
      requires process.Some?
      modifies this
      ensures Contents() == Forgotten(old(Contents())).(
                state := Stopped, rules := if cleanup.Some? then StoppedRules(cleanup.value) else old(rules))
      ensures trace == old(trace) + (if cleanup.Some? then Unrule() else []) + [KillCore]
    {
      hide StoppedRules, CleanStops, Unrule;
      if cleanup.Some? {
        var _ := CleanRules(cleanup.value);
      }
      if process.Some? {
        trace := trace + [KillCore];
      }
      Forget(Stopped);
      var _ := StopXraySidecar(true);
    }

    /** Rendering and checking, up to a spawned sidecar. */
    method PrepareStart(profile: NodeProfile, runs: StartRuns) returns (failed: Option<StartStage>)
      modifies this`state, this`file, this`sidecar
      ensures failed == PreparationFailsAt(runs, RequiresXraySidecar(profile))
      ensures failed.Some? ==> Contents() == Started(old(Contents()), profile, runs)
      ensures failed.None? ==> Contents() == Ready(old(Contents()), profile, runs)
    {
      hide RequiresXraySidecar, Committed, Forgotten;
      state := Starting;
      var needsSidecar := RequiresXraySidecar(profile);
      if needsSidecar && !runs.sidecar.renders {
        state := Stopped;
        return Some(SidecarRender);
      }
      if needsSidecar && !runs.sidecar.checks {
        state := Stopped;
        return Some(SidecarCheck);
      }
      if runs.write.NotWritten? {
        if runs.write.broken {
          file := None;
        }
        state := Stopped;
        return Some(Render);
      }
      file := Some(Rendered(config, profile));
      if !runs.checks {
        state := Stopped;
        return Some(Check);
      }
      if needsSidecar {
        if runs.sidecar.spawn.None? {
          state := Stopped;
          return Some(SidecarSpawn);
        }
        sidecar := runs.sidecar.spawn;
        if !runs.sidecar.listens {
          var _ := StopXraySidecar(true);
          state := Stopped;
          return Some(SidecarWait);
        }
      }
      return None;
    }

    /** Spawning the core and waiting for its listeners. */
    method LaunchCore(profile: NodeProfile, runs: StartRuns) returns (failed: Option<StartStage>)
      requires file == Some(Rendered(config, profile))
      modifies this
      ensures failed == LaunchFailsAt(runs)
      ensures failed.Some? ==> Contents() == LaunchFailed(old(Contents()), failed.value)
      ensures failed.Some? ==> trace == old(trace) + if failed.value.Listen? || failed.value.Owners? then [SpawnCore, KillCore] else []
      ensures failed.None? ==> Contents() == old(Contents()).(process := Some(Process(PidOf(runs.spawn), old(file))))
      ensures failed.None? ==> trace == old(trace) + [SpawnCore]
    {
      if !runs.prepares {
        var _ := StopXraySidecar(true);
        state := Stopped;
        return Some(Prepare);
      }
      if !runs.spawn.Spawned? {
        var _ := StopXraySidecar(true);
        state := Stopped;
        return Some(if runs.spawn.NoLog? then OpenLog else Spawn);
      }
      process := Some(Process(runs.spawn.pid, file));
      trace := trace + [SpawnCore];
      if runs.down.Some? {
        RollbackStarted(None);
        return Some(Listen);
      }
      if !runs.ownersMatch {
        RollbackStarted(None);
        return Some(Owners);
      }
      return None;
    }

    /** Putting the rules in place for the core that is now listening. */
    method EngageRules(runs: StartRuns) returns (error: Option<Error>)
      requires process.Some?
      modifies this
      ensures error == if !Applied(runs.apply) then Some(StartError(ApplyRules, runs))
                       else if !(runs.iptablesStatus && runs.dnsStatus) then Some(StartError(VerifyRules, runs))
                       else None
      ensures error.Some? ==> Contents() == Forgotten(old(Contents())).(state := Stopped, rules := StoppedRules(runs.undo))
      ensures error.None? ==> Contents() == old(Contents()).(rules := AfterApply(runs.apply))
      ensures trace == old(trace) + EngageEffects(runs)
    {
      hide AfterApply, ApplyCalls, Scripts, StoppedRules, ReportsCode, Applied, CleanStops, Unrule, StartError;
      ghost var before := trace;
      ghost var applied, verified := Scripts(ApplyCalls(runs.apply)), Scripts(VerifyCalls(runs.iptablesStatus));
      AppliedIffNoCode(runs.apply);
      RuleErrors(runs);
      var report, now, calls := NetstackRules.Apply(rules, runs.apply);
      rules := now;
      trace := trace + Scripts(calls);
      if report.errors != [] {
        var code := Err(report);
        CodeIsUnique(report, code, ApplyCode(runs.apply));
        RollbackStarted(Some(runs.undo));
        Joined(before, applied, Unrule(), [KillCore]);
        return Some(Staged(Net(code.value), true, false));
      }
      var check, checks := Verify(runs.iptablesStatus, runs.dnsStatus);
      trace := trace + Scripts(checks);
      Joined(before, applied, verified, []);
      if check.errors != [] {
        var code := Err(check);
        CodeIsUnique(check, code, Some(NetstackVerifyFailed));
        RollbackStarted(Some(runs.undo));
        Joined(before, applied + verified, Unrule(), [KillCore]);
        return Some(Staged(Net(code.value), true, false));
      }
      return None;
    }

    method Start(profile: NodeProfile, runs: StartRuns) returns (error: Option<Error>)
      modifies this
      ensures var busy, stage := old(state).Running? || old(state).Starting?, StartFailsAt(runs, RequiresXraySidecar(profile));
              Contents() == (if busy then old(Contents()) else Started(old(Contents()), profile, runs))
              && trace == old(trace) + (if busy then [] else StartEffects(profile, runs))
              && error == if busy then Some(AlreadyRunning) else if stage.Some? then Some(StartError(stage.value, runs)) else None
    {
      hide RequiresXraySidecar, ApplyCalls, Address, AfterApply, StoppedRules, Scripts, Applied, Started, StartEffects,
           StartFailsAt, PreparationFailsAt, LaunchFailsAt, LaunchFailed, StartError, Forgotten, EngageEffects;
      if state.Running? || state.Starting? {
        return Some(AlreadyRunning);
      }
      StartStages(runs, RequiresXraySidecar(profile));
      StartedInTurn(Contents(), profile, runs);
      EffectsInTurn(profile, runs);
      var failed := PrepareStart(profile, runs);
      if failed.Some? {
        return Some(StartError(failed.value, runs));
      }
      failed := LaunchCore(profile, runs);
      if failed.Some? {
        return Some(StartError(failed.value, runs));
      }
      ghost var up := process;
      error := EngageRules(runs);
      Joined(old(trace), [SpawnCore], EngageEffects(runs), []);
      if error.Some? {
        ForgottenForgets(Ready(old(Contents()), profile, runs), up);
        return;
      }
      CommitState(profile, runs.marks);
      return None;
    }

    /** The rules go before the core does, so that no traffic is led into a dead proxy. */
    method Stop(runs: StopCoreRuns) returns (error: Option<StopError>)
      modifies this
      ensures error == StopErrorOf(runs) && Contents() == StoppedCore(old(Contents()), runs)
      ensures trace == old(trace) + Unrule() + [KillCore]
    {
      hide StoppedRules, CleanStops, Unrule;
      state := Stopping;
      marker := false;
      error := None;
      var cleanup := CleanRules(runs.cleanup);
      if cleanup.Some? {
        error := Some(CleanupFailed(cleanup.value));
      }
      trace := trace + [KillCore];
      if !runs.kills && error.None? {
        error := Some(CoreNotKilled);
      }
      var killed := StopXraySidecar(runs.killsSidecar);
      if !killed && error.None? {
        error := Some(SidecarNotKilled);
      }
      Forget(Stopped);
    }

    /** Starting the previous profile on the configuration file that the swap has not touched. */
    method Respawn(rollbackConfig: Config, rollbackProfile: NodeProfile, runs: RestoreRuns) returns (ok: bool)
      requires process.None? && sidecar.None?
      modifies this
      ensures ok == Restores(rollbackProfile, runs)
      ensures ok ==> Contents() == old(Contents()).(
                config := rollbackConfig, state := Running, process := Some(Process(PidOf(runs.spawn), old(file))),
                sidecar := if RequiresXraySidecar(rollbackProfile) then runs.sidecar.spawn else None,
                activeProfile := Address(rollbackProfile), runningConfig := Some(Clone(rollbackConfig)),
                runningProfile := Some(rollbackProfile), marker := old(marker) || runs.marks)
      ensures !ok ==> (process.Some? <==> RestoreSpawns(rollbackProfile, runs))
                      && Contents() == old(Contents()).(config := rollbackConfig, process := process)
      ensures trace == old(trace) + RespawnEffects(rollbackProfile, runs)
    {
      hide RequiresXraySidecar, Address;
      config := rollbackConfig;
      if RequiresXraySidecar(rollbackProfile) {
        if !runs.sidecar.renders {
          return false;
        }
        if runs.sidecar.spawn.None? {
          return false;
        }
        sidecar := runs.sidecar.spawn;
        if !runs.sidecar.listens {
          var _ := StopXraySidecar(true);
          return false;
        }
      }
      if !runs.spawn.Spawned? {
        var _ := StopXraySidecar(true);
        return false;
      }
      process := Some(Process(runs.spawn.pid, file));
      trace := trace + [SpawnCore];
      if runs.down.Some? {
        trace := trace + [KillCore];
        var _ := StopXraySidecar(true);
        return false;
      }
      CommitState(rollbackProfile, runs.marks);
      return true;
    }

    method RestorePreviousRuntime(rollbackConfig: Config, rollbackProfile: NodeProfile, runs: RestoreRuns) returns (ok: bool)
      modifies this
      ensures ok == Restores(rollbackProfile, runs)
      ensures ok ==> Contents() == old(Contents()).(
                config := rollbackConfig, state := Running, process := Some(Process(PidOf(runs.spawn), old(file))),
                sidecar := if RequiresXraySidecar(rollbackProfile) then runs.sidecar.spawn else None,
                activeProfile := Address(rollbackProfile), runningConfig := Some(Clone(rollbackConfig)),
                runningProfile := Some(rollbackProfile), marker := old(marker) || runs.marks)
      ensures !ok ==> (process.Some? <==> RestoreSpawns(rollbackProfile, runs))
                      && Contents() == old(Contents()).(config := rollbackConfig, process := process, sidecar := None)
      ensures trace == old(trace) + If(old(process).Some?, KillCore) + RespawnEffects(rollbackProfile, runs)
    {
      hide RequiresXraySidecar, Address, Restores, RestoreSpawns, RespawnEffects;
      if process.Some? {
        trace := trace + [KillCore];
      }
      var _ := StopXraySidecar(true);
      process := None;
      ok := Respawn(rollbackConfig, rollbackProfile, runs);
    }

    /** Nothing is left to go back to: the rules first, then whatever core there is. */
    method Degrade(cleanup: StopRuns)
      modifies this
      ensures Contents() == Forgotten(old(Contents())).(state := Degraded, marker := false, rules := StoppedRules(cleanup))
      ensures trace == old(trace) + Unrule() + If(old(process).Some?, KillCore)
    {
      hide StoppedRules, CleanStops, Unrule;
      var _ := CleanRules(cleanup);
      if process.Some? {
        trace := trace + [KillCore];
      }
      Forget(Degraded);
      var _ := StopXraySidecar(true);
      marker := false;
    }

    /** The end of a swap that failed late: the previous runtime again, or nothing at all. */
    method CleanupAndDegrade(rollbackConfig: Option<Config>, rollbackProfile: Option<NodeProfile>, runs: SwapRuns) returns (preserved: bool)
      requires rollbackProfile == runningProfile
      requires rollbackConfig == if runningConfig.Some? then Some(Clone(runningConfig.value)) else None
      modifies this
      ensures preserved == (old(CanRestore(Contents())) && Restores(old(runningProfile).value, runs.restore))
      ensures Contents() == if preserved then Back(old(Contents()), runs.restore) else GivenUpCore(old(Contents()), runs)
      ensures trace == old(trace) + LateEffects(old(Contents()), old(process).Some?, runs)
    {
      hide RequiresXraySidecar, Address, StoppedRules, RestoreSpawns, Restores, RespawnEffects, If, Forgotten, Unrule, CleanStops;
      preserved := false;
      if rollbackConfig.Some? && rollbackProfile.Some? {
        preserved := RestorePreviousRuntime(rollbackConfig.value, rollbackProfile.value, runs.restore);
      }
      if !preserved {
        ghost var left := Contents();
        Degrade(runs.cleanup);
        ForgottenAnyway(old(Contents()), left);
      }
    }

    /** Replacing the core, from the point where the old one is gone. */
    method SwapCore(profile: NodeProfile, runs: SwapRuns) returns (failed: Option<SwapStage>)
      requires process.None?
      modifies this`sidecar, this`process, this`file, this`trace
      ensures failed == LateSwapFailsAt(runs, RequiresXraySidecar(profile))
      ensures failed.Some? ==> (process.Some? <==> NewCoreUp(failed.value)) && file == old(file)
      ensures trace == old(trace) + If(failed.None? || NewCoreUp(failed.value), SpawnCore)
      ensures failed.None? ==> process == Some(Process(PidOf(runs.spawn), Some(Rendered(config, profile)))) && file == Some(Rendered(config, profile))
      ensures failed.None? ==> sidecar == if RequiresXraySidecar(profile) then runs.sidecar.spawn else None
    {
      hide RequiresXraySidecar;
      var stopped := StopXraySidecar(runs.stopsSidecar);
      if !stopped {
        return Some(StopSidecar);
      }
      if RequiresXraySidecar(profile) {
        if runs.sidecar.spawn.None? {
          return Some(SwapSidecarSpawn);
        }
        sidecar := runs.sidecar.spawn;
        if !runs.sidecar.listens {
          return Some(SwapSidecarWait);
        }
      }
      if !runs.spawn.Spawned? {
        return Some(SwapSpawn);
      }
      process := Some(Process(runs.spawn.pid, Some(Rendered(config, profile))));
      trace := trace + [SpawnCore];
      if runs.down.Some? {
        return Some(SwapListen);
      }
      if !runs.renames {
        return Some(SwapCommit);
      }
      file := Some(Rendered(config, profile));
      return None;
    }

    /** Rendering and checking beside the running core, and giving the old core up. */
    method GiveUpOld(profile: NodeProfile, runs: SwapRuns) returns (failed: Option<SwapStage>)
      modifies this`process, this`state, this`trace
      ensures failed == EarlySwapFailsAt(runs, RequiresXraySidecar(profile), old(process).Some?)
      ensures failed.Some? ==> Contents() == old(Contents()) && trace == old(trace) + If(failed.value.StopOld?, KillCore)
      ensures failed.None? ==> process == None && state == Starting && trace == old(trace) + If(old(process).Some?, KillCore)
    {
      hide RequiresXraySidecar;
      var needsSidecar := RequiresXraySidecar(profile);
      if needsSidecar && !runs.sidecar.renders {
        return Some(SwapSidecarRender);
      }
      if needsSidecar && !runs.sidecar.checks {
        return Some(SwapSidecarCheck);
      }
      if !runs.renders {
        return Some(SwapRender);
      }
      if !runs.checks {
        return Some(SwapCheck);
      }
      if process.Some? {
        trace := trace + [KillCore];
        if !runs.kills {
          return Some(StopOld);
        }
        process := None;
      }
      state := Starting;
      return None;
    }

    method HotSwap(profile: NodeProfile, runs: SwapRuns) returns (error: Option<Error>)
      modifies this
      ensures Contents() == HotSwapped(old(Contents()), profile, runs)
      ensures error == SwapError(Outcome(old(Contents()), profile, runs), runs)
      ensures trace == old(trace) + SwapEffects(old(Contents()), profile, runs)
    {
      hide RequiresXraySidecar, Address, StoppedRules, Restores, RestoreSpawns, LateEffects, Back, GivenUpCore, SwapCode,
           HotSwapped, Outcome, SwapEffects, CanRestore, EarlySwapFailsAt, LateSwapFailsAt, If, NewCoreUp, Clone, Unrule, CleanStops;
      var rollbackConfig := if runningConfig.Some? then Some(Clone(runningConfig.value)) else None;
      var rollbackProfile := runningProfile;
      ghost var before := Contents();
      SwappedInTurn(before, profile, runs);
      var failed := GiveUpOld(profile, runs);
      if failed.Some? {
        return Some(Staged(SwapCode(failed.value, runs), false, false));
      }
      failed := SwapCore(profile, runs);
      if failed.Some? {
        ghost var late := Contents();
        var preserved := CleanupAndDegrade(rollbackConfig, rollbackProfile, runs);
        LateIgnoresCore(before, late, NewCoreUp(failed.value), runs);
        Joined(old(trace), If(before.process.Some?, KillCore), If(NewCoreUp(failed.value), SpawnCore),
               LateEffects(before, NewCoreUp(failed.value), runs));
        return Some(Staged(SwapCode(failed.value, runs), true, preserved));
      }
      LaunchedEffect();
      Joined(old(trace), If(before.process.Some?, KillCore), [SpawnCore], []);
      CommitState(profile, runs.marks);
      return None;
    }
  }

  // The stages of a start and of a swap, in the order of the methods.

  function PreparationFailsAt(runs: StartRuns, needsSidecar: bool): Option<StartStage> {
    if needsSidecar && !runs.sidecar.renders then Some(SidecarRender)
    else if needsSidecar && !runs.sidecar.checks then Some(SidecarCheck)
    else if runs.write.NotWritten? then Some(Render)
    else if !runs.checks then Some(Check)
    else if needsSidecar && runs.sidecar.spawn.None? then Some(SidecarSpawn)
    else if needsSidecar && !runs.sidecar.listens then Some(SidecarWait)
    else None
  }

  function LaunchFailsAt(runs: StartRuns): Option<StartStage> {
    if !runs.prepares then Some(Prepare)
    else if runs.spawn.NoLog? then Some(OpenLog)
    else if runs.spawn.NoProcess? then Some(Spawn)
    else if runs.down.Some? then Some(Listen)
    else if !runs.ownersMatch then Some(Owners)
    else None
  }

  function LaunchFailed(core: Core, stage: StartStage): Core {
    if stage.Listen? || stage.Owners? then Forgotten(core).(state := Stopped) else core.(state := Stopped, sidecar := None)
  }

  function LateSwapFailsAt(runs: SwapRuns, needsSidecar: bool): Option<SwapStage> {
    if !runs.stopsSidecar then Some(StopSidecar)
    else if needsSidecar && runs.sidecar.spawn.None? then Some(SwapSidecarSpawn)
    else if needsSidecar && !runs.sidecar.listens then Some(SwapSidecarWait)
    else if !runs.spawn.Spawned? then Some(SwapSpawn)
    else if runs.down.Some? then Some(SwapListen)
    else if !runs.renames then Some(SwapCommit)
    else None
  }

  lemma StartStages(runs: StartRuns, needsSidecar: bool)
    ensures StartFailsAt(runs, needsSidecar) ==
              if PreparationFailsAt(runs, needsSidecar).Some? then PreparationFailsAt(runs, needsSidecar)
              else if LaunchFailsAt(runs).Some? then LaunchFailsAt(runs)
              else if !Applied(runs.apply) then Some(ApplyRules)
              else if !(runs.iptablesStatus && runs.dnsStatus) then Some(VerifyRules)
              else None
  {
  }

  function EarlySwapFailsAt(runs: SwapRuns, needsSidecar: bool, hadProcess: bool): Option<SwapStage> {
    if needsSidecar && !runs.sidecar.renders then Some(SwapSidecarRender)
    else if needsSidecar && !runs.sidecar.checks then Some(SwapSidecarCheck)
    else if !runs.renders then Some(SwapRender)
    else if !runs.checks then Some(SwapCheck)
    else if hadProcess && !runs.kills then Some(StopOld)
    else None
  }

  lemma LaunchedEffect()
    ensures If(true, SpawnCore) == [SpawnCore]
  {
  }

  lemma ForgottenForgets(core: Core, process: Option<Process>)
    ensures Forgotten(core.(process := process)) == Forgotten(core)
  {
  }

  lemma ForgottenAnyway(before: Core, left: Core)
    requires left == before.(config := left.config, process := left.process, sidecar := left.sidecar)
    ensures Forgotten(left) == Forgotten(before).(config := left.config)
  {
  }

  /** The state in which the core is launched: everything rendered, a needed sidecar up. */
  function Ready(core: Core, profile: NodeProfile, runs: StartRuns): Core {
    core.(state := Starting, file := Some(Rendered(core.config, profile)),
          sidecar := if RequiresXraySidecar(profile) then runs.sidecar.spawn else core.sidecar)
  }

  lemma StartedInTurn(core: Core, profile: NodeProfile, runs: StartRuns)
    ensures var ready := Ready(core, profile, runs);
            if PreparationFailsAt(runs, RequiresXraySidecar(profile)).Some? then true
            else if LaunchFailsAt(runs).Some? then Started(core, profile, runs) == LaunchFailed(ready, LaunchFailsAt(runs).value)
            else if !Applied(runs.apply) || !(runs.iptablesStatus && runs.dnsStatus) then
              Started(core, profile, runs) == Forgotten(ready).(state := Stopped, rules := StoppedRules(runs.undo))
            else
              Started(core, profile, runs) == Committed(core, profile, PidOf(runs.spawn), runs.marks).(
                sidecar := ready.sidecar, rules := AfterApply(runs.apply))
  {
    hide RequiresXraySidecar, AfterApply, StoppedRules, Applied, Address, StartFailsAt, PreparationFailsAt;
    StartStages(runs, RequiresXraySidecar(profile));
    PreparationStages(runs, RequiresXraySidecar(profile));
  }

  lemma PreparationStages(runs: StartRuns, needsSidecar: bool)
    ensures PreparationFailsAt(runs, needsSidecar).Some? ==>
              PreparationFailsAt(runs, needsSidecar).value in {SidecarRender, SidecarCheck, Render, Check, SidecarSpawn, SidecarWait}
  {
  }

  function EngageEffects(runs: StartRuns): seq<Effect> {
    var applied, verified := Scripts(ApplyCalls(runs.apply)), Scripts(VerifyCalls(runs.iptablesStatus));
    if !Applied(runs.apply) then applied + Unrule() + [KillCore]
    else if !(runs.iptablesStatus && runs.dnsStatus) then applied + verified + Unrule() + [KillCore]
    else applied + verified
  }

  lemma EffectsInTurn(profile: NodeProfile, runs: StartRuns)
    ensures StartEffects(profile, runs) ==
            if PreparationFailsAt(runs, RequiresXraySidecar(profile)).Some? then []
            else if LaunchFailsAt(runs).Some? then
              if LaunchFailsAt(runs).value.Listen? || LaunchFailsAt(runs).value.Owners? then [SpawnCore, KillCore] else []
            else [SpawnCore] + EngageEffects(runs)
  {
    hide RequiresXraySidecar, ApplyCalls, VerifyCalls, Scripts, Unrule, Applied, StartFailsAt, PreparationFailsAt;
    StartStages(runs, RequiresXraySidecar(profile));
    PreparationStages(runs, RequiresXraySidecar(profile));
    var applied, verified := Scripts(ApplyCalls(runs.apply)), Scripts(VerifyCalls(runs.iptablesStatus));
    Joined([SpawnCore], applied, Unrule(), [KillCore]);
    Joined([SpawnCore], applied, verified, []);
    Joined([SpawnCore], applied + verified, Unrule(), [KillCore]);
  }

  lemma Joined(a: seq<Effect>, b: seq<Effect>, c: seq<Effect>, d: seq<Effect>)
    ensures a + b + c + d == a + (b + c + d) && (a + b) + (c + d) == a + (b + c + d)
    ensures d == [] ==> a + b + c == a + (b + c)
  {
  }

  lemma RuleErrors(runs: StartRuns)
    ensures ApplyCode(runs.apply).Some? ==> StartError(ApplyRules, runs) == Staged(Net(ApplyCode(runs.apply).value), true, false)
    ensures StartError(VerifyRules, runs) == Staged(Net(NetstackVerifyFailed), true, false)
  {
  }

  lemma SwapStages(runs: SwapRuns, needsSidecar: bool, hadProcess: bool)
    ensures var early, late := EarlySwapFailsAt(runs, needsSidecar, hadProcess), LateSwapFailsAt(runs, needsSidecar);
            SwapFailsAt(runs, needsSidecar, hadProcess) == (if early.Some? then early else late)
            && (early.Some? ==> Early(early.value)) && (late.Some? ==> !Early(late.value))
  {
  }

  lemma SwappedInTurn(core: Core, profile: NodeProfile, runs: SwapRuns)
    ensures var needsSidecar, hadProcess := RequiresXraySidecar(profile), core.process.Some?;
            var early, late := EarlySwapFailsAt(runs, needsSidecar, hadProcess), LateSwapFailsAt(runs, needsSidecar);
            if early.Some? then
              HotSwapped(core, profile, runs) == core && Outcome(core, profile, runs) == Untouched(early.value)
              && SwapEffects(core, profile, runs) == If(early.value.StopOld?, KillCore)
            else if late.Some? then
              var preserved := CanRestore(core) && Restores(core.runningProfile.value, runs.restore);
              HotSwapped(core, profile, runs) == (if preserved then Back(core, runs.restore) else GivenUpCore(core, runs))
              && Outcome(core, profile, runs) == (if preserved then Preserved(late.value) else GivenUp(late.value))
              && SwapEffects(core, profile, runs) ==
                If(hadProcess, KillCore) + If(NewCoreUp(late.value), SpawnCore) + LateEffects(core, NewCoreUp(late.value), runs)
            else
              HotSwapped(core, profile, runs) == Committed(core, profile, PidOf(runs.spawn), runs.marks).(
                sidecar := if needsSidecar then runs.sidecar.spawn else None)
              && Outcome(core, profile, runs) == Swapped
              && SwapEffects(core, profile, runs) == If(hadProcess, KillCore) + [SpawnCore]
  {
    hide RequiresXraySidecar, Address, Restores, LateEffects, Back, GivenUpCore, SwapFailsAt, EarlySwapFailsAt, LateSwapFailsAt, If, NewCoreUp, Early,
         Committed;
    SwapStages(runs, RequiresXraySidecar(profile), core.process.Some?);
  }

  /** What the end of a failed swap looks at is the same before the swap and when it fails. */
  lemma LateIgnoresCore(before: Core, late: Core, up: bool, runs: SwapRuns)
    requires late == before.(state := late.state, process := late.process, sidecar := late.sidecar)
    ensures CanRestore(late) == CanRestore(before) && LateEffects(late, up, runs) == LateEffects(before, up, runs)
    ensures GivenUpCore(late, runs) == GivenUpCore(before, runs)
    ensures CanRestore(before) ==> Back(late, runs.restore) == Back(before, runs.restore)
  {
  }

  lemma AppliedIffNoCode(runs: ApplyRuns)
    ensures Applied(runs) <==> ApplyCode(runs).None?
  {
  }
}
