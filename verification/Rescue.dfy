/** Automatic recovery: escalating strategies, a cooldown between them, a limit on their number. */
module Rescue {
  import opened Basics
  import opened ProxyNode
  import opened NetstackRules
  import opened CoreLifecycle
  import RecoveryGate

  datatype Strategy = RestartCore | ReapplyRules | FullRestart

  /** A started attempt, with the limit and the cooldown in force when it started. */
  datatype Entry = Entry(strategy: Strategy, at: int, limit: int, cooldown: int)

  /** `log` is history: the attempts started since the last reset. */
  datatype Rescuer = Rescuer(attempts: nat, maxAttempts: int, lastAttempt: int, cooldown: int, log: seq<Entry>)

  datatype ReapplyRuns = ReapplyRuns(iptablesStop: ScriptRun, iptablesStart: ScriptRun, dnsStop: ScriptRun, dnsStart: ScriptRun)

  datatype AttemptRuns = AttemptRuns(swap: SwapRuns, reapply: ReapplyRuns, stop: StopCoreRuns, start: StartRuns)

  /** The recovery gate's answer when it is asked for the k-th time, in the state the core is then in. */
  type Gate = (nat, State) -> bool

  datatype End = CancelledFirst | CoolingDown | Exhausted | CancelledEarly | StrategyFailed | CancelledLate | Recovered

  datatype Tried = Tried(core: Core, ok: bool, asks: nat)

  datatype Attempted = Attempted(rescuer: Rescuer, core: Core, end: End)

  function PickStrategy(attempts: nat): Strategy {
    if attempts == 0 then RestartCore else if attempts == 1 then ReapplyRules else FullRestart
  }

  function RestartTried(core: Core, profile: NodeProfile, gate: Gate, runs: AttemptRuns): Tried {
    if !gate(2, core.state) then Tried(core, false, 3)
    else Tried(HotSwapped(core, profile, runs.swap), Outcome(core, profile, runs.swap).Swapped?, 3)
  }

  function ReapplyTried(core: Core, gate: Gate, runs: ReapplyRuns): Tried {
    var restarted := core.(rules := core.rules.(iptables := Left(runs.iptablesStart, true)));
    if !gate(2, core.state) then Tried(core, false, 3)
    else if runs.iptablesStart.Broke? then Tried(restarted, false, 3)
    else if !gate(3, core.state) then Tried(restarted, false, 4)
    else Tried(restarted.(rules := restarted.rules.(dns := Left(runs.dnsStart, true))), runs.dnsStart.Ran?, 4)
  }

  function FullTried(core: Core, profile: NodeProfile, gate: Gate, runs: AttemptRuns): Tried {
    var down := StoppedCore(core, runs.stop);
    if !gate(2, core.state) then Tried(core, false, 3)
    else if !gate(3, down.state) then Tried(down, false, 4)
    else Tried(Started(down, profile, runs.start), StartFailsAt(runs.start, RequiresXraySidecar(profile)).None?, 4)
  }

  function StrategyTried(strategy: Strategy, core: Core, profile: NodeProfile, gate: Gate, runs: AttemptRuns): Tried {
    match strategy
    case RestartCore => RestartTried(core, profile, gate, runs)
    case ReapplyRules => ReapplyTried(core, gate, runs.reapply)
    case FullRestart => FullTried(core, profile, gate, runs)
  }

  /** Whether an attempt gets as far as being counted. */
  predicate MayStart(r: Rescuer, core: Core, gate: Gate, now: Moment) {
    gate(0, core.state) && !(r.lastAttempt != 0 && now - r.lastAttempt < r.cooldown) && r.attempts < r.maxAttempts
  }

  function Counted(r: Rescuer, now: Moment): Rescuer {
    r.(attempts := r.attempts + 1, lastAttempt := now,
       log := r.log + [Entry(PickStrategy(r.attempts), now, r.maxAttempts, r.cooldown)])
  }

  function AttemptOf(r: Rescuer, core: Core, profile: NodeProfile, gate: Gate, runs: AttemptRuns, now: Moment): Attempted {
    if !gate(0, core.state) then Attempted(r, core, CancelledFirst)
    else if r.lastAttempt != 0 && now - r.lastAttempt < r.cooldown then Attempted(r, core, CoolingDown)
    else if r.attempts >= r.maxAttempts then Attempted(r, core, Exhausted)
    else
      var rescued := core.(state := Rescue);
      if !gate(1, Rescue) then Attempted(Counted(r, now), rescued, CancelledEarly)
      else
        var tried := StrategyTried(PickStrategy(r.attempts), rescued, profile, gate, runs);
        var open := gate(tried.asks, tried.core.state);
        if !tried.ok then Attempted(Counted(r, now), if open then tried.core.(state := Degraded) else tried.core, StrategyFailed)
        else if !open then Attempted(Counted(r, now), tried.core, CancelledLate)
        else Attempted(Counted(r, now), tried.core.(state := Running), Recovered)
  }

  function ResetOf(r: Rescuer): Rescuer {
    r.(attempts := 0, lastAttempt := 0, log := [])
  }

  function Reconfigured(r: Rescuer, maxAttempts: int, cooldownSec: int): Rescuer {
    r.(maxAttempts := if maxAttempts >= 1 then maxAttempts else r.maxAttempts,
       cooldown := if cooldownSec > 0 then cooldownSec else r.cooldown)
  }

  function NewRescuer(maxAttempts: int, cooldown: int): Rescuer {
    Rescuer(0, if maxAttempts < 1 then 3 else maxAttempts, 0, cooldown, [])
  }

  class RescueManager {
    const core: CoreManager
    var attempts: nat
    var maxAttempts: int
    var lastAttempt: int
    var cooldown: int
    ghost var log: seq<Entry>

    ghost function Contents(): Rescuer
      reads this
    {
      Rescuer(attempts, maxAttempts, lastAttempt, cooldown, log)
    }

    constructor (core: CoreManager, maxAttempts: int, cooldown: int)
      ensures Contents() == NewRescuer(maxAttempts, cooldown) && this.core == core
    {
      this.core := core;
      this.maxAttempts := if maxAttempts < 1 then 3 else maxAttempts;
      this.cooldown := cooldown;
      attempts, lastAttempt, log := 0, 0, [];
    }

    method Reset()
      modifies this
      ensures Contents() == ResetOf(old(Contents()))
    {
      attempts := 0;
      lastAttempt := 0;
      log := [];
    }

    method SetConfig(limit: int, cooldownSec: int)
      modifies this
      ensures Contents() == Reconfigured(old(Contents()), limit, cooldownSec)
    {
      if limit >= 1 {
        maxAttempts := limit;
      }
      if cooldownSec > 0 {
        cooldown := cooldownSec;
      }
    }

    method TryRestart(profile: NodeProfile, gate: Gate, runs: AttemptRuns) returns (ok: bool)
      modifies core
      ensures core.Contents() == RestartTried(old(core.Contents()), profile, gate, runs).core
      ensures ok == RestartTried(old(core.Contents()), profile, gate, runs).ok
    {
      hide HotSwapped, Outcome;
      if !gate(2, core.state) {
        return false;
      }
      var error := core.HotSwap(profile, runs.swap);
      return error.None?;
    }

    /** The rules are taken down and put up again, the TPROXY rules before the interception. */
    method TryReapply(gate: Gate, runs: ReapplyRuns) returns (ok: bool)
      modifies core
      ensures core.Contents() == ReapplyTried(old(core.Contents()), gate, runs).core
      ensures ok == ReapplyTried(old(core.Contents()), gate, runs).ok
    {
      if !gate(2, core.state) {
        return false;
      }
      core.rules := core.rules.(iptables := Left(runs.iptablesStop, false));
      core.rules := core.rules.(iptables := Left(runs.iptablesStart, true));
      if runs.iptablesStart.Broke? {
        return false;
      }
      if !gate(3, core.state) {
        return false;
      }
      core.rules := core.rules.(dns := Left(runs.dnsStop, false));
      core.rules := core.rules.(dns := Left(runs.dnsStart, true));
      return runs.dnsStart.Ran?;
    }

    method TryFull(profile: NodeProfile, gate: Gate, runs: AttemptRuns) returns (ok: bool)
      modifies core
      ensures core.Contents() == FullTried(old(core.Contents()), profile, gate, runs).core
      ensures ok == FullTried(old(core.Contents()), profile, gate, runs).ok
    {
      hide Started, StartFailsAt;
      if !gate(2, core.state) {
        return false;
      }
      var _ := core.Stop(runs.stop);
      if !gate(3, core.state) {
        return false;
      }
      var error := core.Start(profile, runs.start);
      return error.None?;
    }

    method Try(strategy: Strategy, profile: NodeProfile, gate: Gate, runs: AttemptRuns) returns (ok: bool, asks: nat)
      requires core.state == State.Rescue
      modifies core
      ensures var tried := StrategyTried(strategy, old(core.Contents()), profile, gate, runs);
              core.Contents() == tried.core && ok == tried.ok && asks == tried.asks
    {
      hide RestartTried, ReapplyTried, FullTried;
      AsksAgree(strategy, core.Contents(), profile, gate, runs);
      asks := AsksOf(strategy, gate, runs);
      match strategy {
        case RestartCore => ok := TryRestart(profile, gate, runs);
        case ReapplyRules => ok := TryReapply(gate, runs.reapply);
        case FullRestart => ok := TryFull(profile, gate, runs);
      }
    }

    method Attempt(profile: NodeProfile, gate: Gate, runs: AttemptRuns, now: Moment) returns (end: End)
      modifies this, core
      ensures var done := AttemptOf(old(Contents()), old(core.Contents()), profile, gate, runs, now);
              Contents() == done.rescuer && core.Contents() == done.core && end == done.end
    {
      hide StrategyTried, PickStrategy;
      if !gate(0, core.state) {
        return CancelledFirst;
      }
      if lastAttempt != 0 && now - lastAttempt < cooldown {
        return CoolingDown;
      }
      if attempts >= maxAttempts {
        return Exhausted;
      }
      var strategy := PickStrategy(attempts);
      log := log + [Entry(strategy, now, maxAttempts, cooldown)];
      attempts := attempts + 1;
      lastAttempt := now;
      core.SetState(Rescue);
      if !gate(1, core.state) {
        return CancelledEarly;
      }
      var ok, asks := Try(strategy, profile, gate, runs);
      if !ok {
        if gate(asks, core.state) {
          core.SetState(Degraded);
        }
        return StrategyFailed;
      }
      if !gate(asks, core.state) {
        return CancelledLate;
      }
      core.SetState(Running);
      return Recovered;
    }

    /** Tears everything down, as the last resort. */
    method Rollback(runs: StopCoreRuns) returns (ok: bool)
      modifies core
      ensures core.Contents() == StoppedCore(old(core.Contents()), runs) && ok == StopErrorOf(runs).None?
    {
      var error := core.Stop(runs);
      if error.Some? {
        return false;
      }
      core.SetState(Stopped);
      return true;
    }

    /** What the health monitor's degraded signal does, inside an operation that was accepted:
        `wanted` says, at each time the daemon's gate is asked, whether the captured epoch is still current
        and wanted. */
    method OnDegraded(profile: NodeProfile, wanted: nat -> bool, before: bool, after: bool, enabled: bool, configuredMax: int,
                      runs: AttemptRuns, rollback: StopCoreRuns, now: Moment) returns (end: Option<End>, rolledBack: bool)
      modifies this, core
      ensures end.Some? <==> before && RecoveryGate.Recoverable(old(core.state)) && enabled
      ensures end.None? ==> Contents() == old(Contents()) && core.Contents() == old(core.Contents()) && !rolledBack
      ensures end.Some? ==>
                var done := AttemptOf(old(Contents()), old(core.Contents()), profile, DaemonGate(wanted), runs, now);
                end == Some(done.end) && Contents() == done.rescuer
                && rolledBack == (!done.end.Recovered? && done.rescuer.attempts >= (if configuredMax < 1 then 1 else configuredMax)
                                  && after && RecoveryGate.Recoverable(done.core.state))
                && core.Contents() == if rolledBack then StoppedCore(done.core, rollback) else done.core
    {
      hide AttemptOf, StoppedCore;
      if !(before && RecoveryGate.Recoverable(core.state)) {
        return None, false;
      }
      if !enabled {
        return None, false;
      }
      var result := Attempt(profile, DaemonGate(wanted), runs, now);
      end, rolledBack := Some(result), false;
      if !result.Recovered? {
        var limit := configuredMax;
        if limit < 1 {
          limit := 1;
        }
        if attempts >= limit && after && RecoveryGate.Recoverable(core.state) {
          var _ := Rollback(rollback);
          rolledBack := true;
        }
      }
    }
  }

  /** How often the gate has been asked when a strategy that got past its first question ends. */
  function AsksOf(strategy: Strategy, gate: Gate, runs: AttemptRuns): nat {
    match strategy
    case RestartCore => 3
    case ReapplyRules => if !gate(2, Rescue) || runs.reapply.iptablesStart.Broke? then 3 else 4
    case FullRestart => if !gate(2, Rescue) then 3 else 4
  }

  lemma AsksAgree(strategy: Strategy, core: Core, profile: NodeProfile, gate: Gate, runs: AttemptRuns)
    requires core.state == Rescue
    ensures StrategyTried(strategy, core, profile, gate, runs).asks == AsksOf(strategy, gate, runs)
  {
    hide HotSwapped, Outcome, StoppedCore, Started, StartFailsAt;
  }

  function DaemonGate(wanted: nat -> bool): Gate {
    (k: nat, state: State) => wanted(k) && RecoveryGate.Recoverable(state)
  }

  /** Under the daemon's own gate a full restart never starts the core again: its teardown leaves the
      core stopped, which closes the gate. Either the attempt is called off before the teardown, or it
      fails with everything torn down, and then the rollback after a failed attempt does not run. */
  lemma FullRestartOnlyStops(r: Rescuer, core: Core, profile: NodeProfile, wanted: nat -> bool, runs: AttemptRuns, now: Moment)
    requires MayStart(r, core, DaemonGate(wanted), now) && PickStrategy(r.attempts) == FullRestart
    ensures var done := AttemptOf(r, core, profile, DaemonGate(wanted), runs, now);
            if wanted(1) && wanted(2) then
              done.end == StrategyFailed && done.core == StoppedCore(core, runs.stop) && !RecoveryGate.Recoverable(done.core.state)
            else !done.end.Recovered? && done.core == core.(state := done.core.state)
  {
    hide Started, StartFailsAt, HotSwapped, Outcome, StoppedRules;
  }

  // Runs.

  datatype Task = DoAttempt(core: Core, profile: NodeProfile, gate: Gate, runs: AttemptRuns, now: Moment) | DoReset | DoConfig(limit: int, cooldownSec: int)

  /** The core may have changed in any way since the last task. */
  function After(r: Rescuer, task: Task): Rescuer {
    match task
    case DoAttempt(core, profile, gate, runs, now) => AttemptOf(r, core, profile, gate, runs, now).rescuer
    case DoReset => ResetOf(r)
    case DoConfig(limit, cooldownSec) => Reconfigured(r, limit, cooldownSec)
  }

  function Run(r: Rescuer, tasks: seq<Task>): Rescuer {
    if tasks == [] then r else After(Run(r, tasks[..|tasks| - 1]), tasks[|tasks| - 1])
  }

  function Severity(strategy: Strategy): nat {
    match strategy
    case RestartCore => 0
    case ReapplyRules => 1
    case FullRestart => 2
  }

  /** Since the last reset: one strategy after the other in order of severity, each started below the
      limit and no sooner than the cooldown after the one before it. */
  ghost predicate Escalates(r: Rescuer) {
    && r.attempts == |r.log|
    && r.lastAttempt == (if r.log == [] then 0 else r.log[|r.log| - 1].at)
    && (forall i :: 0 <= i < |r.log| ==> r.log[i].at > 0 && Severity(r.log[i].strategy) == (if i < 2 then i else 2) && i < r.log[i].limit)
    && (forall i :: 0 < i < |r.log| ==> r.log[i].at - r.log[i - 1].at >= r.log[i].cooldown)
  }

  lemma AttemptKeeps(r: Rescuer, core: Core, profile: NodeProfile, gate: Gate, runs: AttemptRuns, now: Moment)
    requires Escalates(r)
    ensures Escalates(AttemptOf(r, core, profile, gate, runs, now).rescuer)
  {
    hide StrategyTried, Escalates, Counted;
    AttemptCounts(r, core, profile, gate, runs, now);
    if MayStart(r, core, gate, now) { CountedEscalates(r, now); }
  }

  lemma CountedEscalates(r: Rescuer, now: Moment)
    requires Escalates(r) && r.attempts < r.maxAttempts && !(r.lastAttempt != 0 && now - r.lastAttempt < r.cooldown)
    ensures Escalates(Counted(r, now))
  {
    var n := Counted(r, now);
    assert n.log[..|r.log|] == r.log;
    forall i | 0 < i < |n.log| ensures n.log[i].at - n.log[i - 1].at >= n.log[i].cooldown {
      if i < |r.log| { assert n.log[i] == r.log[i] && n.log[i - 1] == r.log[i - 1]; }
    }
  }

  lemma AttemptCounts(r: Rescuer, core: Core, profile: NodeProfile, gate: Gate, runs: AttemptRuns, now: Moment)
    ensures AttemptOf(r, core, profile, gate, runs, now).rescuer == if MayStart(r, core, gate, now) then Counted(r, now) else r
  {
    hide StrategyTried, Counted;
  }

  /** In every run, whatever happens to the core in between. */
  lemma {:induction false} RunsEscalate(maxAttempts: int, cooldown: int, tasks: seq<Task>)
    ensures Escalates(Run(NewRescuer(maxAttempts, cooldown), tasks))
  {
    hide AttemptOf, PickStrategy;
    if tasks != [] {
      var n := |tasks| - 1;
      RunsEscalate(maxAttempts, cooldown, tasks[..n]);
      if tasks[n].DoAttempt? {
        var t := tasks[n];
        AttemptKeeps(Run(NewRescuer(maxAttempts, cooldown), tasks[..n]), t.core, t.profile, t.gate, t.runs, t.now);
      }
    }
  }
}
