/** The health monitor: when it calls the core degraded, and what follows from that for recovery. */
module HealthMonitor {
  import opened Basics
  import opened ProxyNode
  import opened CoreLifecycle
  import Rescue

  /** One cycle's check results. */
  datatype Checks = Checks(alive: bool, tproxyPort: bool, iptables: bool, routing: bool, dnsListener: bool, dns: bool)

  datatype Signal = Quiet | SignalDegraded | SignalRestored

  predicate Overall(checks: Checks, dnsHard: bool) {
    checks.alive && checks.tproxyPort && checks.iptables && checks.routing && (dnsHard ==> checks.dnsListener && checks.dns)
  }

  /** A tick counts only while the core is meant to be up. */
  predicate Counts(state: State) {
    state.Running? || state.Degraded?
  }

  class Monitor {
    const core: CoreManager
    const dnsHard: bool
    var threshold: int
    var failures: nat

    constructor (core: CoreManager, threshold: int, dnsHard: bool)
      ensures failures == 0 && this.threshold == (if threshold < 1 then 3 else threshold) && this.core == core && this.dnsHard == dnsHard
    {
      this.core, this.dnsHard := core, dnsHard;
      this.threshold := if threshold < 1 then 3 else threshold;
      failures := 0;
    }

    method Clear()
      modifies this`failures
      ensures failures == 0
    {
      failures := 0;
    }

    method Tick(checks: Checks) returns (signal: Signal)
      modifies this`failures, core`state
      ensures var w := Ticked(Watch(old(failures), threshold, old(core.state)), Overall(checks, dnsHard));
              failures == w.0.failures && core.state == w.0.state && signal == w.1
    {
      var state := core.state;
      if state != Running && state != Degraded {
        return Quiet;
      }
      if Overall(checks, dnsHard) {
        failures := 0;
        if state == Degraded {
          core.SetState(Running);
        }
        return SignalRestored;
      }
      failures := failures + 1;
      if failures >= threshold && state != Degraded {
        core.SetState(Degraded);
        return SignalDegraded;
      }
      return Quiet;
    }
  }

  datatype Watch = Watch(failures: nat, threshold: int, state: State)

  function Ticked(w: Watch, passed: bool): (Watch, Signal) {
    if !Counts(w.state) then (w, Quiet)
    else if passed then (w.(failures := 0, state := Running), SignalRestored)
    else if w.failures + 1 >= w.threshold && w.state.Running? then (w.(failures := w.failures + 1, state := Degraded), SignalDegraded)
    else (w.(failures := w.failures + 1), Quiet)
  }

  // Runs of the monitor alone; the core's state may be anything at each tick.

  datatype Entry = Cycle(before: State, passed: bool, signal: Signal) | Cleared

  datatype Event = DoTick(state: State, passed: bool) | DoClear

  datatype History = History(failures: nat, log: seq<Entry>)

  function After(h: History, threshold: int, e: Event): History {
    match e
    case DoTick(state, passed) =>
      var (w, signal) := Ticked(Watch(h.failures, threshold, state), passed);
      History(w.failures, h.log + [Cycle(state, passed, signal)])
    case DoClear => History(0, h.log + [Cleared])
  }

  function Run(threshold: int, events: seq<Event>): History {
    if events == [] then History(0, []) else After(Run(threshold, events[..|events| - 1]), threshold, events[|events| - 1])
  }

  /** The counted failures since the last counted pass, or since diagnostics were last cleared. */
  function Streak(log: seq<Entry>): nat {
    if log == [] then 0
    else
      var front, last := Streak(log[..|log| - 1]), log[|log| - 1];
      if last.Cleared? then 0
      else if !Counts(last.before) then front
      else if last.passed then 0
      else front + 1
  }

  ghost predicate SignalRight(e: Entry, streak: nat, threshold: int) {
    e.Cycle? ==> (e.signal.SignalDegraded? <==> e.before.Running? && !e.passed && streak >= threshold)
  }

  ghost predicate SignalsRight(log: seq<Entry>, threshold: int) {
    forall i :: 0 <= i < |log| ==> SignalRight(log[i], Streak(log[..i + 1]), threshold)
  }

  lemma SignalsStep(log: seq<Entry>, e: Entry, threshold: int)
    requires SignalsRight(log, threshold) && SignalRight(e, Streak(log + [e]), threshold)
    ensures SignalsRight(log + [e], threshold)
  {
    hide SignalRight, Streak;
    var more := log + [e];
    forall i | 0 <= i < |more| ensures SignalRight(more[i], Streak(more[..i + 1]), threshold) {
      if i < |log| { assert more[..i + 1] == log[..i + 1]; } else { assert more[..i + 1] == more; }
    }
  }

  lemma TickRight(failures: nat, threshold: int, state: State, passed: bool, log: seq<Entry>)
    requires failures == Streak(log)
    ensures var (w, signal) := Ticked(Watch(failures, threshold, state), passed);
            var e := Cycle(state, passed, signal);
            w.failures == Streak(log + [e]) && SignalRight(e, Streak(log + [e]), threshold)
  {
    var (w, signal) := Ticked(Watch(failures, threshold, state), passed);
    assert (log + [Cycle(state, passed, signal)])[..|log|] == log;
  }

  lemma ClearRight(log: seq<Entry>, threshold: int)
    ensures Streak(log + [Cleared]) == 0 && SignalRight(Cleared, 0, threshold)
  {
  }

  /** A degraded signal is given exactly when a running core fails its checks and the failures since
      the last pass, this one included, have reached the threshold. */
  lemma {:induction false} SignalsAtThreshold(threshold: int, events: seq<Event>)
    ensures var h := Run(threshold, events); h.failures == Streak(h.log) && SignalsRight(h.log, threshold)
  {
    hide SignalsRight, SignalRight, Streak, Ticked;
    if events == [] {
      NoSignals(threshold);
    } else {
      var h := Run(threshold, events[..|events| - 1]);
      SignalsAtThreshold(threshold, events[..|events| - 1]);
      match events[|events| - 1]
      case DoTick(state, passed) =>
        TickRight(h.failures, threshold, state, passed, h.log);
        SignalsStep(h.log, Cycle(state, passed, Ticked(Watch(h.failures, threshold, state), passed).1), threshold);
      case DoClear =>
        ClearRight(h.log, threshold);
        SignalsStep(h.log, Cleared, threshold);
    }
  }

  lemma NoSignals(threshold: int)
    ensures Streak([]) == 0 && SignalsRight([], threshold)
  {
  }

  // The monitor and the rescue manager together, with no other operation in between.

  function Always(): nat -> bool {
    (k: nat) => true
  }

  /** After an attempt that did not succeed, with nothing else going on, the core does not count as running. */
  lemma UnsuccessfulIsNotRunning(r: Rescue.Rescuer, core: Core, profile: NodeProfile, runs: Rescue.AttemptRuns, now: Moment)
    requires core.state.Degraded?
    ensures var done := Rescue.AttemptOf(r, core, profile, Rescue.DaemonGate(Always()), runs, now);
            !done.end.Recovered? ==> !done.core.state.Running?
  {
    hide Rescue.StrategyTried;
    var tried := Rescue.StrategyTried(Rescue.PickStrategy(r.attempts), core.(state := State.Rescue), profile, Rescue.DaemonGate(Always()), runs);
    AlwaysAsksState(0, core.state);
    AlwaysAsksState(1, State.Rescue);
    AlwaysAsksState(tried.asks, tried.core.state);
  }

  lemma AlwaysAsksState(k: nat, state: State)
    ensures Rescue.DaemonGate(Always())(k, state) <==> state.Running? || state.Degraded? || state.Rescue?
  {
    var wanted := Always();
    assert wanted(k);
    assert Rescue.DaemonGate(wanted)(k, state) == (wanted(k) && (state.Running? || state.Degraded? || state.Rescue?));
  }

  /** `ends` tells how each attempt started since the last reset has ended. */
  datatype System = System(watch: Watch, core: Core, rescuer: Rescue.Rescuer, ends: seq<Rescue.End>)

  /** One cycle: what the checks say, and, should the signal be given, whether the operation is
      accepted and rescue enabled, what the attempt meets and when. */
  datatype Round = Round(passed: bool, accepted: bool, profile: NodeProfile, runs: Rescue.AttemptRuns, now: Moment,
                         rollback: Option<StopCoreRuns>)

  function Rescued(s: System, round: Round): System {
    var done := Rescue.AttemptOf(s.rescuer, s.core, round.profile, Rescue.DaemonGate(Always()), round.runs, round.now);
    var core := if !done.end.Recovered? && round.rollback.Some? then StoppedCore(done.core, round.rollback.value) else done.core;
    s.(core := core, rescuer := done.rescuer,
       ends := if Rescue.MayStart(s.rescuer, s.core, Rescue.DaemonGate(Always()), round.now) then s.ends + [done.end] else s.ends)
  }

  function Cycled(s: System, round: Round): System {
    var (w, signal) := Ticked(s.watch.(state := s.core.state), round.passed);
    var next := s.(watch := w, core := s.core.(state := w.state));
    match signal
    case Quiet => next
    case SignalRestored => next.(rescuer := Rescue.ResetOf(next.rescuer), ends := [])
    case SignalDegraded => if round.accepted then Rescued(next, round) else next
  }

  function Cycles(s: System, rounds: seq<Round>): System {
    if rounds == [] then s else Cycled(Cycles(s, rounds[..|rounds| - 1]), rounds[|rounds| - 1])
  }

  ghost predicate Climbs(s: System) {
    && |s.ends| == |s.rescuer.log|
    && (forall i :: 0 <= i < |s.ends| - 1 ==> s.ends[i].Recovered?)
    && (s.ends != [] && !s.ends[|s.ends| - 1].Recovered? ==> !s.core.state.Running?)
  }

  lemma RoundClimbs(s: System, round: Round)
    requires Climbs(s)
    ensures Climbs(Cycled(s, round))
  {
    hide Rescue.AttemptOf, Rescue.MayStart;
    var (w, signal) := Ticked(s.watch.(state := s.core.state), round.passed);
    var next := s.(watch := w, core := s.core.(state := w.state));
    if signal.SignalDegraded? && round.accepted {
      UnsuccessfulIsNotRunning(next.rescuer, next.core, round.profile, round.runs, round.now);
      Rescue.AttemptCounts(next.rescuer, next.core, round.profile, Rescue.DaemonGate(Always()), round.runs, round.now);
    }
  }

  /** With the monitor as the only trigger, a stronger strategy is tried only after every weaker one
      since the last pass had reported success: a failed strategy is never followed by the next. */
  lemma {:induction false} EscalationNeedsSuccess(core: Core, threshold: int, maxAttempts: int, cooldown: int, rounds: seq<Round>)
    ensures var s := Cycles(System(Watch(0, threshold, core.state), core, Rescue.NewRescuer(maxAttempts, cooldown), []), rounds);
            Climbs(s) && (forall i :: 0 <= i < |s.ends| - 1 ==> s.ends[i].Recovered?)
  {
    hide Cycled;
    if rounds != [] {
      var start := System(Watch(0, threshold, core.state), core, Rescue.NewRescuer(maxAttempts, cooldown), []);
      EscalationNeedsSuccess(core, threshold, maxAttempts, cooldown, rounds[..|rounds| - 1]);
      RoundClimbs(Cycles(start, rounds[..|rounds| - 1]), rounds[|rounds| - 1]);
    }
  }

  /** The state in which a round's rescue callback finds the system. */
  function Watched(s: System, round: Round): System {
    var w := Ticked(s.watch.(state := s.core.state), round.passed).0;
    s.(watch := w, core := s.core.(state := w.state))
  }

  /** How the attempt that a round sets off ends, if it sets one off. */
  function EndIn(s: System, round: Round): Option<Rescue.End> {
    if Ticked(s.watch.(state := s.core.state), round.passed).1.SignalDegraded? && round.accepted then
      var found := Watched(s, round);
      Some(Rescue.AttemptOf(found.rescuer, found.core, round.profile, Rescue.DaemonGate(Always()), round.runs, round.now).end)
    else
      None
  }

  lemma FailureStopsTheCore(s: System, round: Round)
    requires EndIn(s, round).Some? && !EndIn(s, round).value.Recovered?
    ensures !Cycled(s, round).core.state.Running?
  {
    hide Rescue.AttemptOf, Rescue.MayStart;
    var found := Watched(s, round);
    UnsuccessfulIsNotRunning(found.rescuer, found.core, round.profile, round.runs, round.now);
  }

  lemma {:induction false} NotRunningStays(s: System, rounds: seq<Round>)
    requires !s.core.state.Running? && forall i :: 0 <= i < |rounds| ==> !rounds[i].passed
    ensures var t := Cycles(s, rounds); t.core == s.core && t.rescuer == s.rescuer && t.ends == s.ends
  {
    hide Rescued;
    if rounds != [] { NotRunningStays(s, rounds[..|rounds| - 1]); }
  }

  /** After a round whose attempt did not report success, failed rounds alone set off nothing more:
      core, rescue manager and list of attempts stay as that round left them. */
  lemma FailedRescueIsTheLast(s: System, round: Round, rounds: seq<Round>)
    requires EndIn(s, round).Some? && !EndIn(s, round).value.Recovered?
    requires forall i :: 0 <= i < |rounds| ==> !rounds[i].passed
    ensures var left := Cycled(s, round); var t := Cycles(left, rounds);
            t.core == left.core && t.rescuer == left.rescuer && t.ends == left.ends
  {
    hide Cycled, EndIn;
    FailureStopsTheCore(s, round);
    NotRunningStays(Cycled(s, round), rounds);
  }
}
