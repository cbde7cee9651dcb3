/** What a rescue attempt, a tick of the monitor and the recovery gate come to, told from what they meet alone. */
module RescueOutcomes {
  import opened Basics
  import opened ProxyNode
  import opened NetstackRules
  import opened CoreLifecycle
  import opened CoreOutcomes
  import R = Rescue
  import H = HealthMonitor
  import G = RecoveryGate

  // Whether an attempt starts.

  /** An attempt does not start if the gate is closed, the last one is too recent, or the limit is
      reached, in this order; then nothing changes. */
  lemma NotStarted(r: R.Rescuer, core: Core, profile: NodeProfile, gate: R.Gate, runs: R.AttemptRuns, now: Moment)
    ensures var done := R.AttemptOf(r, core, profile, gate, runs, now);
            && (done.end.CancelledFirst? <==> !gate(0, core.state))
            && (done.end.CoolingDown? <==> gate(0, core.state) && r.lastAttempt != 0 && now - r.lastAttempt < r.cooldown)
            && (done.end.Exhausted? <==> gate(0, core.state) && (r.lastAttempt == 0 || now - r.lastAttempt >= r.cooldown) && r.attempts >= r.maxAttempts)
            && (done.end in [R.CancelledFirst, R.CoolingDown, R.Exhausted] ==> done.rescuer == r && done.core == core)
            && (done.end !in [R.CancelledFirst, R.CoolingDown, R.Exhausted] ==>
                  done.rescuer.attempts == r.attempts + 1 && done.rescuer.lastAttempt == now
                  && done.rescuer.maxAttempts == r.maxAttempts && done.rescuer.cooldown == r.cooldown)
  {
    hide R.StrategyTried, R.PickStrategy;
  }

  predicate Starts(r: R.Rescuer, core: Core, gate: R.Gate, now: Moment) {
    gate(0, core.state) && (r.lastAttempt == 0 || now - r.lastAttempt >= r.cooldown) && r.attempts < r.maxAttempts
  }

  /** A started attempt puts the core into the rescue state first, and does nothing more if the gate has closed by then. */
  lemma CancelledEarlyIff(r: R.Rescuer, core: Core, profile: NodeProfile, gate: R.Gate, runs: R.AttemptRuns, now: Moment)
    requires Starts(r, core, gate, now)
    ensures var done := R.AttemptOf(r, core, profile, gate, runs, now);
            && (done.end.CancelledEarly? <==> !gate(1, State.Rescue))
            && (done.end.CancelledEarly? ==> done.core == core.(state := State.Rescue))
  {
    hide R.StrategyTried, R.PickStrategy;
  }

  /** How an attempt ends that was tried: `ok` is whether the strategy worked, `tried` the core it left
      and `open` whether the gate is still open then. */
  ghost predicate Concluded(done: R.Attempted, ok: bool, tried: Core, open: bool) {
    && (done.end.Recovered? <==> ok && open)
    && (done.end.CancelledLate? <==> ok && !open)
    && (done.end.StrategyFailed? <==> !ok)
    && done.core == (if ok then if open then tried.(state := Running) else tried else if open then tried.(state := Degraded) else tried)
  }

  // The strategies in their order.

  /** The first attempt since the last reset swaps the core for a new one, unless the gate closes before. */
  lemma FirstRestartsCore(r: R.Rescuer, core: Core, profile: NodeProfile, gate: R.Gate, runs: R.AttemptRuns, now: Moment)
    requires Starts(r, core, gate, now) && gate(1, State.Rescue) && r.attempts == 0
    ensures var done, before := R.AttemptOf(r, core, profile, gate, runs, now), core.(state := State.Rescue);
            var swapped, ok := HotSwapped(before, profile, runs.swap), SwapError(Outcome(before, profile, runs.swap), runs.swap).None?;
            if gate(2, State.Rescue) then Concluded(done, ok, swapped, gate(3, swapped.state)) else Concluded(done, false, before, gate(3, State.Rescue))
  {
    hide HotSwapped, Outcome;
    SwappedHasNoError(core.(state := State.Rescue), profile, runs.swap);
  }

  lemma SwappedHasNoError(core: Core, profile: NodeProfile, runs: SwapRuns)
    ensures SwapError(Outcome(core, profile, runs), runs).None? <==> Outcome(core, profile, runs).Swapped?
  {
    hide SwapFailsAt;
  }

  /** The second takes the rules down and puts them up again, packet rules first, and leaves the core
      alone; the interception is left out if the packet rules fail or the gate closes between the two. */
  lemma SecondReappliesRules(r: R.Rescuer, core: Core, profile: NodeProfile, gate: R.Gate, runs: R.AttemptRuns, now: Moment)
    requires Starts(r, core, gate, now) && gate(1, State.Rescue) && r.attempts == 1
    ensures var done, before := R.AttemptOf(r, core, profile, gate, runs, now), core.(state := State.Rescue);
            var packets := before.(rules := Rules(core.rules.dns, runs.reapply.iptablesStart == Ran || LeavesRules(runs.reapply.iptablesStart)));
            var both := before.(rules := Rules(runs.reapply.dnsStart == Ran || LeavesRules(runs.reapply.dnsStart), packets.rules.iptables));
            if !gate(2, State.Rescue) then Concluded(done, false, before, gate(3, State.Rescue))
            else if runs.reapply.iptablesStart != Ran then Concluded(done, false, packets, gate(3, State.Rescue))
            else if !gate(3, State.Rescue) then Concluded(done, false, packets, gate(4, State.Rescue))
            else Concluded(done, runs.reapply.dnsStart == Ran, both, gate(4, State.Rescue))
  {
  }

  /** Every further one stops everything and starts again, unless the gate closes before or between. */
  lemma FurtherOnesRestartAll(r: R.Rescuer, core: Core, profile: NodeProfile, gate: R.Gate, runs: R.AttemptRuns, now: Moment)
    requires Starts(r, core, gate, now) && gate(1, State.Rescue) && r.attempts >= 2
    ensures var done, before := R.AttemptOf(r, core, profile, gate, runs, now), core.(state := State.Rescue);
            var down := StoppedCore(before, runs.stop);
            var up, ok := Started(down, profile, runs.start), StartRunsThrough(runs.start, RequiresXraySidecar(profile));
            if !gate(2, State.Rescue) then Concluded(done, false, before, gate(3, State.Rescue))
            else if !gate(3, down.state) then Concluded(done, false, down, gate(4, down.state))
            else Concluded(done, ok, up, gate(4, up.state))
  {
    hide StoppedCore, Started, StartFailsAt, StartRunsThrough, RequiresXraySidecar;
    StagesIff(runs.start, RequiresXraySidecar(profile));
  }

  /** The limit and the cooldown: bad values leave the limit at three, or as it was. */
  lemma LimitsMean(maxAttempts: int, cooldown: int, r: R.Rescuer)
    ensures R.NewRescuer(maxAttempts, cooldown) == R.Rescuer(0, if maxAttempts <= 0 then 3 else maxAttempts, 0, cooldown, [])
    ensures var after := R.Reconfigured(r, maxAttempts, cooldown);
            && after.maxAttempts == (if maxAttempts <= 0 then r.maxAttempts else maxAttempts)
            && after.cooldown == (if cooldown <= 0 then r.cooldown else cooldown)
            && after.attempts == r.attempts && after.lastAttempt == r.lastAttempt
    ensures R.ResetOf(r).attempts == 0 && R.ResetOf(r).lastAttempt == 0
            && R.ResetOf(r).maxAttempts == r.maxAttempts && R.ResetOf(r).cooldown == r.cooldown
  {
  }

  // The monitor.

  /** Resolution failures count only where they are declared hard; each of the four other checks always does. */
  lemma OverallIff(checks: H.Checks, dnsHard: bool)
    ensures H.Overall(checks, dnsHard) <==>
            false !in [checks.alive, checks.tproxyPort, checks.iptables, checks.routing]
            && (dnsHard ==> false !in [checks.dnsListener, checks.dns])
  {
    var hard, soft := [checks.alive, checks.tproxyPort, checks.iptables, checks.routing], [checks.dnsListener, checks.dns];
    assert hard[0] in hard && hard[1] in hard && hard[2] in hard && hard[3] in hard && soft[0] in soft && soft[1] in soft;
  }

  /** One tick: nothing while the core is neither running nor degraded; a pass clears the count and makes
      the core run; a failure is counted, and only a running core that reaches the threshold turns degraded. */
  lemma TickMeans(w: H.Watch, passed: bool)
    ensures var (after, signal) := H.Ticked(w, passed);
            && after.threshold == w.threshold
            && (w.state !in [Running, Degraded] ==> after == w && signal == H.Quiet)
            && (w.state in [Running, Degraded] && passed ==> after.failures == 0 && after.state == Running && signal == H.SignalRestored)
            && (w.state in [Running, Degraded] && !passed ==> after.failures == w.failures + 1)
            && (w.state == Degraded && !passed ==> after.state == Degraded && signal == H.Quiet)
            && (w.state == Running && !passed && w.failures + 1 >= w.threshold ==> after.state == Degraded && signal == H.SignalDegraded)
            && (w.state == Running && !passed && w.failures + 1 < w.threshold ==> after.state == Running && signal == H.Quiet)
  {
  }

  // The gate.

  /** The states in which a recovery may run. */
  lemma RecoverableStates(state: State)
    ensures G.Recoverable(state) <==> state in [Running, Degraded, State.Rescue]
  {
  }

  /** After the last start or stop, the runtime is wanted exactly if that was a start whose own failure
      has not been reported. */
  lemma {:induction false} WantedIff(intent: G.Intent, events: seq<G.Event>, n: nat)
    requires n < |events| && !events[n].StartFailed?
    requires forall i :: n < i < |events| ==> events[i].StartFailed?
    ensures var now := G.Run(intent, events);
            && now.epoch == (G.Run(intent, events[..n]).epoch + 1) % 0x1_0000_0000_0000_0000
            && (now.running <==> events[n].BeginStart? && G.StartFailed(now.epoch) !in events[n + 1..])
  {
    var m := |events| - 1;
    if n < m {
      WantedIff(intent, events[..m], n);
      assert events[..m][..n] == events[..n];
      assert events[n + 1..] == events[..m][n + 1..] + [events[m]];
    } else {
      assert events[n + 1..] == [];
    }
  }
}
