/** What each request is admitted for and what it ends with, in every run and whatever goes on beside it. */
module OperationEndings {
  import opened Basics
  import opened Orchestration
  import opened OrchestrationRuns

  // Admission.

  /** The backend that a request needs: the desired one to start, the applied one for a network change, and
      otherwise the applied one if there is one. */
  predicate BackendIsThere(s: Snapshot, request: Request) {
    var backend := if request.Start? || request.Restart? then s.desired.backend
                   else if request.NetworkChange? || s.applied.backend != "" then s.applied.backend
                   else s.desired.backend;
    (if backend == "" then ROOT_TPROXY else backend) in s.registered
  }

  /** When a request is admitted, turned away as busy, ignored or refused. */
  lemma AdmissionIff(s: Snapshot, request: Request, unsupported: Option<string>)
    ensures var admission, idle := Admit(s, request, unsupported), s.active.None?;
            (admission == Busy <==> !idle)
            && (admission == Ignored <==> idle && request == NetworkChange && s.applied.phase == Stopped)
            && (admission == Admitted <==>
                  idle && (request.Run?
                           || (BackendIsThere(s, request) && (request == NetworkChange ==> s.applied.phase != Stopped)
                               && (request == Start || request == Restart ==> unsupported.None?))))
            && (admission.Refused? && BackendIsThere(s, request) ==> unsupported == Some(admission.reason))
  {
  }

  /** What accepting a request does to the applied state, and what the others do. */
  lemma AcceptedShows(s: Snapshot, request: Request, unsupported: Option<string>, now: Moment)
    ensures var next, admission := Submitted(s, request, unsupported, now), Admit(s, request, unsupported);
            next.desired == s.desired && next.registered == s.registered && next.last == s.last
            && (admission == Busy || admission == Ignored ==> next == s)
            && (admission.Refused? ==> next.applied == s.applied && next.active.None? && next.health.lastError == admission.reason
                                       && next.health.checkedAt == now && !next.health.coreReady)
            && (admission == Admitted ==>
                  && next.health == s.health && next.active.Some? && next.active.value.startedAt == now
                  && next.active.value.phase == next.applied.phase && next.active.value.generation == next.applied.generation
                  && next.applied.phase ==
                       (match request
                        case Stop => Stopping
                        case Reset => Resetting
                        case Run(_, phase) => if phase == Unset then Applying else phase
                        case _ => Starting)
                  && next.active.value.kind ==
                       (match request
                        case Start => KindStart
                        case Stop => KindStop
                        case Restart => KindRestart
                        case Reset => KindReset
                        case NetworkChange => KindNetworkChange
                        case Run(kind, _) => kind)
                  && (request.Start? || request.Restart? || request.Reset? ==> next.applied.startedAt == 0)
                  && (request.Stop? || request.NetworkChange? || request.Run? ==> next.applied.startedAt == s.applied.startedAt)
                  && (request.Start? || request.Restart? ==> next.applied.profileId == s.desired.profileId && next.applied.backend == s.desired.backend)
                  && (!request.Start? && !request.Restart? ==> next.applied.profileId == s.applied.profileId)
                  && (request.NetworkChange? || request.Run? || ((request.Stop? || request.Reset?) && s.applied.backend != "") ==>
                        next.applied.backend == s.applied.backend)
                  && ((request.Stop? || request.Reset?) && s.applied.backend == "" ==> next.applied.backend == s.desired.backend))
  {
    hide BackendOf, BackendName, NextGeneration;
  }

  /** The desired state is replaced exactly when nothing is in flight and its backend, or the one from
      before, is there and supported; root TPROXY need not be. */
  lemma DesiredIff(s: Snapshot, desired: Desired, unsupported: Option<string>)
    ensures var backend := if desired.backend != "" then desired.backend else s.desired.backend;
            var fits := s.active.None? && (if backend == "" then ROOT_TPROXY else backend) in s.registered
                        && (unsupported.None? || backend == ROOT_TPROXY);
            WithDesired(s, desired, unsupported) == if fits then s.(desired := desired.(backend := backend)) else s
  {
  }

  // Health and phase.

  /** How a health is shown: unchecked as the fallback; operational as healthy; ready with an unknown
      code as degraded; not ready with an unknown code as the fallback; with a known code as its stage. */
  lemma HealthIsShownAs(health: Health, fallback: Phase)
    ensures var phase, ready := PhaseFromHealth(health, fallback), health.coreReady && health.routingReady;
            var works := ready && health.dnsReady && health.egressReady;
            (health.checkedAt == 0 ==> phase == fallback)
            && (health.checkedAt != 0 && works ==> phase == Healthy)
            && (health.checkedAt != 0 && !works && PhaseOfCode(health.lastCode).None? ==> phase == if ready then Degraded else fallback)
            && (health.checkedAt != 0 && !works && PhaseOfCode(health.lastCode).Some? ==> Some(phase) == PhaseOfCode(health.lastCode))
            && (phase == Healthy ==> fallback == Healthy || works)
  {
    KnownCodesAreNotHealthy(health.lastCode);
  }

  /** Which codes stand for which stage. */
  lemma CodesOfFailure(code: string)
    ensures PhaseOfCode(code) == Some(Failed) <==>
              code in {"CORE_PID_MISSING", "CORE_PID_LOOKUP_FAILED", "CORE_PROCESS_DEAD", "CORE_LOG_OPEN_FAILED", "CORE_SPAWN_FAILED"}
  {
  }

  lemma CodesOfStages(code: string)
    ensures PhaseOfCode(code) == Some(Starting) <==> code == "CONFIG_RENDER_FAILED"
    ensures PhaseOfCode(code) == Some(ConfigChecked) <==> code == "CONFIG_CHECK_FAILED"
    ensures PhaseOfCode(code) == Some(CoreSpawned) <==> code == "TPROXY_PORT_DOWN"
  {
  }

  lemma CodesOfNetworkStages(code: string)
    ensures PhaseOfCode(code) == Some(RulesApplied) <==> code == "DNS_APPLY_FAILED"
    ensures PhaseOfCode(code) == Some(DnsApplied) <==>
              code in {"DNS_LOOKUP_TIMEOUT", "DNS_EMPTY_RESPONSE", "DNS_LOOKUP_FAILED", "PROXY_DNS_UNAVAILABLE"}
    ensures PhaseOfCode(code) == Some(OutboundChecked) <==> code in {"OUTBOUND_URL_FAILED", "OPERATIONAL_DEGRADED"}
    ensures PhaseOfCode(code) == Some(CoreListening) <==>
              code in {"DNS_LISTENER_DOWN", "API_PORT_DOWN", "RULES_NOT_APPLIED", "NETSTACK_CLEANUP_FAILED", "NETSTACK_VERIFY_FAILED",
                       "ROUTING_CHECK_FAILED", "ROUTING_V4_MISSING", "ROUTING_V6_MISSING", "ROUTING_NOT_APPLIED"}
  {
  }

  /** A health refresh replaces the health, and the phase only at rest and unless stopped. */
  lemma RefreshShows(s: Snapshot, health: Health)
    ensures var next := RefreshWritten(s, health);
            next == s.(health := health, applied := s.applied.(phase := next.applied.phase))
            && (s.active.Some? || s.applied.phase == Stopped ==> next.applied.phase == s.applied.phase)
            && (s.active.None? && s.applied.phase != Stopped && health.checkedAt == 0 ==> next.applied.phase == s.applied.phase)
            && (s.active.None? && s.applied.phase != Stopped && health.checkedAt != 0 && health.Operational() ==> next.applied.phase == Healthy)
  {
  }

  /** Progress reaches the health only during an operation, and only what it brings. */
  lemma ProgressShows(s: Snapshot, health: Health)
    ensures var next, shown := ProgressWritten(s, health), ProgressWritten(s, health).health;
            var some := health.stageReport != "" || health.lastCode != "" || health.lastError != "" || health.checkedAt != 0;
            next == s.(health := shown)
            && (s.active.None? || !some ==> shown == s.health)
            && (s.active.Some? && some ==>
                  && (if health.stageReport != "" then shown.stageReport == health.stageReport else shown.stageReport == s.health.stageReport)
                  && (if health.lastCode != "" then shown.lastCode == health.lastCode else shown.lastCode == s.health.lastCode)
                  && (if health.lastError != "" then shown.lastError == health.lastError else shown.lastError == s.health.lastError)
                  && (if health.checkedAt != 0 then shown.checkedAt == health.checkedAt else shown.checkedAt == s.health.checkedAt)
                  && shown.rollbackApplied == (s.health.rollbackApplied || health.rollbackApplied)
                  && shown.coreReady == s.health.coreReady && shown.routingReady == s.health.routingReady
                  && shown.dnsReady == s.health.dnsReady && shown.egressReady == s.health.egressReady)
  {
  }

  // Endings.

  /** An operation that has been worked on waits for its finish, whatever else happens. */
  lemma WaitsForFinish(m: Machine, e: Event)
    requires m.flight.Some? && m.flight.value.completion.Some? && !e.Finish?
    ensures Next(m, e).flight == m.flight && Next(m, e).log == m.log
  {
    hide Submitted, WithDesired, DesiredAccepted, RefreshRead, RefreshWritten, ProgressWritten, Stepped;
  }

  lemma {:induction false} WaitsThrough(m: Machine, between: seq<Event>)
    requires m.flight.Some? && m.flight.value.completion.Some? && forall e :: e in between ==> !e.Finish?
    ensures OrchestrationRuns.Run(m, between).flight == m.flight && OrchestrationRuns.Run(m, between).log == m.log
  {
    hide Next;
    if between != [] {
      var n := |between| - 1;
      assert between[n] in between;
      WaitsThrough(m, between[..n]);
      WaitsForFinish(OrchestrationRuns.Run(m, between[..n]), between[n]);
    }
  }

  lemma {:induction false} RunJoins(m: Machine, a: seq<Event>, b: seq<Event>)
    ensures OrchestrationRuns.Run(m, a + b) == OrchestrationRuns.Run(OrchestrationRuns.Run(m, a), b)
  {
    hide Next;
    if b == [] {
      assert a + b == a;
    } else {
      assert (a + b)[..|a + b| - 1] == a + b[..|b| - 1];
      RunJoins(m, a, b[..|b| - 1]);
    }
  }

  /** The end of an operation: its work is done with outcome `o`, other things happen, and it is finished. */
  function Ended(m: Machine, o: Outcome, between: seq<Event>, now: Moment): Machine {
    OrchestrationRuns.Run(m, [Execute(o)] + between + [Finish(now)])
  }

  lemma EndedBy(m: Machine, o: Outcome, between: seq<Event>, now: Moment)
    requires m.flight.Some? && m.flight.value.completion.None? && forall e :: e in between ==> !e.Finish?
    ensures var f, n := m.flight.value, Ended(m, o, between, now);
            var c := Done(f.work, f.op, o, m.s.health, m.s.desired);
            var at := OrchestrationRuns.Run(Next(m, Execute(o)), between);
            n.flight.None? && n.s == Finished(at.s, f.op, c, now) && n.log == m.log + [ResultOf(f.op, c, now)]
  {
    hide Done, Finished;
    var first := Next(m, Execute(o));
    assert [Execute(o)][..0] == [];
    assert OrchestrationRuns.Run(m, [Execute(o)]) == first;
    WaitsThrough(first, between);
    RunJoins(m, [Execute(o)], between);
    assert ([Execute(o)] + between + [Finish(now)])[..1 + |between|] == [Execute(o)] + between;
  }

  /** Whatever it is, a finished operation is no longer active, its result is the last one, with its own
      identity and times, and it succeeded exactly if its work did. */
  lemma EveryEnding(desired: Desired, registered: set<string>, before: seq<Event>, o: Outcome, between: seq<Event>, now: Moment)
    requires forall e :: e in between ==> !e.Finish?
    ensures var m := OrchestrationRuns.Run(Begin(desired, registered), before);
            m.flight.Some? && m.flight.value.completion.None? ==>
              var op, n := m.flight.value.op, Ended(m, o, between, now);
              var bad := if m.flight.value.work.request.Reset? then ResetIsBad(o.cleanup) else o.failure.Some?;
              n.flight.None? && n.s.last.Some? && |n.log| == |m.log| + 1 && n.s.last.value == n.log[|m.log|]
              && var result := n.s.last.value;
                 result.id == op.id && result.kind == op.kind && result.generation == op.generation && result.phase == op.phase
                 && result.startedAt == op.startedAt && result.finishedAt == now && (result.succeeded <==> !bad)
                 && n.s.applied.generation == op.generation
  {
    hide OrchestrationRuns.Run, PhaseFromHealth, HealthOf, FirstError, Begin;
    var m := OrchestrationRuns.Run(Begin(desired, registered), before);
    if m.flight.Some? && m.flight.value.completion.None? {
      EndedBy(m, o, between, now);
      DoneNeverUnset(m, desired, registered, before, o);
    }
  }

  predicate ResetIsBad(report: ResetReport) {
    report.errors != [] || report.status == "partial" || report.status == "failed"
  }

  lemma DoneNeverUnset(m: Machine, desired: Desired, registered: set<string>, before: seq<Event>, o: Outcome)
    requires m == OrchestrationRuns.Run(Begin(desired, registered), before) && m.flight.Some? && m.flight.value.completion.None?
    ensures var f := m.flight.value;
            Done(f.work, f.op, o, m.s.health, m.s.desired).applied.phase != Unset
            && f.work.desired == m.s.desired && f.op.generation == NextGeneration(f.work.applied.generation)
  {
    hide OrchestrationRuns.Run, Done, Begin, Sequential, Operations, LogSound, GenerationAfter, NextGeneration, Obeyed;
    RunIsSound(desired, registered, before);
    var f := m.flight.value;
    GenerationStep(|m.log|);
    WorkIsSound(f.work, f.op, o, m.s.health);
  }

  /** A machine with an operation in flight that has not been worked on yet, somewhere in a run. */
  ghost predicate InFlight(m: Machine, desired: Desired, registered: set<string>, before: seq<Event>) {
    m == OrchestrationRuns.Run(Begin(desired, registered), before) && m.flight.Some? && m.flight.value.completion.None?
  }

  /** A start or restart without error was started when it was accepted, and shows the health that was
      then read; with an error it is not started and never healthy. */
  lemma StartsEnd(m: Machine, desired: Desired, registered: set<string>, before: seq<Event>, o: Outcome, between: seq<Event>, now: Moment)
    requires InFlight(m, desired, registered, before) && forall e :: e in between ==> !e.Finish?
    requires m.flight.value.work.request.Start? || m.flight.value.work.request.Restart?
    ensures var s := Ended(m, o, between, now).s;
            match o.failure
            case None =>
              && s.applied.startedAt == m.flight.value.op.startedAt
              && (o.refreshed.checkedAt != 0 ==> s.health == o.refreshed)
              && (o.refreshed.checkedAt == 0 || o.refreshed.Operational() ==> s.applied.phase == Healthy)
              && (s.applied.phase == Healthy ==>
                    o.refreshed.checkedAt == 0 || o.refreshed.Operational() || (PhaseOfCode(o.refreshed.lastCode).None? && !o.refreshed.Ready()))
            case Some(failure) =>
              && s.applied.startedAt == 0 && s.applied.phase != Healthy && s.applied.phase != Stopped
              && s.health.lastError == failure.message && s.health.lastCode == failure.code && s.health.checkedAt == o.now
              && !s.health.coreReady && s.last.Some? && s.last.value.errorMessage == failure.message
              && (PhaseOfCode(failure.code).None? ==> s.applied.phase == Failed)
  {
    hide OrchestrationRuns.Run, PhaseFromHealth, PhaseOfCode;
    EndedBy(m, o, between, now);
    DoneNeverUnset(m, desired, registered, before, o);
    HealthIsShownAs(o.refreshed, Healthy);
    HealthyPhaseIff(o.refreshed);
    if o.failure.Some? {
      HealthIsShownAs(HealthOf(o.failure.value, o.now), Failed);
      KnownCodesAreNotHealthy(o.failure.value.code);
    }
  }

  /** A stop without error is stopped, with nothing ready; with an error it is stopped too if it was
      before or its cleanup went well, and failed otherwise. */
  lemma StopsEnd(m: Machine, desired: Desired, registered: set<string>, before: seq<Event>, o: Outcome, between: seq<Event>, now: Moment)
    requires InFlight(m, desired, registered, before) && forall e :: e in between ==> !e.Finish?
    requires m.flight.value.work.request.Stop?
    ensures var s, prior := Ended(m, o, between, now).s, m.flight.value.work.applied;
            s.last.Some? && s.health.checkedAt == o.now && !s.health.coreReady && !s.health.routingReady && s.health.lastCode == ""
            && s.health.lastError == (if o.failure.Some? then o.failure.value.message else "")
            && (s.last.value.reset == if o.failure.Some? && prior.phase != Stopped then Some(o.cleanup) else None)
            && if o.failure.Some? && prior.phase != Stopped && o.cleanup.status != "ok"
               then s.applied.phase == Failed && s.applied.startedAt == prior.startedAt
               else s.applied.phase == Stopped && s.applied.startedAt == 0
  {
    hide OrchestrationRuns.Run;
    EndedBy(m, o, between, now);
    DoneNeverUnset(m, desired, registered, before, o);
  }

  /** A reset is stopped whatever it reports, and passes its report on. */
  lemma ResetsEnd(m: Machine, desired: Desired, registered: set<string>, before: seq<Event>, o: Outcome, between: seq<Event>, now: Moment)
    requires InFlight(m, desired, registered, before) && forall e :: e in between ==> !e.Finish?
    requires m.flight.value.work.request.Reset?
    ensures var s := Ended(m, o, between, now).s;
            s.applied.phase == Stopped && s.applied.startedAt == 0 && s.health.checkedAt == o.now && !s.health.coreReady
            && (s.health.lastError == "" <==> !ResetIsBad(o.cleanup)) && s.last.Some? && s.last.value.reset == Some(o.cleanup)
  {
    hide OrchestrationRuns.Run, FirstError;
    EndedBy(m, o, between, now);
    DoneNeverUnset(m, desired, registered, before, o);
  }

  /** A network change keeps when the runtime was started; with an error it is degraded, and otherwise
      it shows the current health, or the refreshed one if there is no current one. */
  lemma NetworkChangesEnd(m: Machine, desired: Desired, registered: set<string>, before: seq<Event>, o: Outcome, between: seq<Event>, now: Moment)
    requires InFlight(m, desired, registered, before) && forall e :: e in between ==> !e.Finish?
    requires m.flight.value.work.request.NetworkChange?
    ensures var s, health := Ended(m, o, between, now).s, if o.current.checkedAt == 0 then o.refreshed else o.current;
            s.applied.startedAt == m.flight.value.work.applied.startedAt
            && (o.failure.Some? ==> s.applied.phase == Degraded && s.health.checkedAt != 0 && s.last.Some?
                                    && s.last.value.errorMessage == o.failure.value.message
                                    && s.health.lastError == if health.lastError != "" then health.lastError else o.failure.value.message)
            && (o.failure.None? ==>
                  && (health.checkedAt == 0 || health.Operational() ==> s.applied.phase == Healthy)
                  && (health.checkedAt != 0 ==> s.health == health)
                  && (s.applied.phase == Healthy ==>
                        health.checkedAt == 0 || health.Operational() || (PhaseOfCode(health.lastCode).None? && !health.Ready())))
  {
    hide OrchestrationRuns.Run, PhaseFromHealth, PhaseOfCode;
    EndedBy(m, o, between, now);
    DoneNeverUnset(m, desired, registered, before, o);
    HealthIsShownAs(if o.current.checkedAt == 0 then o.refreshed else o.current, Healthy);
    HealthyPhaseIff(if o.current.checkedAt == 0 then o.refreshed else o.current);
  }

  /** Any other operation: with an error it is never healthy and keeps when the runtime was started; an
      installed update is stopped; what applies the desired state starts anew; and the rest shows a health
      that was read since it was accepted, or what was there before. */
  lemma OthersEnd(m: Machine, desired: Desired, registered: set<string>, before: seq<Event>, o: Outcome, between: seq<Event>, now: Moment)
    requires InFlight(m, desired, registered, before) && forall e :: e in between ==> !e.Finish?
    requires m.flight.value.work.request.Run?
    ensures var s, prior, kind := Ended(m, o, between, now).s, m.flight.value.work.applied, m.flight.value.work.request.kind;
            var applies := kind in {KindConfigMutation, KindProfileApply, KindApplyDesired, KindReload};
            (o.failure.Some? ==>
               && s.applied.phase != Healthy && s.applied.startedAt == prior.startedAt && s.health.lastError == o.failure.value.message
               && s.health.lastCode == o.failure.value.code && s.last.Some? && s.last.value.errorMessage == o.failure.value.message)
            && (o.failure.None? && kind == KindUpdateInstall ==> s.applied.phase == Stopped && s.applied.startedAt == prior.startedAt)
            && (o.failure.None? && applies ==>
                  && s.applied.startedAt == m.flight.value.op.startedAt
                  && (m.s.health.checkedAt == 0 || m.s.health.Operational() ==> s.applied.phase == Healthy))
            && (o.failure.None? && kind != KindUpdateInstall && !applies ==>
                  && s.applied.startedAt == prior.startedAt
                  && (m.s.health.checkedAt == 0 || m.s.health.checkedAt < m.flight.value.op.startedAt ==> s.applied.phase == prior.phase)
                  && (m.s.health.checkedAt != 0 && m.s.health.checkedAt >= m.flight.value.op.startedAt && m.s.health.Operational() ==>
                        s.applied.phase == Healthy))
            && (o.failure.None? ==> s.health == OrchestrationRuns.Run(Next(m, Execute(o)), between).s.health)
  {
    hide OrchestrationRuns.Run, PhaseFromHealth, PhaseOfCode;
    EndedBy(m, o, between, now);
    DoneNeverUnset(m, desired, registered, before, o);
    HealthIsShownAs(m.s.health, Healthy);
    if o.failure.Some? {
      HealthIsShownAs(HealthOf(o.failure.value, o.now), Failed);
      KnownCodesAreNotHealthy(o.failure.value.code);
    }
  }

  /** A panic ends any operation as failed, on the state as it then is. */
  lemma PanicsEnd(m: Machine, desired: Desired, registered: set<string>, before: seq<Event>, message: string, now: Moment)
    requires InFlight(m, desired, registered, before)
    ensures var n := Next(m, Panic(message, now));
            n.flight.None? && n.s.applied.phase == Failed && n.s.applied.startedAt == m.s.applied.startedAt
            && n.s.applied.profileId == m.s.applied.profileId && n.s.health.lastCode == "PANIC" && n.s.health.lastError == message
            && n.s.health.checkedAt == now && !n.s.health.coreReady && n.s.last.Some? && !n.s.last.value.succeeded
            && n.s.last.value.errorCode == "PANIC" && n.s.last.value.errorMessage == message && n.s.active.None?
  {
    hide OrchestrationRuns.Run, Sequential, Operations, LogSound, GenerationAfter, NextGeneration, Begin;
    RunIsSound(desired, registered, before);
  }

  /** At rest after a failure, the shown code and message are the health's, or the last result's where
      the health has none; and ready and operational are the health's. */
  lemma RestShows(s: Snapshot)
    ensures var shown := CanonicalStatus(s);
            shown.ready == (s.health.coreReady && s.health.routingReady)
            && shown.operational == (s.health.coreReady && s.health.routingReady && s.health.dnsReady && s.health.egressReady)
            && (s.active.None? && s.last.Some? && !s.last.value.succeeded ==>
                  && (shown.lastError == if s.health.lastError != "" then s.health.lastError else s.last.value.errorMessage)
                  && (shown.lastCode == if s.health.lastCode != "" then s.health.lastCode else s.last.value.errorCode))
            && (s.active.None? && (s.last.None? || s.last.value.succeeded) ==>
                  shown.lastError == s.health.lastError && shown.lastCode == s.health.lastCode)
            && (s.active.Some? ==>
                  && (shown.lastError == if s.active.value.step.detail != "" then s.active.value.step.detail else s.health.lastError)
                  && (shown.lastCode == if s.active.value.step.code != "" then s.active.value.step.code else s.health.lastCode))
  {
  }

  /** What the result of an operation tells: its own kind, generation, phase and times, and of an error
      its message and its code, or the code that the health carries when the error has none. */
  lemma ResultSays(op: Operation, completion: Completion, now: Moment)
    ensures var r := ResultOf(op, completion, now);
            && r.id == op.id && r.kind == op.kind && r.generation == op.generation && r.phase == op.phase
            && r.startedAt == op.startedAt && r.finishedAt == now && r.reset == completion.reset
            && match completion.failure
               case None => r.succeeded && r.errorCode == "" && r.errorMessage == ""
               case Some(failure) =>
                 !r.succeeded && r.errorMessage == failure.message
                 && r.errorCode == if failure.code == "" then completion.health.lastCode else failure.code
  {
  }

  /** The stored generation of the desired state is that of the operation in flight, or else the
      greater of the last result's and the applied one. */
  lemma StoredSays(s: Snapshot)
    ensures match s.active
            case Some(op) => StoredDesiredGeneration(s) == op.generation
            case None =>
              && StoredDesiredGeneration(s) >= s.applied.generation && (s.last.Some? ==> StoredDesiredGeneration(s) >= s.last.value.generation)
              && (StoredDesiredGeneration(s) == s.applied.generation || (s.last.Some? && StoredDesiredGeneration(s) == s.last.value.generation))
  {
  }

  /** The backend and the profile that are applied in the end: a start applies the desired ones, a reset
      the desired profile, an operation that applies the desired state the profile desired by then, and
      everything else leaves the profile alone. */
  lemma RuntimeInTheEnd(m: Machine, desired: Desired, registered: set<string>, before: seq<Event>, o: Outcome, between: seq<Event>, now: Moment)
    requires InFlight(m, desired, registered, before) && forall e :: e in between ==> !e.Finish?
    ensures var s, work := Ended(m, o, between, now).s, m.flight.value.work;
            var applies := work.request.Run? && work.request.kind in {KindConfigMutation, KindProfileApply, KindApplyDesired, KindReload};
            && (work.request.Start? || work.request.Restart? ==> s.applied.backend == work.desired.backend && s.applied.profileId == work.desired.profileId)
            && (work.request.Reset? ==> s.applied.profileId == work.desired.profileId)
            && (work.request.Stop? || work.request.NetworkChange? ==> s.applied.profileId == work.applied.profileId)
            && (work.request.NetworkChange? || (work.request.Stop? && work.applied.backend != "") ==> s.applied.backend == work.applied.backend)
            && (applies && o.failure.None? ==> s.applied.profileId == m.s.desired.profileId)
            && (work.request.Run? && (!applies || o.failure.Some?) ==>
                  s.applied.profileId == work.applied.profileId && s.applied.backend == work.applied.backend)
  {
    hide OrchestrationRuns.Run, PhaseFromHealth, HealthOf, FirstError;
    EndedBy(m, o, between, now);
    DoneNeverUnset(m, desired, registered, before, o);
  }

  /** Which reset report a result carries: a failed start prefers the error's own, a network change the one it was given. */
  lemma ReportsInTheEnd(m: Machine, desired: Desired, registered: set<string>, before: seq<Event>, o: Outcome, between: seq<Event>, now: Moment)
    requires InFlight(m, desired, registered, before) && forall e :: e in between ==> !e.Finish?
    ensures var last, request := Ended(m, o, between, now).s.last, m.flight.value.work.request;
            last.Some?
            && (request.Start? || request.Restart? ==>
                  last.value.reset == if o.failure.Some? && o.failure.value.reset.Some? then o.failure.value.reset else o.report)
            && (request.NetworkChange? ==>
                  last.value.reset == if o.failure.Some? && o.report.None? then o.failure.value.reset else o.report)
            && (request.Run? ==> last.value.reset == if o.failure.Some? then o.failure.value.reset else None)
  {
    hide OrchestrationRuns.Run, PhaseFromHealth, HealthOf, FirstError;
    EndedBy(m, o, between, now);
    DoneNeverUnset(m, desired, registered, before, o);
  }

  lemma {:induction false} FirstErrorMeans(errors: seq<string>, k: nat)
    requires k <= |errors| && (forall i :: 0 <= i < k ==> errors[i] == "") && (k < |errors| ==> errors[k] != "")
    ensures FirstError(errors) == if k < |errors| then errors[k] else ""
  {
    if k > 0 { FirstErrorMeans(errors[1..], k - 1); }
  }

  /** A reset that went wrong reports the first of its errors that says something. */
  lemma ResetSays(m: Machine, desired: Desired, registered: set<string>, before: seq<Event>, o: Outcome, between: seq<Event>, now: Moment, k: nat)
    requires InFlight(m, desired, registered, before) && forall e :: e in between ==> !e.Finish?
    requires m.flight.value.work.request.Reset? && ResetIsBad(o.cleanup)
    requires k <= |o.cleanup.errors| && (forall i :: 0 <= i < k ==> o.cleanup.errors[i] == "")
    requires k < |o.cleanup.errors| ==> o.cleanup.errors[k] != ""
    ensures var s, message := Ended(m, o, between, now).s, if k < |o.cleanup.errors| then o.cleanup.errors[k] else "reset failed";
            s.last.Some? && s.last.value.errorMessage == message && s.health.lastError == message
  {
    hide OrchestrationRuns.Run, FirstError;
    EndedBy(m, o, between, now);
    DoneNeverUnset(m, desired, registered, before, o);
    FirstErrorMeans(o.cleanup.errors, k);
  }
}
