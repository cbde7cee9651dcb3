/** Every interleaving of the orchestrator's critical sections, and the sequential run it amounts to. */
module OrchestrationRuns {
  import opened Basics
  import opened Orchestration

  /** An operation under way: its goroutine's captured work and, once that has ended, its completion. */
  datatype Flight = Flight(op: Operation, work: Work, completion: Option<Completion>)

  datatype Ending = EndedOk | EndedWithError | EndedByPanic

  datatype Command = SetTo(desired: Desired) | Ran(request: Request, ending: Ending)

  /** `commands` and `log` are history: what was accepted, in order, and the results as they were finished. */
  datatype Machine = Machine(s: Snapshot, flight: Option<Flight>, refreshing: bool, commands: seq<Command>, log: seq<Result>)

  datatype Event =
    | SetDesired(desired: Desired, unsupported: Option<string>)
    | Submit(request: Request, unsupported: Option<string>, now: Moment)
    | SetStep(generation: int, step: Progress)
    | BeginRefresh(now: Moment)
    | EndRefresh(health: Health)
    | BeginProgress(now: Moment)
    | MergeProgress(health: Health)
    | Execute(outcome: Outcome)
    | Finish(now: Moment)
    | Panic(message: string, now: Moment)

  function Landed(m: Machine, ending: Ending, completion: Completion, now: Moment): Machine
    requires m.flight.Some?
  {
    var f := m.flight.value;
    m.(s := Finished(m.s, f.op, completion, now), flight := None,
       commands := m.commands + [Ran(f.work.request, ending)], log := m.log + [ResultOf(f.op, completion, now)])
  }

  function EndingOf(completion: Completion): Ending {
    if completion.failure.Some? then EndedWithError else EndedOk
  }

  /** One critical section; an event that cannot happen in `m` changes nothing. */
  function Next(m: Machine, e: Event): Machine {
    match e
    case SetDesired(desired, unsupported) =>
      if DesiredAccepted(m.s, desired, unsupported)
      then m.(s := WithDesired(m.s, desired, unsupported), commands := m.commands + [SetTo(desired)])
      else m
    case Submit(request, unsupported, now) =>
      var s := Submitted(m.s, request, unsupported, now);
      if m.flight.None? && Admit(m.s, request, unsupported).Admitted?
      then m.(s := s, flight := Some(Flight(s.active.value, Work(request, m.s.desired, m.s.applied), None)))
      else m.(s := s)
    case SetStep(generation, step) => m.(s := Stepped(m.s, generation, step))
    case BeginRefresh(now) =>
      if m.refreshing then m
      else m.(s := RefreshRead(m.s, now), refreshing := BackendName(FirstOf(m.s.applied.backend, m.s.desired.backend)) in m.s.registered)
    case EndRefresh(health) => if m.refreshing then m.(s := RefreshWritten(m.s, health), refreshing := false) else m
    case BeginProgress(now) => if m.s.active.Some? then m.(s := RefreshRead(m.s, now)) else m
    case MergeProgress(health) => m.(s := ProgressWritten(m.s, health))
    case Execute(outcome) =>
      if m.flight.Some? && m.flight.value.completion.None? then
        var f := m.flight.value;
        m.(flight := Some(f.(completion := Some(Done(f.work, f.op, outcome, m.s.health, m.s.desired)))))
      else m
    case Finish(now) =>
      if m.flight.Some? && m.flight.value.completion.Some?
      then Landed(m, EndingOf(m.flight.value.completion.value), m.flight.value.completion.value, now)
      else m
    case Panic(message, now) =>
      if m.flight.Some? && m.flight.value.completion.None?
      then Landed(m, EndedByPanic, PanicDone(m.s, m.flight.value.op, message, now), now)
      else m
  }

  function Begin(desired: Desired, registered: set<string>): Machine {
    Machine(Initial(desired, registered), None, false, [], [])
  }

  function Run(m: Machine, events: seq<Event>): Machine {
    if events == [] then m else Next(Run(m, events[..|events| - 1]), events[|events| - 1])
  }

  // The sequential runtime: no operations in flight, no refreshes, no clocks.

  datatype View = View(desired: Desired, backend: string, profileId: string, generation: int)

  function ViewOf(desired: Desired, applied: AppliedState): View {
    View(desired, applied.backend, applied.profileId, applied.generation)
  }

  function Obeyed(v: View, command: Command): View {
    match command
    case SetTo(desired) => v.(desired := desired.(backend := FirstOf(desired.backend, v.desired.backend)))
    case Ran(request, ending) =>
      var done := v.(generation := NextGeneration(v.generation));
      match request
      case Start | Restart => done.(backend := v.desired.backend, profileId := v.desired.profileId)
      case Stop | NetworkChange => done
      case Reset => if ending.EndedByPanic? then done else done.(profileId := v.desired.profileId)
      case Run(kind, _) =>
        if ending.EndedOk? && AppliesDesired(kind) then done.(backend := v.desired.backend, profileId := v.desired.profileId) else done
  }

  function Sequential(v: View, commands: seq<Command>): View {
    if commands == [] then v else Obeyed(Sequential(v, commands[..|commands| - 1]), commands[|commands| - 1])
  }

  function Operations(commands: seq<Command>): nat {
    if commands == [] then 0
    else Operations(commands[..|commands| - 1]) + (if commands[|commands| - 1].Ran? then 1 else 0)
  }

  /** The generation after n operations. */
  function GenerationAfter(n: nat): int {
    if n == 0 then 0 else 1 + (n - 1) % MAX_INT64
  }

  lemma GenerationStep(n: nat)
    ensures NextGeneration(GenerationAfter(n)) == GenerationAfter(n + 1)
    ensures GenerationAfter(n + 1) >= 1
  {
    if n > 0 { ModStep(n - 1, MAX_INT64); }
  }

  lemma ModStep(k: nat, m: int)
    requires m > 1
    ensures (k + 1) % m == if k % m == m - 1 then 0 else k % m + 1
  {
    var q, r := k / m, k % m;
    assert k == q * m + r;
    if r == m - 1 {
      assert k + 1 == (q + 1) * m;
      ModUnique(k + 1, q + 1, 0, m);
    } else {
      ModUnique(k + 1, q, r + 1, m);
    }
  }

  lemma ModUnique(k: nat, q: int, r: nat, m: int)
    requires m > 1 && k == q * m + r && r < m
    ensures k % m == r
  {
    var d := q - k / m;
    assert d * m == k % m - r;
    assert -m < d * m < m;
    MultipleIsFar(d, m);
  }

  lemma MultipleIsFar(d: int, m: int)
    requires m > 1
    ensures d > 0 ==> d * m >= m
    ensures d < 0 ==> d * m <= -m
  {
  }

  // The invariant.

  ghost predicate LogSound(log: seq<Result>) {
    forall i :: 0 <= i < |log| ==> log[i].generation == GenerationAfter(i + 1)
  }

  ghost predicate FlightSound(m: Machine, f: Flight, start: View) {
    var s, op, work := m.s, f.op, f.work;
    && s.active.Some? && s.active.value == op.(step := s.active.value.step)
    && op.generation == GenerationAfter(|m.log| + 1)
    && s.applied.generation == op.generation && s.applied.phase == op.phase
    && s.applied.backend == (if work.request.Start? || work.request.Restart? then s.desired.backend else work.applied.backend)
    && s.applied.profileId == (if work.request.Start? || work.request.Restart? then s.desired.profileId else work.applied.profileId)
    && work.desired == s.desired && work.applied.backend != "" && AtRest(work.applied.phase)
    && work.applied.generation == GenerationAfter(|m.log|)
    && ViewOf(s.desired, work.applied) == Sequential(start, m.commands)
    && (f.completion.Some? ==> CompletionSound(s, f, f.completion.value))
  }

  ghost predicate CompletionSound(s: Snapshot, f: Flight, c: Completion) {
    && AtRest(c.applied.phase)
    && ViewOf(s.desired, c.applied) == Obeyed(ViewOf(s.desired, f.work.applied), Ran(f.work.request, EndingOf(c)))
  }

  ghost predicate Sound(m: Machine, start: View) {
    && m.s.desired.backend != "" && m.s.applied.backend != ""
    && Operations(m.commands) == |m.log|
    && LogSound(m.log)
    && m.s.last == (if m.log == [] then None else Some(m.log[|m.log| - 1]))
    && match m.flight
       case None =>
         && m.s.active.None? && AtRest(m.s.applied.phase)
         && m.s.applied.generation == GenerationAfter(|m.log|)
         && ViewOf(m.s.desired, m.s.applied) == Sequential(start, m.commands)
       case Some(f) => FlightSound(m, f, start)
  }

  lemma CommandStep(start: View, commands: seq<Command>, c: Command)
    ensures Sequential(start, commands + [c]) == Obeyed(Sequential(start, commands), c)
    ensures Operations(commands + [c]) == Operations(commands) + (if c.Ran? then 1 else 0)
  {
    assert (commands + [c])[..|commands|] == commands;
  }

  lemma SetDesiredKeeps(m: Machine, e: Event, start: View)
    requires Sound(m, start) && e.SetDesired?
    ensures Sound(Next(m, e), start)
  {
    hide Sequential, Operations, LogSound;
    CommandStep(start, m.commands, SetTo(e.desired));
  }

  lemma SubmitKeeps(m: Machine, e: Event, start: View)
    requires Sound(m, start) && e.Submit?
    ensures Sound(Next(m, e), start)
  {
    hide Sequential, Operations, LogSound, GenerationAfter, NextGeneration, Admit, KindOf, ErrorHealth;
    GenerationStep(|m.log|);
    AdmittedFacts(m.s, e.request, e.unsupported);
  }

  lemma AdmittedFacts(s: Snapshot, request: Request, unsupported: Option<string>)
    ensures Admit(s, request, unsupported).Admitted? ==> s.active.None?
  {
  }

  lemma ReadingKeeps(m: Machine, e: Event, start: View)
    requires Sound(m, start) && (e.SetStep? || e.BeginRefresh? || e.EndRefresh? || e.BeginProgress? || e.MergeProgress?)
    ensures Sound(Next(m, e), start)
  {
    hide Sequential, Operations, LogSound, GenerationAfter, PhaseFromHealth, AtRest, HasProgress, MergedProgress;
    if e.EndRefresh? && AtRest(m.s.applied.phase) { PhaseFromHealthRests(e.health, m.s.applied.phase); }
  }

  lemma WorkIsSound(work: Work, op: Operation, o: Outcome, health: Health)
    requires AtRest(work.applied.phase) && work.applied.backend != "" && work.desired.backend != ""
    requires op.generation == NextGeneration(work.applied.generation)
    ensures var c := Done(work, op, o, health, work.desired);
            AtRest(c.applied.phase)
            && ViewOf(work.desired, c.applied) == Obeyed(ViewOf(work.desired, work.applied), Ran(work.request, EndingOf(c)))
  {
    hide PhaseFromHealth, NextGeneration, HealthOf, FirstError, HasProgress;
    RestingPhases();
    PhaseFromHealthRests(o.refreshed, Healthy);
    PhaseFromHealthRests(o.current, Healthy);
    PhaseFromHealthRests(health, Healthy);
    if o.failure.Some? { PhaseFromHealthRests(HealthOf(o.failure.value, o.now), Failed); }
  }

  lemma RestingPhases()
    ensures AtRest(Healthy) && AtRest(Failed) && AtRest(Stopped) && AtRest(Degraded)
  {
  }

  lemma ExecuteKeeps(m: Machine, e: Event, start: View)
    requires Sound(m, start) && e.Execute?
    ensures Sound(Next(m, e), start)
  {
    hide Sequential, Operations, LogSound, GenerationAfter, NextGeneration, Done, AtRest, Obeyed;
    if m.flight.Some? && m.flight.value.completion.None? {
      var f := m.flight.value;
      GenerationStep(|m.log|);
      WorkIsSound(f.work, f.op, e.outcome, m.s.health);
    }
  }

  lemma LogStep(log: seq<Result>, r: Result)
    requires LogSound(log) && r.generation == GenerationAfter(|log| + 1)
    ensures LogSound(log + [r])
  {
    hide GenerationAfter;
  }

  lemma FinishKeeps(m: Machine, e: Event, start: View)
    requires Sound(m, start) && (e.Finish? || e.Panic?)
    ensures Sound(Next(m, e), start)
  {
    hide Sequential, Operations, LogSound, GenerationAfter, NextGeneration, Done, HealthAfter;
    if m.flight.Some? && Next(m, e) != m {
      var f := m.flight.value;
      var completion := if e.Panic? then PanicDone(m.s, f.op, e.message, e.now) else f.completion.value;
      var ending := if e.Panic? then EndedByPanic else EndingOf(completion);
      GenerationStep(|m.log|);
      LogStep(m.log, ResultOf(f.op, completion, e.now));
      CommandStep(start, m.commands, Ran(f.work.request, ending));
    }
  }

  lemma NextKeeps(m: Machine, e: Event, start: View)
    requires Sound(m, start)
    ensures Sound(Next(m, e), start)
  {
    hide Sound, Next;
    if e.SetDesired? {
      SetDesiredKeeps(m, e, start);
    } else if e.Submit? {
      SubmitKeeps(m, e, start);
    } else if e.Execute? {
      ExecuteKeeps(m, e, start);
    } else if e.Finish? || e.Panic? {
      FinishKeeps(m, e, start);
    } else {
      ReadingKeeps(m, e, start);
    }
  }

  function StartView(desired: Desired, registered: set<string>): View {
    ViewOf(Initial(desired, registered).desired, Initial(desired, registered).applied)
  }

  lemma {:induction false} RunIsSound(desired: Desired, registered: set<string>, events: seq<Event>)
    ensures Sound(Run(Begin(desired, registered), events), StartView(desired, registered))
  {
    hide Next;
    if events != [] {
      RunIsSound(desired, registered, events[..|events| - 1]);
      NextKeeps(Run(Begin(desired, registered), events[..|events| - 1]), events[|events| - 1], StartView(desired, registered));
    }
  }

  // What every run guarantees.

  /** However submissions, step updates, health refreshes and finishes interleave, the runtime at
      rest is where the accepted commands, run one after the other, would have left it; during an
      operation the desired state is still the one those commands left. */
  lemma RunsAreSequential(desired: Desired, registered: set<string>, events: seq<Event>)
    ensures var m := Run(Begin(desired, registered), events);
            var v := Sequential(StartView(desired, registered), m.commands);
            m.s.desired == v.desired && (m.flight.None? ==> ViewOf(m.s.desired, m.s.applied) == v)
  {
    hide Run, Sequential, LogSound, Begin;
    RunIsSound(desired, registered, events);
  }

  /** The requests that were accepted along a run, in order, as each was found when it was submitted. */
  function Accepted(m: Machine, events: seq<Event>): seq<Request> {
    if events == [] then []
    else
      var n := |events| - 1;
      Accepted(m, events[..n])
        + if events[n].Submit? && Admit(Run(m, events[..n]).s, events[n].request, events[n].unsupported).Admitted? then [events[n].request] else []
  }

  /** The requests among the commands. */
  function Requests(commands: seq<Command>): seq<Request> {
    if commands == [] then []
    else
      var front, last := Requests(commands[..|commands| - 1]), commands[|commands| - 1];
      if last.Ran? then front + [last.request] else front
  }

  function UnderWay(m: Machine): seq<Request> {
    if m.flight.Some? then [m.flight.value.work.request] else []
  }

  lemma RequestStep(commands: seq<Command>, c: Command)
    ensures Requests(commands + [c]) == Requests(commands) + if c.Ran? then [c.request] else []
  {
    assert (commands + [c])[..|commands|] == commands;
  }

  lemma {:induction false} AsManyRequests(commands: seq<Command>)
    ensures |Requests(commands)| == Operations(commands)
  {
    if commands != [] { AsManyRequests(commands[..|commands| - 1]); }
  }

  /** One event accepts a request exactly if it is an admitted submission, and drops none. */
  lemma NextAccepts(m: Machine, e: Event, start: View)
    requires Sound(m, start)
    ensures var n := Next(m, e);
            Requests(n.commands) + UnderWay(n)
              == Requests(m.commands) + UnderWay(m) + if e.Submit? && Admit(m.s, e.request, e.unsupported).Admitted? then [e.request] else []
  {
    hide Requests, Sequential, Operations, LogSound, Finished, Done, RefreshRead, RefreshWritten, ProgressWritten, WithDesired, Stepped;
    var n := Next(m, e);
    if |n.commands| > |m.commands| {
      RequestStep(m.commands, n.commands[|m.commands|]);
    }
  }

  lemma {:induction false} HistoryIsWhatWasAccepted(desired: Desired, registered: set<string>, events: seq<Event>)
    ensures var m := Run(Begin(desired, registered), events);
            Requests(m.commands) + UnderWay(m) == Accepted(Begin(desired, registered), events)
  {
    hide Next, Sound, Admit, UnderWay;
    if events == [] {
      NothingUnderWay(desired, registered);
    } else {
      var n := |events| - 1;
      HistoryIsWhatWasAccepted(desired, registered, events[..n]);
      RunIsSound(desired, registered, events[..n]);
      NextAccepts(Run(Begin(desired, registered), events[..n]), events[n], StartView(desired, registered));
    }
  }

  lemma NothingUnderWay(desired: Desired, registered: set<string>)
    ensures UnderWay(Begin(desired, registered)) == []
  {
  }

  /** The applied generation counts the accepted requests; the finished ones are all of them but the
      one in flight, in the order of acceptance, and their results carry every generation in turn: one
      after the other without a gap, starting over after the largest 64-bit value. */
  lemma GenerationsCountOperations(desired: Desired, registered: set<string>, events: seq<Event>)
    ensures var m := Run(Begin(desired, registered), events);
            var accepted := Accepted(Begin(desired, registered), events);
            m.s.applied.generation == GenerationAfter(|accepted|)
            && |accepted| == |m.log| + (if m.s.active.Some? then 1 else 0)
            && Requests(m.commands) == accepted[..|m.log|]
            && forall i :: 0 <= i < |m.log| ==> m.log[i].generation == GenerationAfter(i + 1)
  {
    hide Run, Sequential, Begin, GenerationAfter, Accepted, Requests;
    var m := Run(Begin(desired, registered), events);
    RunIsSound(desired, registered, events);
    HistoryIsWhatWasAccepted(desired, registered, events);
    AsManyRequests(m.commands);
  }

  /** No transient phase outlives its operation, and what is shown and stored agrees with what is applied. */
  lemma ShownIsApplied(desired: Desired, registered: set<string>, events: seq<Event>)
    ensures var s := Run(Begin(desired, registered), events).s;
            (s.active.None? ==> AtRest(s.applied.phase))
            && CanonicalStatus(s).phase == s.applied.phase
            && CanonicalStatus(s).generation == s.applied.generation
            && StoredDesiredGeneration(s) == s.applied.generation
  {
    hide Run, Sequential, Begin, Operations;
    RunIsSound(desired, registered, events);
  }

  /** An operation always makes way for the next one: ending it, by a panic before its work has
      ended and by a finish afterwards, leaves nothing active, and any request to run is then accepted. */
  lemma EndingClears(desired: Desired, registered: set<string>, events: seq<Event>, message: string, now: Moment, kind: Kind, phase: Phase)
    ensures var m := Run(Begin(desired, registered), events);
            m.flight.Some? ==>
              var ended := Next(m, if m.flight.value.completion.None? then Panic(message, now) else Finish(now));
              ended.s.active.None? && ended.flight.None? && ended.log[..|m.log|] == m.log && |ended.log| == |m.log| + 1
              && Admit(ended.s, Request.Run(kind, phase), None).Admitted?
  {
    hide Run, Sequential, Begin, LogSound, Operations, HealthAfter, Admit;
    RunIsSound(desired, registered, events);
    var m := Run(Begin(desired, registered), events);
    if m.flight.Some? {
      NothingActiveAdmitsRuns(Next(m, if m.flight.value.completion.None? then Panic(message, now) else Finish(now)).s, kind, phase);
    }
  }

  lemma NothingActiveAdmitsRuns(s: Snapshot, kind: Kind, phase: Phase)
    ensures s.active.None? ==> Admit(s, Request.Run(kind, phase), None).Admitted?
  {
  }

  lemma EarlyGenerationsDiffer(i: nat, j: nat)
    requires i < j <= MAX_INT64
    ensures GenerationAfter(i) != GenerationAfter(j)
  {
    ModUnique(j - 1, 0, j - 1, MAX_INT64);
    if i > 0 { ModUnique(i - 1, 0, i - 1, MAX_INT64); }
  }

  /** A step update that comes late, from an operation that has finished, changes nothing. */
  lemma LateStepsAreIgnored(desired: Desired, registered: set<string>, events: seq<Event>, i: nat, step: Progress)
    ensures var m := Run(Begin(desired, registered), events);
            i < |m.log| < MAX_INT64 ==> Next(m, SetStep(m.log[i].generation, step)) == m
  {
    hide Run, Sequential, Begin, GenerationAfter, Operations;
    RunIsSound(desired, registered, events);
    var m := Run(Begin(desired, registered), events);
    if i < |m.log| < MAX_INT64 { EarlyGenerationsDiffer(i + 1, |m.log| + 1); }
  }

  /** Only accepting and ending an operation change the applied backend, profile and generation;
      only setting it changes the desired state; and a stopped runtime stays stopped under anything
      that does not start an operation, a late health refresh included. */
  lemma OnlyOperationsMove(m: Machine, e: Event)
    requires !e.Finish? && !e.Panic? && !(e.Submit? && Admit(m.s, e.request, e.unsupported).Admitted?)
    ensures var n := Next(m, e);
            n.s.applied == m.s.applied.(phase := n.s.applied.phase)
            && (m.s.applied.phase.Stopped? || m.s.active.Some? ==> n.s.applied == m.s.applied)
            && (!e.SetDesired? || m.s.active.Some? ==> n.s.desired == m.s.desired)
            && (n.s.active.Some? <==> m.s.active.Some?) && n.s.last == m.s.last && n.log == m.log
  {
    hide PhaseFromHealth, MergedProgress, HasProgress, Done;
  }
}
