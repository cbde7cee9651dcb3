/** The runtime orchestrator: one operation at a time, accepted and finished under a lock. */
module Orchestration {
  import opened Basics

  const MAX_INT64: int := 0x7fff_ffff_ffff_ffff
  const ROOT_TPROXY := "ROOT_TPROXY"

  datatype Phase =
    | Unset | Stopped | Applying | Starting | ConfigChecked | CoreSpawned | CoreListening | RulesApplied
    | DnsApplied | OutboundChecked | Stopping | Resetting | Healthy | Degraded | Failed

  datatype Kind =
    | KindStart | KindStop | KindRestart | KindReset | KindReload | KindApplyDesired | KindConfigMutation
    | KindProfileApply | KindNetworkChange | KindRescue | KindUpdateInstall

  datatype Desired = Desired(backend: string, profileId: string, settings: string)

  datatype AppliedState = AppliedState(backend: string, phase: Phase, profileId: string, startedAt: int, generation: int)

  datatype Health = Health(
    coreReady: bool, dnsReady: bool, routingReady: bool, egressReady: bool,
    lastCode: string, lastError: string, lastUserMessage: string, lastDebug: string,
    rollbackApplied: bool, stageReport: string, checkedAt: int, checks: string)
  {
    predicate Ready() {
      coreReady && routingReady
    }

    predicate Operational() {
      Ready() && dnsReady && egressReady
    }
  }

  const NO_HEALTH := Health(false, false, false, false, "", "", "", "", false, "", 0, "")

  datatype Progress = Progress(name: string, status: string, code: string, detail: string)

  datatype Operation = Operation(id: nat, kind: Kind, generation: int, phase: Phase, startedAt: int, step: Progress)

  datatype ResetReport = ResetReport(status: string, errors: seq<string>, details: string)

  /** An error with what the runtime's error interfaces may add to its message. */
  datatype Failure = Failure(
    message: string, code: string, userMessage: string, debug: string, rollbackApplied: bool,
    stageReport: string, reset: Option<ResetReport>)

  datatype Result = Result(
    id: nat, kind: Kind, generation: int, phase: Phase, startedAt: int, finishedAt: int,
    succeeded: bool, errorCode: string, errorMessage: string, reset: Option<ResetReport>)

  datatype Completion = Completion(failure: Option<Failure>, health: Health, applied: AppliedState, reset: Option<ResetReport>)

  datatype Snapshot = Snapshot(
    registered: set<string>, desired: Desired, applied: AppliedState, health: Health,
    active: Option<Operation>, last: Option<Result>, opSeq: nat)

  datatype Request = Start | Stop | Restart | Reset | NetworkChange | Run(kind: Kind, phase: Phase)

  /** What the goroutine of a request has captured from the moment it was accepted. */
  datatype Work = Work(request: Request, desired: Desired, applied: AppliedState)

  /** What the backend, or the function passed to RunOperation, does and reports. */
  datatype Outcome = Outcome(
    failure: Option<Failure>, report: Option<ResetReport>, cleanup: ResetReport,
    current: Health, refreshed: Health, now: Moment)

  // Phases.

  function PhaseOfCode(code: string): Option<Phase> {
    if code == "TPROXY_PORT_DOWN" then Some(CoreSpawned)
    else if code in {"DNS_LISTENER_DOWN", "API_PORT_DOWN"} then Some(CoreListening)
    else if code in {"RULES_NOT_APPLIED", "NETSTACK_CLEANUP_FAILED", "NETSTACK_VERIFY_FAILED", "ROUTING_CHECK_FAILED",
                     "ROUTING_V4_MISSING", "ROUTING_V6_MISSING", "ROUTING_NOT_APPLIED"} then Some(CoreListening)
    else if code == "DNS_APPLY_FAILED" then Some(RulesApplied)
    else if code in {"DNS_LOOKUP_TIMEOUT", "DNS_EMPTY_RESPONSE", "DNS_LOOKUP_FAILED", "PROXY_DNS_UNAVAILABLE"} then Some(DnsApplied)
    else if code in {"OUTBOUND_URL_FAILED", "OPERATIONAL_DEGRADED"} then Some(OutboundChecked)
    else if code in {"CORE_PID_MISSING", "CORE_PID_LOOKUP_FAILED", "CORE_PROCESS_DEAD", "CORE_LOG_OPEN_FAILED",
                     "CORE_SPAWN_FAILED"} then Some(Failed)
    else if code == "CONFIG_RENDER_FAILED" then Some(Starting)
    else if code == "CONFIG_CHECK_FAILED" then Some(ConfigChecked)
    else None
  }

  function PhaseFromHealth(health: Health, fallback: Phase): Phase {
    if health.checkedAt == 0 then fallback
    else if health.Operational() then Healthy
    else if PhaseOfCode(health.lastCode).Some? then PhaseOfCode(health.lastCode).value
    else if !health.Ready() then fallback
    else Degraded
  }

  /** The HEALTHY phase that a successful operation reports means an operational runtime only if
      the health was checked and, when core or routing is not ready, carries a known code. */
  lemma HealthyPhaseIff(health: Health)
    ensures PhaseFromHealth(health, Healthy) == Healthy
       <==> health.Operational() || health.checkedAt == 0 || (PhaseOfCode(health.lastCode).None? && !health.Ready())
  {
    KnownCodesAreNotHealthy(health.lastCode);
  }

  lemma KnownCodesAreNotHealthy(code: string)
    ensures PhaseOfCode(code).Some? ==>
              PhaseOfCode(code).value in {Starting, ConfigChecked, CoreSpawned, CoreListening, RulesApplied, DnsApplied, OutboundChecked, Failed}
  {
  }

  /** The phases that may stand while no operation is under way. */
  predicate AtRest(phase: Phase) {
    !(phase.Unset? || phase.Applying? || phase.Stopping? || phase.Resetting?)
  }

  lemma PhaseFromHealthRests(health: Health, fallback: Phase)
    requires AtRest(fallback)
    ensures AtRest(PhaseFromHealth(health, fallback))
  {
    KnownCodesAreNotHealthy(health.lastCode);
  }

  function HealthOf(failure: Failure, now: Moment): Health {
    NO_HEALTH.(lastError := failure.message, checkedAt := now, lastCode := failure.code, lastUserMessage := failure.userMessage,
               lastDebug := failure.debug, rollbackApplied := failure.rollbackApplied, stageReport := failure.stageReport)
  }

  function ErrorHealth(message: string, now: Moment): Health {
    NO_HEALTH.(lastError := message, checkedAt := now)
  }

  predicate HasProgress(health: Health) {
    health.stageReport != "" || health.lastCode != "" || health.lastError != "" || health.checkedAt != 0
  }

  function MergedProgress(current: Health, progress: Health): Health {
    current.(
      stageReport := if progress.stageReport != "" then progress.stageReport else current.stageReport,
      lastCode := if progress.lastCode != "" then progress.lastCode else current.lastCode,
      lastError := if progress.lastError != "" then progress.lastError else current.lastError,
      lastUserMessage := if progress.lastUserMessage != "" then progress.lastUserMessage else current.lastUserMessage,
      lastDebug := if progress.lastDebug != "" then progress.lastDebug else current.lastDebug,
      rollbackApplied := current.rollbackApplied || progress.rollbackApplied,
      checkedAt := if progress.checkedAt != 0 then progress.checkedAt else current.checkedAt,
      checks := if progress.checks != "" then progress.checks else current.checks)
  }

  // Accepting a request.

  function BackendName(kind: string): string {
    if kind == "" then ROOT_TPROXY else kind
  }

  function NotRegistered(kind: string): string {
    "backend " + BackendName(kind) + " is not registered"
  }

  function FirstOf(a: string, b: string): string {
    if a != "" then a else b
  }

  datatype Admission = Admitted | Busy | Ignored | Refused(reason: string)

  function BackendOf(s: Snapshot, request: Request): string {
    match request
    case Start | Restart => s.desired.backend
    case NetworkChange => s.applied.backend
    case _ => FirstOf(s.applied.backend, s.desired.backend)
  }

  /** `unsupported` is the backend's reason, or none when it is supported. */
  function Admit(s: Snapshot, request: Request, unsupported: Option<string>): Admission {
    if s.active.Some? then Busy
    else if request.Run? then Admitted
    else if request.NetworkChange? && s.applied.phase.Stopped? then Ignored
    else if BackendName(BackendOf(s, request)) !in s.registered then Refused(NotRegistered(BackendOf(s, request)))
    else if (request.Start? || request.Restart?) && unsupported.Some? then Refused(unsupported.value)
    else Admitted
  }

  function KindOf(request: Request): Kind {
    match request
    case Start => KindStart
    case Stop => KindStop
    case Restart => KindRestart
    case Reset => KindReset
    case NetworkChange => KindNetworkChange
    case Run(kind, _) => kind
  }

  function PhaseOf(request: Request): Phase {
    match request
    case Start | Restart | NetworkChange => Starting
    case Stop => Stopping
    case Reset => Resetting
    case Run(_, phase) => if phase.Unset? then Applying else phase
  }

  /** The generation after `generation`, as a 64-bit increment that falls back to one. */
  function NextGeneration(generation: int): int {
    var next := if generation == MAX_INT64 then -MAX_INT64 - 1 else generation + 1;
    if next < 1 then 1 else next
  }

  function Begun(s: Snapshot, kind: Kind, phase: Phase, now: Moment): Operation {
    Operation((s.opSeq + 1) % TWO_64, kind, NextGeneration(s.applied.generation), phase, now, Progress("", "", "", ""))
  }

  function Configured(s: Snapshot, request: Request, op: Operation): AppliedState {
    match request
    case Start | Restart => AppliedState(s.desired.backend, Starting, s.desired.profileId, 0, op.generation)
    case Stop => AppliedState(FirstOf(s.applied.backend, s.desired.backend), Stopping, s.applied.profileId, s.applied.startedAt, op.generation)
    case Reset => AppliedState(FirstOf(s.applied.backend, s.desired.backend), Resetting, s.applied.profileId, 0, op.generation)
    case NetworkChange | Run(_, _) => s.applied.(phase := op.phase, generation := op.generation)
  }

  function Submitted(s: Snapshot, request: Request, unsupported: Option<string>, now: Moment): Snapshot {
    match Admit(s, request, unsupported)
    case Admitted =>
      var op := Begun(s, KindOf(request), PhaseOf(request), now);
      s.(active := Some(op), applied := Configured(s, request, op), opSeq := op.id)
    case Refused(reason) => s.(health := ErrorHealth(reason, now))
    case _ => s
  }

  // Doing the work.

  predicate AppliesDesired(kind: Kind) {
    kind.KindConfigMutation? || kind.KindProfileApply? || kind.KindApplyDesired? || kind.KindReload?
  }

  function FirstReport(a: Option<ResetReport>, b: Option<ResetReport>): Option<ResetReport> {
    if a.Some? then a else b
  }

  function FirstError(errors: seq<string>): string {
    if errors == [] then "" else if errors[0] != "" then errors[0] else FirstError(errors[1..])
  }

  function StartDone(work: Work, op: Operation, o: Outcome): Completion {
    var backend, profileId := work.desired.backend, work.desired.profileId;
    match o.failure
    case Some(failure) =>
      var health := HealthOf(failure, o.now);
      Completion(o.failure, health, AppliedState(backend, PhaseFromHealth(health, Failed), profileId, 0, op.generation),
                 FirstReport(failure.reset, o.report))
    case None =>
      Completion(None, o.refreshed, AppliedState(backend, PhaseFromHealth(o.refreshed, Healthy), profileId, op.startedAt, op.generation), o.report)
  }

  function StopDone(work: Work, op: Operation, o: Outcome): Completion {
    var cleaned := o.failure.Some? && !work.applied.phase.Stopped?;
    var health := if o.failure.Some? then ErrorHealth(o.failure.value.message, o.now) else NO_HEALTH.(checkedAt := o.now);
    var reset := if cleaned then Some(o.cleanup) else None;
    if cleaned && o.cleanup.status != "ok" then
      Completion(o.failure, health, AppliedState(work.applied.backend, Failed, work.applied.profileId, work.applied.startedAt, op.generation), reset)
    else
      Completion(o.failure, health,
                 AppliedState(FirstOf(work.applied.backend, work.desired.backend), Stopped, work.applied.profileId, 0, op.generation), reset)
  }

  function ResetDone(work: Work, op: Operation, o: Outcome): Completion {
    var report := o.cleanup;
    var bad := report.errors != [] || report.status == "partial" || report.status == "failed";
    var message := FirstOf(FirstError(report.errors), "reset failed");
    var health := NO_HEALTH.(checkedAt := o.now, lastError := if bad then message else "");
    Completion(if bad then Some(Failure(message, "", "", "", false, "", None)) else None, health,
               AppliedState(FirstOf(work.applied.backend, work.desired.backend), Stopped, work.desired.profileId, 0, op.generation), Some(report))
  }

  function NetworkDone(work: Work, op: Operation, o: Outcome): Completion {
    var health := if o.current.checkedAt == 0 then o.refreshed else o.current;
    var applied := work.applied.(phase := PhaseFromHealth(health, Healthy), generation := op.generation);
    match o.failure
    case None => Completion(None, health, applied, o.report)
    case Some(failure) =>
      var noted := health.(lastError := FirstOf(health.lastError, failure.message),
                           checkedAt := if health.checkedAt == 0 then o.now else health.checkedAt);
      Completion(o.failure, noted, applied.(phase := Degraded), FirstReport(o.report, failure.reset))
  }

  /** `health` and `desired` are the orchestrator's own at the moment the work has ended. */
  function RunDone(work: Work, op: Operation, kind: Kind, o: Outcome, health: Health, desired: Desired): Completion {
    match o.failure
    case Some(failure) =>
      var failed := HealthOf(failure, o.now);
      Completion(o.failure, failed, work.applied.(phase := PhaseFromHealth(failed, Failed), generation := op.generation), failure.reset)
    case None =>
      var applied :=
        if kind.KindUpdateInstall? then work.applied.(phase := Stopped)
        else if AppliesDesired(kind) then
          AppliedState(FirstOf(desired.backend, work.applied.backend), PhaseFromHealth(health, Healthy), desired.profileId, op.startedAt, op.generation)
        else if health.checkedAt != 0 && health.checkedAt >= op.startedAt then work.applied.(phase := PhaseFromHealth(health, Healthy))
        else work.applied;
      Completion(None, NO_HEALTH, applied.(generation := op.generation), None)
  }

  function Done(work: Work, op: Operation, o: Outcome, health: Health, desired: Desired): Completion {
    match work.request
    case Start | Restart => StartDone(work, op, o)
    case Stop => StopDone(work, op, o)
    case Reset => ResetDone(work, op, o)
    case NetworkChange => NetworkDone(work, op, o)
    case Run(kind, _) => RunDone(work, op, kind, o, health, desired)
  }

  function PanicDone(s: Snapshot, op: Operation, message: string, now: Moment): Completion {
    Completion(Some(Failure(message, "", "", "", false, "", None)), NO_HEALTH.(lastCode := "PANIC", lastError := message, checkedAt := now),
               s.applied.(backend := FirstOf(s.applied.backend, s.desired.backend), phase := Failed, generation := op.generation), None)
  }

  // Finishing.

  function ResultOf(op: Operation, completion: Completion, now: Moment): Result {
    var failure := completion.failure;
    Result(op.id, op.kind, op.generation, op.phase, op.startedAt, now, failure.None?,
           if failure.Some? then FirstOf(failure.value.code, completion.health.lastCode) else "",
           if failure.Some? then failure.value.message else "", completion.reset)
  }

  function HealthAfter(health: Health, completion: Completion, now: Moment): Health {
    if completion.failure.Some? && completion.health.checkedAt == 0 then HealthOf(completion.failure.value, now)
    else if completion.health.checkedAt != 0 || completion.health.lastError != "" || completion.health.lastCode != "" then completion.health
    else health
  }

  function Finished(s: Snapshot, op: Operation, completion: Completion, now: Moment): Snapshot {
    s.(health := HealthAfter(s.health, completion, now),
       applied := if completion.applied.phase.Unset? then s.applied else completion.applied,
       last := Some(ResultOf(op, completion, now)),
       active := if s.active.Some? && s.active.value.id == op.id then None else s.active)
  }

  // The other critical sections.

  function Stepped(s: Snapshot, generation: int, step: Progress): Snapshot {
    if s.active.Some? && s.active.value.generation == generation then s.(active := Some(s.active.value.(step := step))) else s
  }

  predicate DesiredAccepted(s: Snapshot, desired: Desired, unsupported: Option<string>) {
    var backend := FirstOf(desired.backend, s.desired.backend);
    s.active.None? && BackendName(backend) in s.registered && (unsupported.None? || backend == ROOT_TPROXY)
  }

  function WithDesired(s: Snapshot, desired: Desired, unsupported: Option<string>): Snapshot {
    if DesiredAccepted(s, desired, unsupported)
    then s.(desired := desired.(backend := FirstOf(desired.backend, s.desired.backend)))
    else s
  }

  /** Reading before a health refresh: a missing backend is reported at once. */
  function RefreshRead(s: Snapshot, now: Moment): Snapshot {
    var backend := FirstOf(s.applied.backend, s.desired.backend);
    if BackendName(backend) in s.registered then s else s.(health := ErrorHealth(NotRegistered(backend), now))
  }

  function RefreshWritten(s: Snapshot, health: Health): Snapshot {
    s.(health := health,
       applied := if s.active.None? && !s.applied.phase.Stopped?
                  then s.applied.(phase := PhaseFromHealth(health, s.applied.phase)) else s.applied)
  }

  function ProgressWritten(s: Snapshot, health: Health): Snapshot {
    if s.active.Some? && HasProgress(health) then s.(health := MergedProgress(s.health, health)) else s
  }

  // What is shown and stored.

  datatype Canonical = Canonical(phase: Phase, generation: int, lastCode: string, lastError: string, ready: bool, operational: bool)

  function CanonicalStatus(s: Snapshot): Canonical {
    var shown := Canonical(s.applied.phase, s.applied.generation, s.health.lastCode, s.health.lastError, s.health.Ready(), s.health.Operational());
    match s.active
    case Some(op) =>
      shown.(phase := op.phase, generation := if op.generation > 0 then op.generation else shown.generation,
             lastCode := FirstOf(op.step.code, shown.lastCode), lastError := FirstOf(op.step.detail, shown.lastError))
    case None =>
      if s.last.Some? && !s.last.value.succeeded then
        shown.(lastCode := FirstOf(shown.lastCode, s.last.value.errorCode), lastError := FirstOf(shown.lastError, s.last.value.errorMessage))
      else shown
  }

  function StoredDesiredGeneration(s: Snapshot): int {
    if s.active.Some? then s.active.value.generation
    else if s.last.Some? && s.last.value.generation > s.applied.generation then s.last.value.generation
    else s.applied.generation
  }

  /** Every method is one critical section of the daemon's orchestrator. */
  class Orchestrator {
    const registered: set<string>
    var desired: Desired
    var applied: AppliedState
    var health: Health
    var active: Option<Operation>
    var last: Option<Result>
    var opSeq: nat

    function Contents(): Snapshot
      reads this
    {
      Snapshot(registered, desired, applied, health, active, last, opSeq)
    }

    constructor (desired: Desired, registered: set<string>)
      ensures Contents() == Initial(desired, registered)
    {
      var start := desired;
      if start.backend == "" {
        start := start.(backend := ROOT_TPROXY);
      }
      this.registered := registered;
      this.desired := start;
      this.applied := AppliedState(start.backend, Stopped, "", 0, 0);
      this.health := NO_HEALTH;
      this.active := None;
      this.last := None;
      this.opSeq := 0;
    }

    method Busy() returns (busy: bool)
      ensures busy == Contents().active.Some?
    {
      return active.Some?;
    }

    method BackendFor(kind: string) returns (error: Option<string>)
      ensures error == if BackendName(kind) in registered then None else Some(NotRegistered(kind))
    {
      var name := kind;
      if name == "" {
        name := ROOT_TPROXY;
      }
      if name !in registered {
        return Some("backend " + name + " is not registered");
      }
      return None;
    }

    method Refuse(reason: string, now: Moment)
      modifies this
      ensures Contents() == old(Contents()).(health := ErrorHealth(reason, now))
    {
      health := ErrorHealth(reason, now);
    }

    method BeginOperation(kind: Kind, phase: Phase, now: Moment) returns (op: Operation)
      modifies this
      ensures op == Begun(old(Contents()), kind, phase, now)
      ensures Contents() == old(Contents()).(active := Some(op), opSeq := op.id)
    {
      var next := if applied.generation == MAX_INT64 then -MAX_INT64 - 1 else applied.generation + 1;
      if next < 1 {
        next := 1;
      }
      opSeq := (opSeq + 1) % TWO_64;
      op := Operation(opSeq, kind, next, phase, now, Progress("", "", "", ""));
      active := Some(op);
    }

    method SubmitStart(request: Request, unsupported: Option<string>, now: Moment) returns (admission: Admission)
      requires request.Start? || request.Restart?
      modifies this
      ensures admission == Admit(old(Contents()), request, unsupported)
      ensures Contents() == Submitted(old(Contents()), request, unsupported, now)
    {
      if active.Some? {
        return Admission.Busy;
      }
      var missing := BackendFor(desired.backend);
      if missing.Some? {
        Refuse(missing.value, now);
        return Refused(missing.value);
      }
      if unsupported.Some? {
        Refuse(unsupported.value, now);
        return Refused(unsupported.value);
      }
      var op := BeginOperation(KindOf(request), Starting, now);
      applied := AppliedState(desired.backend, Starting, desired.profileId, 0, op.generation);
      return Admitted;
    }

    method SubmitStop(now: Moment) returns (admission: Admission)
      modifies this
      ensures admission == Admit(old(Contents()), Stop, None)
      ensures Contents() == Submitted(old(Contents()), Stop, None, now)
    {
      if active.Some? {
        return Admission.Busy;
      }
      var backend := FirstOf(applied.backend, desired.backend);
      var missing := BackendFor(backend);
      if missing.Some? {
        Refuse(missing.value, now);
        return Refused(missing.value);
      }
      var op := BeginOperation(KindStop, Stopping, now);
      applied := AppliedState(backend, Stopping, applied.profileId, applied.startedAt, op.generation);
      return Admitted;
    }

    method SubmitReset(now: Moment) returns (admission: Admission)
      modifies this
      ensures admission == Admit(old(Contents()), Reset, None)
      ensures Contents() == Submitted(old(Contents()), Reset, None, now)
    {
      if active.Some? {
        return Admission.Busy;
      }
      var backend := FirstOf(applied.backend, desired.backend);
      var missing := BackendFor(backend);
      if missing.Some? {
        Refuse(missing.value, now);
        return Refused(missing.value);
      }
      var op := BeginOperation(KindReset, Resetting, now);
      applied := AppliedState(backend, Resetting, applied.profileId, 0, op.generation);
      return Admitted;
    }

    method SubmitNetworkChange(now: Moment) returns (admission: Admission)
      modifies this
      ensures admission == Admit(old(Contents()), NetworkChange, None)
      ensures Contents() == Submitted(old(Contents()), NetworkChange, None, now)
    {
      if active.Some? {
        return Admission.Busy;
      }
      if applied.phase.Stopped? {
        return Ignored;
      }
      var missing := BackendFor(applied.backend);
      if missing.Some? {
        Refuse(missing.value, now);
        return Refused(missing.value);
      }
      var op := BeginOperation(KindNetworkChange, Starting, now);
      applied := applied.(phase := Starting);
      applied := applied.(generation := op.generation);
      return Admitted;
    }

    method SubmitRun(kind: Kind, phase: Phase, now: Moment) returns (admission: Admission)
      modifies this
      ensures admission == Admit(old(Contents()), Run(kind, phase), None)
      ensures Contents() == Submitted(old(Contents()), Run(kind, phase), None, now)
    {
      if active.Some? {
        return Admission.Busy;
      }
      var during := phase;
      if during.Unset? {
        during := Applying;
      }
      var op := BeginOperation(kind, during, now);
      applied := applied.(phase := during);
      applied := applied.(generation := op.generation);
      return Admitted;
    }

    method FinishOperation(op: Operation, completion: Completion, now: Moment)
      modifies this
      ensures Contents() == Finished(old(Contents()), op, completion, now)
    {
      if completion.health.checkedAt != 0 || completion.health.lastError != "" || completion.health.lastCode != "" {
        health := completion.health;
      }
      if !completion.applied.phase.Unset? {
        applied := completion.applied;
      }
      if completion.failure.Some? && completion.health.checkedAt == 0 {
        health := HealthOf(completion.failure.value, now);
      }
      last := Some(ResultOf(op, completion, now));
      if active.Some? && active.value.id == op.id {
        active := None;
      }
    }

    method FinishPanicked(op: Operation, message: string, now: Moment)
      modifies this
      ensures Contents() == Finished(old(Contents()), op, PanicDone(old(Contents()), op, message, now), now)
    {
      var backend := applied.backend;
      if backend == "" {
        backend := desired.backend;
      }
      var completion := Completion(
        Some(Failure(message, "", "", "", false, "", None)),
        NO_HEALTH.(lastCode := "PANIC", lastError := message, checkedAt := now),
        AppliedState(backend, Failed, applied.profileId, applied.startedAt, op.generation), None);
      FinishOperation(op, completion, now);
    }

    method SetActiveOperationStep(generation: int, step: Progress) returns (ok: bool)
      modifies this
      ensures Contents() == Stepped(old(Contents()), generation, step)
      ensures ok == (old(active).Some? && old(active).value.generation == generation)
    {
      if active.None? || active.value.generation != generation {
        return false;
      }
      active := Some(active.value.(step := step));
      return true;
    }

    method ApplyDesiredState(wanted: Desired, unsupported: Option<string>) returns (ok: bool)
      modifies this
      ensures ok == DesiredAccepted(old(Contents()), wanted, unsupported)
      ensures Contents() == WithDesired(old(Contents()), wanted, unsupported)
    {
      if active.Some? {
        return false;
      }
      var next := wanted;
      if next.backend == "" {
        next := next.(backend := desired.backend);
      }
      var missing := BackendFor(next.backend);
      if missing.Some? {
        return false;
      }
      if unsupported.Some? && next.backend != ROOT_TPROXY {
        return false;
      }
      desired := next;
      return true;
    }

    /** The first half of a health refresh; false means there is no backend to ask. */
    method ReadForRefresh(now: Moment) returns (ok: bool)
      modifies this
      ensures Contents() == RefreshRead(old(Contents()), now)
      ensures ok == (BackendName(FirstOf(old(applied).backend, old(desired).backend)) in registered)
    {
      var backend := FirstOf(applied.backend, desired.backend);
      var missing := BackendFor(backend);
      if missing.Some? {
        Refuse(missing.value, now);
        return false;
      }
      return true;
    }

    method WriteRefresh(probed: Health)
      modifies this
      ensures Contents() == RefreshWritten(old(Contents()), probed)
    {
      health := probed;
      if active.None? && !applied.phase.Stopped? {
        applied := applied.(phase := PhaseFromHealth(probed, applied.phase));
      }
    }

    method WriteProgress(progress: Health)
      modifies this
      ensures Contents() == ProgressWritten(old(Contents()), progress)
    {
      if active.Some? && HasProgress(progress) {
        health := MergedProgress(health, progress);
      }
    }
  }

  function Initial(desired: Desired, registered: set<string>): Snapshot {
    var start := desired.(backend := BackendName(desired.backend));
    Snapshot(registered, start, AppliedState(start.backend, Stopped, "", 0, 0), NO_HEALTH, None, None, 0)
  }
}
