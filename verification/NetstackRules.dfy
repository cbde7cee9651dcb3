/** The scripts that install and remove the packet rules, run as one reported transaction. */
module NetstackRules {
  import opened Basics

  /** What is in the kernel: the DNS interception and the TPROXY rules. */
  datatype Rules = Rules(dns: bool, iptables: bool)
  {
    predicate Installed() {
      dns || iptables
    }
  }

  const NO_RULES := Rules(false, false)

  /** How one script run ends: it does its job, or it fails, with an error that may read like a
      missing script, leaving its rules in place (`left`) or not. */
  datatype ScriptRun = Ran | Broke(missing: bool, left: bool)

  datatype Call = DnsStop | IptablesStop | IptablesStart | DnsStart | PrivacyGuardStart | IptablesStatus | DnsStatus

  datatype Status = Ok | AlreadyClean | Failed | Warned

  datatype Step = Step(call: Call, status: Status)

  datatype Report = Report(failed: bool, steps: seq<Step>, errors: seq<Call>, warnings: seq<Call>, rollbackApplied: bool)

  const EMPTY_REPORT := Report(false, [], [], [], false)

  datatype Code = RulesNotApplied | DnsApplyFailed | NetstackCleanupFailed | NetstackVerifyFailed | NetstackFailed

  datatype StopRuns = StopRuns(dns: ScriptRun, iptables: ScriptRun)

  datatype ApplyRuns = ApplyRuns(before: StopRuns, iptables: ScriptRun, dns: ScriptRun, privacyGuard: ScriptRun, undo: StopRuns)

  function Left(run: ScriptRun, done: bool): bool {
    if run.Ran? then done else run.left
  }

  function StoppedRules(runs: StopRuns): Rules {
    Rules(Left(runs.dns, false), Left(runs.iptables, false))
  }

  /** A stop that counts as clean: the script ran, or its error reads like a missing script. */
  predicate CountsAsClean(run: ScriptRun) {
    run.Ran? || run.missing
  }

  predicate CleanStops(runs: StopRuns) {
    CountsAsClean(runs.dns) && CountsAsClean(runs.iptables)
  }

  function Applied(runs: ApplyRuns): bool {
    CleanStops(runs.before) && runs.iptables.Ran? && runs.dns.Ran?
  }

  function CodeOf(call: Call): Code {
    match call
    case IptablesStart => RulesNotApplied
    case DnsStart => DnsApplyFailed
    case DnsStop | IptablesStop => NetstackCleanupFailed
    case DnsStatus | IptablesStatus => NetstackVerifyFailed
    case PrivacyGuardStart => NetstackFailed
  }

  /** A report's code is that of its first failed step. */
  ghost predicate ReportsCode(report: Report, code: Option<Code>) {
    match code
    case None => report.errors == []
    case Some(c) =>
      report.errors != [] &&
      (if exists i :: 0 <= i < |report.steps| && report.steps[i].status.Failed?
       then exists i :: 0 <= i < |report.steps| && report.steps[i].status.Failed? && c == CodeOf(report.steps[i].call)
                        && forall j :: 0 <= j < i ==> !report.steps[j].status.Failed?
       else c == NetstackFailed)
  }

  lemma FirstFailure(report: Report, i: nat)
    requires i < |report.steps| && report.steps[i].status.Failed? && report.errors != []
    requires forall j :: 0 <= j < i ==> !report.steps[j].status.Failed?
    ensures ReportsCode(report, Some(CodeOf(report.steps[i].call)))
  {
  }

  lemma CodeIsUnique(report: Report, a: Option<Code>, b: Option<Code>)
    requires ReportsCode(report, a) && ReportsCode(report, b)
    ensures a == b
  {
    if a.Some? && b.Some? && exists i :: 0 <= i < |report.steps| && report.steps[i].status.Failed? {
      var i :| 0 <= i < |report.steps| && report.steps[i].status.Failed? && a.value == CodeOf(report.steps[i].call)
               && forall j :: 0 <= j < i ==> !report.steps[j].status.Failed?;
      var k :| 0 <= k < |report.steps| && report.steps[k].status.Failed? && b.value == CodeOf(report.steps[k].call)
               && forall j :: 0 <= j < k ==> !report.steps[j].status.Failed?;
    }
  }

  method Err(report: Report) returns (code: Option<Code>)
    ensures ReportsCode(report, code)
  {
    if report.errors == [] {
      return None;
    }
    for i := 0 to |report.steps|
      invariant forall j :: 0 <= j < i ==> !report.steps[j].status.Failed?
    {
      if report.steps[i].status.Failed? {
        return Some(CodeOf(report.steps[i].call));
      }
    }
    return Some(NetstackFailed);
  }

  function WithOk(report: Report, call: Call): Report {
    report.(steps := report.steps + [Step(call, Ok)])
  }

  function WithFailure(report: Report, call: Call): Report {
    report.(failed := true, steps := report.steps + [Step(call, Failed)], errors := report.errors + [call])
  }

  function StopStep(run: ScriptRun, call: Call): Step {
    Step(call, if run.Ran? then Ok else if run.missing then AlreadyClean else Failed)
  }

  function StopErrors(runs: StopRuns): seq<Call> {
    (if CountsAsClean(runs.dns) then [] else [DnsStop]) + (if CountsAsClean(runs.iptables) then [] else [IptablesStop])
  }

  /** The interception is removed before the rules it relies on, and both are tried whatever happens. */
  method CleanupInto(report: Report, rules: Rules, runs: StopRuns) returns (next: Report, left: Rules, calls: seq<Call>)
    ensures left == StoppedRules(runs) && calls == [DnsStop, IptablesStop]
    ensures next.steps == report.steps + [StopStep(runs.dns, DnsStop), StopStep(runs.iptables, IptablesStop)]
    ensures next.errors == report.errors + StopErrors(runs)
    ensures next.failed == (report.failed || !CleanStops(runs))
    ensures next.warnings == report.warnings && next.rollbackApplied == report.rollbackApplied
  {
    next, left, calls := report, rules, [];
    for i := 0 to 2
      invariant calls == [DnsStop, IptablesStop][..i]
      invariant left.dns == if i > 0 then StoppedRules(runs).dns else rules.dns
      invariant left.iptables == if i > 1 then StoppedRules(runs).iptables else rules.iptables
      invariant next.steps == report.steps + [StopStep(runs.dns, DnsStop), StopStep(runs.iptables, IptablesStop)][..i]
      invariant i == 0 ==> next.errors == report.errors
      invariant i == 1 ==> next.errors == report.errors + (if CountsAsClean(runs.dns) then [] else [DnsStop])
      invariant i == 2 ==> next.errors == report.errors + StopErrors(runs)
      invariant next.failed == (report.failed || (i > 0 && !CountsAsClean(runs.dns)) || (i > 1 && !CountsAsClean(runs.iptables)))
      invariant next.warnings == report.warnings && next.rollbackApplied == report.rollbackApplied
    {
      var call := if i == 0 then DnsStop else IptablesStop;
      var run := if i == 0 then runs.dns else runs.iptables;
      calls := calls + [call];
      left := if i == 0 then left.(dns := Left(run, false)) else left.(iptables := Left(run, false));
      if run.Ran? {
        next := WithOk(next, call);
      } else if run.missing {
        next := next.(steps := next.steps + [Step(call, AlreadyClean)]);
      } else {
        next := WithFailure(next, call);
      }
    }
  }

  /** A cleanup is without error exactly when both stops count as clean; and then rules can only be
      left where a stop script was missing. */
  method Cleanup(rules: Rules, runs: StopRuns) returns (report: Report, left: Rules, calls: seq<Call>)
    ensures left == StoppedRules(runs) && calls == [DnsStop, IptablesStop]
    ensures report.errors == [] <==> CleanStops(runs)
    ensures report.errors == [] && left.dns ==> runs.dns.Broke? && runs.dns.missing
    ensures report.errors == [] && left.iptables ==> runs.iptables.Broke? && runs.iptables.missing
    ensures runs.dns.Ran? && runs.iptables.Ran? ==> !left.Installed()
  {
    report, left, calls := CleanupInto(EMPTY_REPORT, rules, runs);
  }

  function AfterApply(runs: ApplyRuns): Rules {
    if !CleanStops(runs.before) then StoppedRules(runs.before)
    else if Applied(runs) then Rules(true, true)
    else StoppedRules(runs.undo)
  }

  /** What failed first when rules could not be applied. */
  function ApplyCode(runs: ApplyRuns): Option<Code> {
    if !CleanStops(runs.before) then Some(NetstackCleanupFailed)
    else if !runs.iptables.Ran? then Some(RulesNotApplied)
    else if !runs.dns.Ran? then Some(DnsApplyFailed)
    else None
  }

  function ApplyCalls(runs: ApplyRuns): seq<Call> {
    if !CleanStops(runs.before) then [DnsStop, IptablesStop]
    else if !runs.iptables.Ran? then [DnsStop, IptablesStop, IptablesStart, DnsStop, IptablesStop]
    else if !runs.dns.Ran? then [DnsStop, IptablesStop, IptablesStart, DnsStart, DnsStop, IptablesStop]
    else [DnsStop, IptablesStop, IptablesStart, DnsStart, PrivacyGuardStart]
  }

  ghost predicate NoneFailed(report: Report) {
    report.errors == [] && forall j :: 0 <= j < |report.steps| ==> !report.steps[j].status.Failed?
  }

  /** Notes a failed start and takes down what was started. */
  method UndoFailed(report: Report, rules: Rules, call: Call, runs: StopRuns) returns (next: Report, left: Rules, calls: seq<Call>)
    requires NoneFailed(report)
    ensures left == StoppedRules(runs) && calls == [DnsStop, IptablesStop]
    ensures next.errors != [] && next.rollbackApplied && ReportsCode(next, Some(CodeOf(call)))
  {
    next := WithFailure(report, call);
    next := next.(rollbackApplied := true);
    next, left, calls := CleanupInto(next, rules, runs);
    FirstFailure(next, |report.steps|);
  }

  /** Applying ends with all rules installed and no error, or with an error whose code names the
      first step that failed and the started rules taken down again. */
  method Apply(rules: Rules, runs: ApplyRuns) returns (report: Report, now: Rules, calls: seq<Call>)
    ensures now == AfterApply(runs) && calls == ApplyCalls(runs)
    ensures report.errors == [] <==> Applied(runs)
    ensures ReportsCode(report, ApplyCode(runs))
    ensures Applied(runs) ==> now == Rules(true, true) && !report.rollbackApplied
    ensures report.rollbackApplied <==> CleanStops(runs.before) && !Applied(runs)
    ensures report.rollbackApplied && now.Installed() ==> !(runs.undo.dns.Ran? && runs.undo.iptables.Ran?)
  {
    report, now, calls := CleanupInto(EMPTY_REPORT, rules, runs.before);
    if report.failed {
      FirstFailure(report, if CountsAsClean(runs.before.dns) then 1 else 0);
      return;
    }
    hide ReportsCode, CountsAsClean;
    assert NoneFailed(report);
    var undone: seq<Call>;
    calls := calls + [IptablesStart];
    now := now.(iptables := Left(runs.iptables, true));
    if runs.iptables.Broke? {
      report, now, undone := UndoFailed(report, now, IptablesStart, runs.undo);
      calls := calls + undone;
      return;
    }
    report := WithOk(report, IptablesStart);
    calls := calls + [DnsStart];
    now := now.(dns := Left(runs.dns, true));
    if runs.dns.Broke? {
      report, now, undone := UndoFailed(report, now, DnsStart, runs.undo);
      calls := calls + undone;
      return;
    }
    report := WithOk(report, DnsStart);
    calls := calls + [PrivacyGuardStart];
    if runs.privacyGuard.Broke? {
      report := report.(steps := report.steps + [Step(PrivacyGuardStart, Warned)], warnings := report.warnings + [PrivacyGuardStart]);
    } else {
      report := WithOk(report, PrivacyGuardStart);
    }
    NoErrorsNoCode(report);
  }

  lemma NoErrorsNoCode(report: Report)
    ensures report.errors == [] ==> ReportsCode(report, None)
  {
  }

  /** Verification stops at the first status script that fails. */
  method Verify(iptables: bool, dns: bool) returns (report: Report, calls: seq<Call>)
    ensures report.errors == [] <==> iptables && dns
    ensures ReportsCode(report, if iptables && dns then None else Some(NetstackVerifyFailed))
    ensures calls == if iptables then [IptablesStatus, DnsStatus] else [IptablesStatus]
  {
    report, calls := EMPTY_REPORT, [IptablesStatus];
    if !iptables {
      report := WithFailure(report, IptablesStatus);
      FirstFailure(report, 0);
      return;
    }
    report := WithOk(report, IptablesStatus);
    calls := calls + [DnsStatus];
    if !dns {
      report := WithFailure(report, DnsStatus);
      FirstFailure(report, 1);
      return;
    }
    report := WithOk(report, DnsStatus);
  }
}
