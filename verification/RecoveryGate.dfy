/** Which recoveries may still run: the operation epoch and the wish to be running. */
module RecoveryGate {
  import opened Basics
  import opened CoreLifecycle

  type Epoch = n: nat | n < TWO_64

  datatype Intent = Intent(epoch: Epoch, running: bool)

  datatype Event = BeginStart | BeginStop | StartFailed(epoch: Epoch)

  function NextEpoch(epoch: Epoch): Epoch {
    (epoch + 1) % TWO_64
  }

  function After(intent: Intent, e: Event): Intent {
    match e
    case BeginStart => Intent(NextEpoch(intent.epoch), true)
    case BeginStop => Intent(NextEpoch(intent.epoch), false)
    case StartFailed(epoch) => if intent.epoch == epoch then intent.(running := false) else intent
  }

  function Run(intent: Intent, events: seq<Event>): Intent {
    if events == [] then intent else After(Run(intent, events[..|events| - 1]), events[|events| - 1])
  }

  /** How many starts and stops began. */
  function Begins(events: seq<Event>): nat {
    if events == [] then 0
    else Begins(events[..|events| - 1]) + (if events[|events| - 1].StartFailed? then 0 else 1)
  }

  predicate Recoverable(state: State) {
    state.Running? || state.Degraded? || state.Rescue?
  }

  predicate MayRecover(intent: Intent, epoch: Epoch, skip: bool, state: State) {
    intent.running && intent.epoch == epoch && !skip && Recoverable(state)
  }

  class RuntimeOperations {
    var epoch: Epoch
    var desiredRunning: bool

    function Contents(): Intent
      reads this
    {
      Intent(epoch, desiredRunning)
    }

    constructor ()
      ensures Contents() == Intent(0, false)
    {
      epoch := 0;
      desiredRunning := false;
    }

    method BeginStartOperation() returns (begun: Epoch)
      modifies this
      ensures Contents() == After(old(Contents()), BeginStart) && begun == epoch
    {
      epoch := (epoch + 1) % TWO_64;
      desiredRunning := true;
      return epoch;
    }

    method BeginStopOperation() returns (begun: Epoch)
      modifies this
      ensures Contents() == After(old(Contents()), BeginStop) && begun == epoch
    {
      epoch := (epoch + 1) % TWO_64;
      desiredRunning := false;
      return epoch;
    }

    method MarkStartFailed(failed: Epoch)
      modifies this
      ensures Contents() == After(old(Contents()), StartFailed(failed))
    {
      if epoch == failed {
        desiredRunning := false;
      }
    }

    method CanRunRecovery(captured: Epoch, skip: bool, state: State) returns (allowed: bool)
      ensures allowed == MayRecover(Contents(), captured, skip, state)
    {
      allowed := desiredRunning && epoch == captured;
      if !allowed {
        return false;
      }
      if skip {
        return false;
      }
      return state == Running || state == Degraded || state == Rescue;
    }
  }

  lemma WrapStep(a: nat)
    ensures (a % TWO_64 + 1) % TWO_64 == (a + 1) % TWO_64
  {
  }

  lemma {:induction false} EpochCountsBegins(intent: Intent, events: seq<Event>)
    ensures Run(intent, events).epoch == (intent.epoch + Begins(events)) % TWO_64
  {
    if events != [] {
      EpochCountsBegins(intent, events[..|events| - 1]);
      WrapStep(intent.epoch + Begins(events[..|events| - 1]));
    }
  }

  /** A captured epoch passes exactly when the runtime is still wanted and recoverable and the
      number of starts and stops begun since is a multiple of 2^64: in practice, none. */
  lemma GatePassesIff(captured: Intent, events: seq<Event>, skip: bool, state: State)
    ensures MayRecover(Run(captured, events), captured.epoch, skip, state)
       <==> Run(captured, events).running && Begins(events) % TWO_64 == 0 && !skip && Recoverable(state)
  {
    EpochCountsBegins(captured, events);
    SameEpochIff(captured.epoch, Begins(events));
  }

  lemma SameEpochIff(epoch: Epoch, n: nat)
    ensures (epoch + n) % TWO_64 == epoch <==> n % TWO_64 == 0
  {
    var q, r := n / TWO_64, n % TWO_64;
    assert n == q * TWO_64 + r;
    AddMultiple(epoch + r, q);
    if epoch + r >= TWO_64 { AddMultiple(epoch + r - TWO_64, 1); }
  }

  lemma {:induction false} AddMultiple(a: nat, q: nat)
    ensures (a + q * TWO_64) % TWO_64 == a % TWO_64
  {
    if q > 0 {
      AddMultiple(a, q - 1);
      assert a + q * TWO_64 == (a + (q - 1) * TWO_64) + TWO_64;
      AddOnce(a + (q - 1) * TWO_64);
    }
  }

  lemma AddOnce(a: nat)
    ensures (a + TWO_64) % TWO_64 == a % TWO_64
  {
  }

  /** Once a start or a stop has begun, a recovery that captured the epoch before it cannot pass. */
  lemma NewerOperationClosesGate(captured: Intent, events: seq<Event>, skip: bool, state: State)
    requires 0 < Begins(events) < TWO_64
    ensures !MayRecover(Run(captured, events), captured.epoch, skip, state)
  {
    GatePassesIff(captured, events, skip, state);
    SmallModulus(Begins(events));
  }

  lemma SmallModulus(n: nat)
    requires n < TWO_64
    ensures n % TWO_64 == n
  {
  }

  /** The failure of an old start, reported after another start or stop began, changes nothing. */
  lemma OldFailureIsHarmless(started: Intent, events: seq<Event>)
    requires 0 < Begins(events) < TWO_64
    ensures Run(started, events + [StartFailed(started.epoch)]) == Run(started, events)
  {
    assert (events + [StartFailed(started.epoch)])[..|events|] == events;
    EpochCountsBegins(started, events);
    SameEpochIff(started.epoch, Begins(events));
    SmallModulus(Begins(events));
  }

  /** Until the next operation begins, a start stays wanted exactly as long as its own failure has
      not been reported; reports about other starts do not matter. */
  lemma {:induction false} WantedUntilItFails(started: Intent, events: seq<Event>)
    requires started.running && Begins(events) == 0
    ensures Run(started, events).epoch == started.epoch
    ensures Run(started, events).running <==> StartFailed(started.epoch) !in events
  {
    if events != [] {
      var n := |events| - 1;
      WantedUntilItFails(started, events[..n]);
      assert events == events[..n] + [events[n]];
    }
  }
}
