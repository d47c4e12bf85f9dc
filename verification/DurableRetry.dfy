/** Retry accounting: which step_failed events a key can have. */
module DurableRetry {
  import opened Prelude
  import opened Keys
  import opened Events
  import opened Program
  import opened Durable
  import opened DurableInvariant
  import opened DurableSteps
  import opened DurableTheorems

  predicate FailureOf(e: Event, key: Key) {
    e.StepFailed? && e.stepKey == key
  }

  /** All failures of `key` so far are to be retried. */
  ghost predicate Retrying(log: Log, key: Key) {
    forall e :: e in log && FailureOf(e, key) ==> e.willRetry
  }

  /** Only the last failure of `key` can be final, and no attempt exceeds the policy (which
      always allows one). */
  ghost predicate RetriesRight(log: Log, key: Key, maxAttempts: int) {
    log == [] || (
      && RetriesRight(Front(log), key, maxAttempts)
      && (FailureOf(Last(log), key) ==> Retrying(Front(log), key) && Last(log).attempt <= Limit(maxAttempts)))
  }

  function Limit(maxAttempts: int): nat {
    if maxAttempts >= 1 then maxAttempts else 1
  }

  /** The log up to its first terminal event. */
  function BeforeEnd(log: Log): Log {
    if !HasEnded(log) then log else BeforeEnd(Front(log))
  }

  // ----- the invariant -----

  ghost predicate AsksHandled(body: Body, log: Log, key: Key, call: Call) {
    Asks(body, log, key, call) && IsHandled(call.kind)
  }

  /** A retried failure leaves an attempt. */
  ghost predicate LeavesAttempts(log: Log, key: Key, call: Call) {
    forall e :: e in log && FailureOf(e, key) && e.willRetry ==> e.attempt < call.maxAttempts
  }

  /** The live pass has raised after the final failure of `key`. */
  ghost predicate Dying(body: Body, s: Sys, key: Key) {
    exists i: nat :: Has(body, s, i) && BranchOf(body, s, i).Dead? && BranchOf(body, s, i).recorded
        && KeyOf(body, s, i) == key
  }

  ghost predicate RetryFits(body: Body, s: Sys, key: Key, call: Call) {
    && LeavesAttempts(s.log, key, call)
    && (!s.torn ==> RetriesRight(BeforeEnd(s.log), key, call.maxAttempts))
    && (!s.torn && !HasEnded(s.log) ==> Retrying(s.log, key) || Dying(body, s, key))
  }

  ghost predicate SealedQuiet(s: Sys) {
    s.pass.Some? && s.pass.value.IsSealed() ==> forall b :: b in s.pass.value.branches ==> b.Todo? || b.Done?
  }

  ghost predicate RetryInv(body: Body, s: Sys) {
    && SealedQuiet(s)
    && (forall e :: e in s.log && e.StepFailed? ==> AskedCheckpoint(body, s.log, e.stepKey))
    && (forall key, call :: AsksHandled(body, s.log, key, call) ==> RetryFits(body, s, key, call))
  }

  // ----- one more event -----

  lemma OneMoreEvent(log: Log, e: Event)
    ensures forall x :: x in log + [e] <==> x in log || x == e
    ensures Front(log + [e]) == log && Last(log + [e]) == e
    ensures HasEnded(log + [e]) <==> HasEnded(log) || e.EndsRun()
    ensures BeforeEnd(log + [e]) == if HasEnded(log) || e.EndsRun() then BeforeEnd(log) else log + [e]
  {
  }

  /** A key that is asked for only now has not failed before. */
  lemma NewlyAsked(body: Body, s: Sys, log: Log, key: Key, call: Call)
    requires RetryInv(body, s) && Extends(s.log, log) && AsksHandled(body, log, key, call)
    ensures AsksHandled(body, s.log, key, call) || forall e :: e in s.log ==> !FailureOf(e, key)
  {
    if e :| e in s.log && FailureOf(e, key) {
      var other: Call :| !other.kind.Gate? && Asks(body, s.log, key, other);
      AsksGrows(body, s.log, log, key, other);
      AsksOnce(body, log, key, call, other);
    }
  }

  lemma {:induction false} NeverFailedIsRight(log: Log, key: Key, maxAttempts: int)
    requires forall e :: e in log ==> !FailureOf(e, key)
    ensures RetriesRight(log, key, maxAttempts) && RetriesRight(BeforeEnd(log), key, maxAttempts)
  {
    if log != [] {
      NeverFailedIsRight(Front(log), key, maxAttempts);
    }
  }

  lemma NeverFailedFits(body: Body, s: Sys, key: Key, call: Call)
    requires forall e :: e in s.log ==> !FailureOf(e, key)
    ensures RetryFits(body, s, key, call)
  {
    NeverFailedIsRight(s.log, key, call.maxAttempts);
  }

  /** An event that is no failure of a handled step, without a final failure being forgotten. */
  lemma QuietEvent(body: Body, s: Sys, s': Sys, e: Event)
    requires Inv(body, s) && RetryInv(body, s) && s'.log == s.log + [e] && Extends(s.log, s'.log)
    requires s'.torn == s.torn && SealedQuiet(s')
    requires e.StepFailed? ==> AskedAs(body, s.log, e.stepKey, Child)
    requires HasEnded(s'.log) || forall key :: Dying(body, s, key) ==> Dying(body, s', key)
    ensures RetryInv(body, s')
  {
    OneMoreEvent(s.log, e);
    if e.StepFailed? {
      var call: Call :| call.kind == Child && Asks(body, s.log, e.stepKey, call);
    }
    FailedStayAsked(body, s, s', e);
    forall key, call | AsksHandled(body, s'.log, key, call) ensures RetryFits(body, s', key, call) {
      if FailureOf(e, key) {
        AskedAsGrows(body, s.log, s'.log, key, Child);
        WokenNotHandled(body, s'.log, key, call);
      }
      OtherFits(body, s, s', e, key, call);
    }
  }

  lemma FitsQuiet(body: Body, s: Sys, s': Sys, e: Event, key: Key, call: Call)
    requires RetryFits(body, s, key, call) && s'.log == s.log + [e] && s'.torn == s.torn && !FailureOf(e, key)
    requires HasEnded(s'.log) || (Dying(body, s, key) ==> Dying(body, s', key))
    ensures RetryFits(body, s', key, call)
  {
    OneMoreEvent(s.log, e);
  }

  lemma FailedStayAsked(body: Body, s: Sys, s': Sys, e: Event)
    requires RetryInv(body, s) && s'.log == s.log + [e] && Extends(s.log, s'.log)
    requires e.StepFailed? ==> AskedCheckpoint(body, s.log, e.stepKey)
    ensures forall x :: x in s'.log && x.StepFailed? ==> AskedCheckpoint(body, s'.log, x.stepKey)
  {
    OneMoreEvent(s.log, e);
    forall x | x in s'.log && x.StepFailed? ensures AskedCheckpoint(body, s'.log, x.stepKey) {
      AskedCheckpointGrows(body, s.log, s'.log, x.stepKey);
    }
  }

  /** The log stays, and no final failure is forgotten unless the state becomes torn. */
  lemma NoEvent(body: Body, s: Sys, s': Sys)
    requires RetryInv(body, s) && s'.log == s.log && SealedQuiet(s')
    requires s.torn ==> s'.torn
    requires s'.torn || HasEnded(s.log) || forall key :: Dying(body, s, key) ==> Dying(body, s', key)
    ensures RetryInv(body, s')
  {
    forall key, call | AsksHandled(body, s'.log, key, call) ensures RetryFits(body, s', key, call) {
      assert RetryFits(body, s, key, call);
    }
  }

  // ----- the failing step -----

  /** The latest failure carries the number of failures. */
  lemma {:induction false} LatestFailure(log: Log, key: Key) returns (e: Event)
    requires Numbered(log) && Failures(log)[key] > 0
    ensures e in log && FailureOf(e, key) && e.attempt == Failures(log)[key]
  {
    if FailureOf(Last(log), key) {
      e := Last(log);
    } else {
      e := LatestFailure(Front(log), key);
    }
  }

  lemma NotDying(body: Body, s: Sys, i: nat)
    requires Has(body, s, i) && !BranchOf(body, s, i).Dead?
    ensures !Dying(body, s, KeyOf(body, s, i))
  {
  }

  /** What an invoked branch says about its failures. */
  lemma InvokedBranch(body: Body, s: Sys, i: nat)
    requires Inv(body, s) && IsAt(body, s, i, true)
    ensures AsksHandled(body, s.log, KeyOf(body, s, i), CallOf(body, s, i))
    ensures BranchOf(body, s, i).attempt == Failures(s.log)[KeyOf(body, s, i)] + 1
    ensures !Dying(body, s, KeyOf(body, s, i))
  {
    hide Inv, Dying, Asks;
    NotDying(body, s, i);
    BranchAsked(body, s, i);
    BranchFitsNow(body, s, i);
  }

  lemma FitsNow(body: Body, s: Sys, key: Key, call: Call)
    requires RetryInv(body, s) && AsksHandled(body, s.log, key, call)
    ensures RetryFits(body, s, key, call)
  {
  }

  /** Before a run has ended, a failing step keeps its accounts right exactly when none of its
      earlier failures was final. */
  lemma FailureAccounts(body: Body, s: Sys, i: nat, error: Error, retryable: bool)
    requires Inv(body, s) && RetryInv(body, s) && IsAt(body, s, i, true) && !HasEnded(s.log)
    requires RetriesRight(s.log, KeyOf(body, s, i), CallOf(body, s, i).maxAttempts)
    ensures RetriesRight(DoFail(body, s, i, error, retryable).log, KeyOf(body, s, i),
              CallOf(body, s, i).maxAttempts) <==>
            Retrying(s.log, KeyOf(body, s, i))
  {
    var key, call := KeyOf(body, s, i), CallOf(body, s, i);
    InvokedBranch(body, s, i);
    FitsNow(body, s, key, call);
    NextFailure(s.log, key, call, FailEvent(body, s, i, error, retryable));
  }

  lemma NextFailure(log: Log, key: Key, call: Call, e: Event)
    requires Numbered(log) && LeavesAttempts(log, key, call) && RetriesRight(log, key, call.maxAttempts)
    requires FailureOf(e, key) && e.attempt == Failures(log)[key] + 1
    ensures RetriesRight(log + [e], key, call.maxAttempts) <==> Retrying(log, key)
  {
    OneMoreEvent(log, e);
    if Retrying(log, key) && Failures(log)[key] > 0 {
      var last := LatestFailure(log, key);
    }
  }

  lemma FailRetries(body: Body, s: Sys, i: nat, error: Error, retryable: bool)
    requires Inv(body, s) && RetryInv(body, s) && IsAt(body, s, i, true)
    ensures RetryInv(body, DoFail(body, s, i, error, retryable))
  {
    hide RetryFits, Dying, AskedCheckpoint, Asks, Asked, Accounted, OnTheWay, BranchesFit, NewsIsOwn,
         Results, Decisions, Failures, Completions, Resolutions, Numbered, RecordedOnce, Extends, BeforeEnd;
    assert BranchOf(body, s, i) in s.pass.value.branches && !s.pass.value.IsSealed();
    var s' := DoFail(body, s, i, error, retryable);
    var k := KeyOf(body, s, i);
    var e := FailEvent(body, s, i, error, retryable);
    InvokedBranch(body, s, i);
    OneMoreEvent(s.log, e);
    LogGrows(s.log, e);
    FailedStayAsked(body, s, s', e);
    forall key, call | AsksHandled(body, s'.log, key, call) ensures RetryFits(body, s', key, call) {
      if key == k {
        AsksGrows(body, s.log, s'.log, k, CallOf(body, s, i));
        AsksOnce(body, s'.log, k, call, CallOf(body, s, i));
        FailFits(body, s, i, error, retryable);
      } else {
        StillDying(body, s, i, s', key);
        OtherFits(body, s, s', e, key, call);
      }
    }
  }

  lemma OtherFits(body: Body, s: Sys, s': Sys, e: Event, key: Key, call: Call)
    requires RetryInv(body, s) && s'.log == s.log + [e] && Extends(s.log, s'.log) && s'.torn == s.torn
    requires AsksHandled(body, s'.log, key, call) && !FailureOf(e, key)
    requires HasEnded(s'.log) || (Dying(body, s, key) ==> Dying(body, s', key))
    ensures RetryFits(body, s', key, call)
  {
    hide RetryFits, Dying;
    OneMoreEvent(s.log, e);
    NewlyAsked(body, s, s'.log, key, call);
    if AsksHandled(body, s.log, key, call) {
      FitsQuiet(body, s, s', e, key, call);
    } else {
      NeverFailedFits(body, s', key, call);
    }
  }

  lemma FailFits(body: Body, s: Sys, i: nat, error: Error, retryable: bool)
    requires Inv(body, s) && RetryInv(body, s) && IsAt(body, s, i, true)
    ensures RetryFits(body, DoFail(body, s, i, error, retryable), KeyOf(body, s, i), CallOf(body, s, i))
  {
    var key, call := KeyOf(body, s, i), CallOf(body, s, i);
    var s' := DoFail(body, s, i, error, retryable);
    var e := FailEvent(body, s, i, error, retryable);
    hide Inv, Asks, Has;
    InvokedBranch(body, s, i);
    OneMoreEvent(s.log, e);
    FitsNow(body, s, key, call);
    if !s.torn && !HasEnded(s.log) {
      FailureAccounts(body, s, i, error, retryable);
      if !e.willRetry {
        assert BranchOf(body, s', i) == Dead(error, true) && KeyOf(body, s', i) == key;
        assert Dying(body, s', key);
      }
    }
  }

  /** Other branches go on dying when one branch moves. */
  lemma StillDying(body: Body, s: Sys, i: nat, s': Sys, key: Key)
    requires Has(body, s, i) && s'.pass.Some? && s'.pass.value.history == s.pass.value.history
    requires |s'.pass.value.branches| == |s.pass.value.branches|
    requires forall j :: 0 <= j < |s.pass.value.branches| && j != i ==>
               s'.pass.value.branches[j] == s.pass.value.branches[j]
    requires key != KeyOf(body, s, i) || !BranchOf(body, s, i).Dead?
    ensures Dying(body, s, key) ==> Dying(body, s', key)
  {
    if Dying(body, s, key) {
      var j: nat :| Has(body, s, j) && BranchOf(body, s, j).Dead? && BranchOf(body, s, j).recorded
          && KeyOf(body, s, j) == key;
      assert Has(body, s', j) && BranchOf(body, s', j) == BranchOf(body, s, j) && KeyOf(body, s', j) == key;
    }
  }

  // ----- every step -----

  lemma NobodyDying(body: Body, s: Sys)
    requires s.pass.None? || forall b :: b in s.pass.value.branches ==> !b.Dead?
    ensures forall key :: !Dying(body, s, key)
  {
  }

  lemma BranchRetries(body: Body, s: Sys, i: nat, b: Branch)
    requires RetryInv(body, s) && Has(body, s, i) && !BranchOf(body, s, i).Dead?
    requires s.pass.value.IsSealed() ==> b.Done?
    ensures RetryInv(body, SetBranch(s, i, b))
  {
    hide Dying, RetryFits;
    BranchesStillDying(body, s, i, SetBranch(s, i, b));
    NoEvent(body, s, SetBranch(s, i, b));
  }

  lemma BranchesStillDying(body: Body, s: Sys, i: nat, s': Sys)
    requires Has(body, s, i) && !BranchOf(body, s, i).Dead?
    requires s'.pass.Some? && s'.pass.value.history == s.pass.value.history
    requires |s'.pass.value.branches| == |s.pass.value.branches|
    requires forall j :: 0 <= j < |s.pass.value.branches| && j != i ==>
               s'.pass.value.branches[j] == s.pass.value.branches[j]
    ensures forall key :: Dying(body, s, key) ==> Dying(body, s', key)
  {
    hide Dying;
    forall key ensures Dying(body, s, key) ==> Dying(body, s', key) {
      StillDying(body, s, i, s', key);
    }
  }

  lemma BranchEventRetries(body: Body, s: Sys, i: nat, b: Branch, e: Event)
    requires Inv(body, s) && RetryInv(body, s) && Has(body, s, i) && !BranchOf(body, s, i).Dead?
    requires s.pass.value.IsSealed() ==> b.Done?
    requires Fresh(s.log, e) && !e.StepFailed?
    ensures RetryInv(body, Append(SetBranch(s, i, b), e))
  {
    hide Dying, RetryFits, Asked, Accounted, OnTheWay, BranchesFit, NewsIsOwn;
    LogGrows(s.log, e);
    BranchesStillDying(body, s, i, Append(SetBranch(s, i, b), e));
    QuietEvent(body, s, Append(SetBranch(s, i, b), e), e);
  }

  lemma BranchStepRetries(body: Body, s: Sys, step: Step)
    requires Inv(body, s) && RetryInv(body, s) && Enabled(body, s, step)
    requires step.Hit? || step.Refuse? || step.Attempt? || step.Invoke? || step.Complete? || step.Fail?
    ensures RetryInv(body, Do(body, s, step))
  {
    hide Inv, RetryInv;
    SealedBranches(body, s);
    match step
    case Hit(i) => BranchRetries(body, s, i, Done(Remembered(body, s, i).value));
    case Refuse(i, error) => BranchRetries(body, s, i, Dead(error, false));
    case Attempt(i) => BranchEventRetries(body, s, i, Started(NextAttempt(body, s, i)), StartEvent(body, s, i));
    case Invoke(i) => InvokeRetries(body, s, i);
    case Complete(i, value) =>
      BranchFitsNow(body, s, i);
      BranchEventRetries(body, s, i, Done(value), StepCompleted(KeyOf(body, s, i), value));
    case Fail(i, error, retryable) => FailRetries(body, s, i, error, retryable);
  }

  lemma SealedBranches(body: Body, s: Sys)
    requires RetryInv(body, s)
    ensures s.pass.Some? && s.pass.value.IsSealed() ==>
            forall i: nat :: Has(body, s, i) ==> BranchOf(body, s, i).Todo? || BranchOf(body, s, i).Done?
  {
  }

  lemma InvokeRetries(body: Body, s: Sys, i: nat)
    requires RetryInv(body, s) && IsAt(body, s, i, false)
    ensures RetryInv(body, DoInvoke(body, s, i))
  {
    hide RetryFits, Dying;
    SealedBranches(body, s);
    BranchesStillDying(body, s, i, DoInvoke(body, s, i));
    NoEvent(body, s, DoInvoke(body, s, i));
  }

  lemma ArmRetries(body: Body, s: Sys, i: nat, artifact: Uuid)
    requires Inv(body, s) && RetryInv(body, s) && CanArm(body, s, i)
    ensures RetryInv(body, DoArm(body, s, i, artifact))
  {
    hide RetryFits, Dying, Inv;
    var key, call := KeyOf(body, s, i), CallOf(body, s, i);
    if call.kind.Gate? && !IsOpened(s.log, key) {
      BranchEventRetries(body, s, i, Parked, GateOpened(key, call.name, artifact));
    } else {
      BranchesStillDying(body, s, i, DoArm(body, s, i, artifact));
      NoEvent(body, s, DoArm(body, s, i, artifact));
    }
  }

  lemma SuspendStepRetries(body: Body, s: Sys, step: Step)
    requires Inv(body, s) && RetryInv(body, s) && Enabled(body, s, step)
    requires step.Announce? || step.Arm? || step.Observe? || step.ChildFailed? || step.AutoApprove?
    ensures RetryInv(body, Do(body, s, step))
  {
    hide RetryInv, Dying, Inv, KeysAt, CallsAt, InFlight, Results, Decisions, Completions, Resolutions, Opened, Project;
    match step
    case Announce(i) => OutsideRetries(body, s, Append(s, StartEvent(body, s, i)), StartEvent(body, s, i));
    case Arm(i, artifact) => ArmRetries(body, s, i, artifact);
    case Observe(i) =>
      CompletionsAreResults(s.log, KeyOf(body, s, i));
      BranchRetries(body, s, i, Done(Results(s.log)[KeyOf(body, s, i)]));
    case ChildFailed(i, error) => BranchRetries(body, s, i, Dead(error, false));
    case AutoApprove(i, gateKey) =>
      ResolutionsAreDecisions(s.log, KeyOf(body, s, i));
      BranchEventRetries(body, s, i, Done(DecisionValue(Approved)),
                         GateResolved(KeyOf(body, s, i), gateKey, Approved, "auto"));
  }

  lemma SamePass(body: Body, s: Sys, s': Sys)
    requires s'.pass == s.pass
    ensures forall key :: Dying(body, s, key) ==> Dying(body, s', key)
  {
    forall key | Dying(body, s, key) ensures Dying(body, s', key) {
      var j: nat :| Has(body, s, j) && BranchOf(body, s, j).Dead? && BranchOf(body, s, j).recorded
          && KeyOf(body, s, j) == key;
      assert Has(body, s', j) && BranchOf(body, s', j) == BranchOf(body, s, j) && KeyOf(body, s', j) == key;
    }
  }

  /** An event committed by somebody else. */
  lemma OutsideRetries(body: Body, s: Sys, s': Sys, e: Event)
    requires Inv(body, s) && RetryInv(body, s) && Fresh(s.log, e)
    requires s'.log == s.log + [e] && s'.pass == s.pass && s'.torn == s.torn
    requires e.StepFailed? ==> AskedAs(body, s.log, e.stepKey, Child)
    ensures RetryInv(body, s')
  {
    hide RetryFits, Dying, Asked, Accounted, OnTheWay, BranchesFit, NewsIsOwn;
    LogGrows(s.log, e);
    SamePass(body, s, s');
    QuietEvent(body, s, s', e);
  }

  lemma WakerStepRetries(body: Body, s: Sys, step: Step)
    requires Inv(body, s) && RetryInv(body, s) && Enabled(body, s, step)
    requires step.Orphan? || step.Fire? || step.Resolve? || step.Expire? || step.SettleDone? || step.SettleFailed?
               || step.Cancel?
    ensures RetryInv(body, Do(body, s, step))
  {
    hide RetryInv, Dying, Inv, DoHit, DoAttempt, DoInvoke, DoComplete, DoFail, DoArm, DoObserve, DoAutoApprove;
    hide DoAdvance, DoFinish, DoReject, DoCut, StartEvent, CanHit, CanAttempt, CanSuspend, CanArm, CanObserve;
    hide CanAutoApprove, CanAdvance, CanFinish, CanFail, CanReject, Missed, IsAt, Has, IsCompleted, IsFailed;
    hide CanResolve, DoFire, DoSettle, Failures, Project;
    match step
    case Orphan(error, failedStep) =>
      OutsideRetries(body, s, Append(s, RunFailed(error, failedStep)), RunFailed(error, failedStep));
    case Fire(key) => FireRetries(body, s, key);
    case Expire(key, error) => OutsideRetries(body, s, Append(s, RunFailed(error, key)), RunFailed(error, key));
    case Resolve(key, gateKey, decision, actor) =>
      ResolveRetries(body, s, GateResolved(key, gateKey, decision, actor));
    case SettleDone(key, value) => SettleRetries(body, s, StepCompleted(key, value));
    case SettleFailed(key, error) => SettleRetries(body, s, StepFailed(key, error, Failures(s.log)[key] + 1, false));
    case Cancel(actor, reason) =>
      var e := RunCancelled(actor, reason);
      OutsideRetries(body, s, Append(s, e).(armed := {}), e);
  }

  lemma ResolveRetries(body: Body, s: Sys, e: Event)
    requires Inv(body, s) && RetryInv(body, s) && e.GateResolved? && CanResolve(s, e.stepKey)
    ensures RetryInv(body, Append(s, e))
  {
    hide Inv, RetryInv, Dying;
    ResolutionsAreDecisions(s.log, e.stepKey);
    OutsideRetries(body, s, Append(s, e), e);
  }

  lemma FireRetries(body: Body, s: Sys, key: Key)
    requires Inv(body, s) && RetryInv(body, s)
    ensures RetryInv(body, DoFire(s, key))
  {
    hide Inv, RetryInv, Dying;
    CompletionsAreResults(s.log, key);
    if IsCompleted(s.log, key) {
      UntouchedRetries(body, s, DoFire(s, key));
    } else {
      OutsideRetries(body, s, DoFire(s, key), StepCompleted(key, SLEPT));
    }
  }

  lemma SettleRetries(body: Body, s: Sys, e: Event)
    requires e.StepCompleted? || (e.StepFailed? && e.attempt == Failures(s.log)[e.stepKey] + 1)
    requires Inv(body, s) && RetryInv(body, s) && CanSettle(s, e.stepKey)
    ensures RetryInv(body, DoSettle(s, e))
  {
    hide Inv, RetryInv, Dying;
    CompletionsAreResults(s.log, e.stepKey);
    ChildrenAsked(body, s, e.stepKey);
    OutsideRetries(body, s, DoSettle(s, e), e);
  }

  lemma ChildrenAsked(body: Body, s: Sys, key: Key)
    requires Inv(body, s) && key in s.children
    ensures AskedAs(body, s.log, key, Child)
  {
  }

  lemma UntouchedRetries(body: Body, s: Sys, s': Sys)
    requires RetryInv(body, s) && s'.log == s.log && s'.pass == s.pass && s'.torn == s.torn
    ensures RetryInv(body, s')
  {
    hide RetryFits, Dying;
    SamePass(body, s, s');
    NoEvent(body, s, s');
  }

  /** A pass begins or ends, or moves to its next await. */
  lemma PassStepRetries(body: Body, s: Sys, step: Step)
    requires Inv(body, s) && RetryInv(body, s) && Enabled(body, s, step)
    requires step.Begin? || step.Advance? || step.Finish? || step.FailRun? || step.Reject? || step.Cut?
    ensures RetryInv(body, Do(body, s, step))
  {
    hide Inv, RetryInv, Dying;
    match step
    case Begin => CalmRetries(body, s, Do(body, s, step));
    case Advance => CalmRetries(body, s, Do(body, s, step));
    case Finish(ref) => FinishRetries(body, s, ref);
    case FailRun(error, failedStep) => EndRetries(body, s, RunFailed(error, failedStep));
    case Reject(failedStep) => RejectRetries(body, s, failedStep);
    case Cut => CutRetries(body, s);
  }

  /** Where no branch has died, a pass may begin, move on or end. */
  lemma CalmRetries(body: Body, s: Sys, s': Sys)
    requires RetryInv(body, s) && s'.log == s.log && s'.torn == s.torn
    requires s.pass.None? || forall b :: b in s.pass.value.branches ==> !b.Dead?
    requires s'.pass.None? || forall b :: b in s'.pass.value.branches ==> b.Todo?
    ensures RetryInv(body, s')
  {
    hide RetryFits;
    NobodyDying(body, s);
    NoEvent(body, s, s');
  }

  lemma EndRetries(body: Body, s: Sys, e: Event)
    requires Inv(body, s) && RetryInv(body, s) && s.pass.Some? && e.EndsRun()
    ensures RetryInv(body, Append(EndPass(body, s), e))
  {
    hide RetryFits, Dying, Asked, Accounted, OnTheWay, BranchesFit, NewsIsOwn;
    LogGrows(s.log, e);
    OneMoreEvent(s.log, e);
    QuietEvent(body, s, Append(EndPass(body, s), e), e);
  }

  lemma FinishRetries(body: Body, s: Sys, ref: Option<Uuid>)
    requires Inv(body, s) && RetryInv(body, s) && CanFinish(body, s)
    ensures RetryInv(body, DoFinish(body, s, ref))
  {
    hide RetryInv, Dying, Asked, Accounted, BranchesFit, NewsIsOwn;
    var p := s.pass.value;
    assert |p.branches| == 0;
    var done := EndPass(body, s).(returned := s.returned + [body(p.history).output]);
    CalmRetries(body, s, done);
    FinishKeeps(body, s, ref);
    if !p.IsSealed() {
      EndRetries(body, s, RunCompleted(ref));
      UntouchedRetries(body, Append(EndPass(body, s), RunCompleted(ref)), DoFinish(body, s, ref));
    }
  }

  lemma RejectRetries(body: Body, s: Sys, failedStep: Key)
    requires Inv(body, s) && RetryInv(body, s) && s.pass.Some?
    ensures RetryInv(body, DoReject(body, s, failedStep))
  {
    hide Inv, Dying, RetryFits;
    if s.pass.value.IsSealed() {
      CalmRetries(body, s, EndPass(body, s));
    } else {
      EndRetries(body, s, RunFailed(map["type" := "NonDeterminismError"], failedStep));
    }
  }

  lemma CutRetries(body: Body, s: Sys)
    requires RetryInv(body, s) && s.pass.Some?
    ensures RetryInv(body, DoCut(body, s))
  {
    hide RetryFits;
    if !Tears(s) && !HasEnded(s.log) {
      assert forall key :: !Dying(body, s, key);
    }
    NoEvent(body, s, DoCut(body, s));
  }

  lemma StepRetries(body: Body, s: Sys, step: Step)
    requires Inv(body, s) && RetryInv(body, s) && Enabled(body, s, step)
    ensures RetryInv(body, Do(body, s, step))
  {
    hide Inv, RetryInv, Do, Enabled;
    if step.Hit? || step.Refuse? || step.Attempt? || step.Invoke? || step.Complete? || step.Fail? {
      BranchStepRetries(body, s, step);
    } else if step.Announce? || step.Arm? || step.Observe? || step.ChildFailed? || step.AutoApprove? {
      SuspendStepRetries(body, s, step);
    } else if step.Begin? || step.Advance? || step.Finish? || step.FailRun? || step.Reject? || step.Cut? {
      PassStepRetries(body, s, step);
    } else {
      WakerStepRetries(body, s, step);
    }
  }

  lemma {:induction false} RunRetries(body: Body, s: Sys, steps: seq<Step>)
    requires Inv(body, s) && RetryInv(body, s) && Runs(body, s, steps)
    ensures RetryInv(body, After(body, s, steps))
    decreases |steps|
  {
    if steps != [] {
      StepKeeps(body, s, steps[0]);
      StepRetries(body, s, steps[0]);
      RunRetries(body, Do(body, s, steps[0]), steps[1..]);
    }
  }

  // ----- the theorem, and where it fails -----

  lemma ReachableRetries(body: Body, s: Sys)
    requires Reachable(body, s)
    ensures RetryInv(body, s)
  {
    var starts: Log, steps :|
      AllStarts(starts) && Runs(body, Initial(starts), steps) && s == After(body, Initial(starts), steps);
    var s0 := Initial(starts);
    InitialInv(body, starts);
    forall key, call | AsksHandled(body, s0.log, key, call) ensures RetryFits(body, s0, key, call) {
      NeverFailedFits(body, s0, key, call);
    }
    RunRetries(body, s0, steps);
  }

  /** Failures of a step are numbered 1, 2, ..., never beyond its policy, and only the last can
      be final, up to the run's first terminal event, however passes are cut and resumed, as
      long as none is cut between a final step_failed and its run_failed. */
  lemma RetryAccounting(body: Body, s: Sys, key: Key, call: Call)
    requires Reachable(body, s) && AsksHandled(body, s.log, key, call)
    ensures Numbered(s.log)
    ensures !s.torn ==> RetriesRight(BeforeEnd(s.log), key, call.maxAttempts)
  {
    ReachableInv(body, s);
    ReachableRetries(body, s);
    assert RetryFits(body, s, key, call);
  }

  /** Before a run has ended, a failing step keeps its failures right exactly when none of its
      earlier failures was final: the pass that committed a final one was not cut. */
  lemma RetryAccountingBreaks(body: Body, s: Sys, i: nat, error: Error, retryable: bool)
    requires Reachable(body, s) && IsAt(body, s, i, true) && !HasEnded(s.log)
    requires RetriesRight(s.log, KeyOf(body, s, i), CallOf(body, s, i).maxAttempts)
    ensures RetriesRight(DoFail(body, s, i, error, retryable).log, KeyOf(body, s, i),
              CallOf(body, s, i).maxAttempts) <==>
            Retrying(s.log, KeyOf(body, s, i))
  {
    ReachableInv(body, s);
    ReachableRetries(body, s);
    FailureAccounts(body, s, i, error, retryable);
  }
}
