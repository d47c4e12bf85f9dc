/** One run as a transition system: replay passes that may be cut after any commit, the
    interleaved branches of a parallel list, and the wakers that complete its steps. */
module Durable {
  import opened Prelude
  import opened Keys
  import opened Events
  import opened Program

  /** Where one awaited step of the current await stands. */
  datatype Branch =
    | Todo                                    // not looked at yet
    | Waiting(attempt: nat)                   // backed off in-process; will start again
    | Started(attempt: nat)                   // step_started committed
    | Invoked(attempt: nat)                   // the handler has been called
    | Parked                                  // waits for a waker: the pass can only suspend
    | Dead(error: Error, recorded: bool)      // raised; recorded: after a final step_failed
    | Done(value: Value)

  /** One execute_run pass: the log it read when it began, and how far it got. */
  datatype Pass = Pass(seen: Log, history: History, branches: seq<Branch>) {
    /** The run had already completed. */
    predicate IsSealed() {
      Project(seen).status.Completed?
    }
  }

  /** The run: its log, its armed sleep timers and started children, its live pass, and four
      counts no table holds: handler calls, steps settled by wakers, handler calls whose
      outcome was lost, and the values returned by passes. `torn` records that a pass was cut
      between a final step_failed and its run_failed. */
  datatype Sys = Sys(
    log: Log, armed: set<Key>, children: set<Key>, pass: Option<Pass>,
    invoked: multiset<Key>, woken: multiset<Key>, lost: multiset<Key>,
    returned: seq<Value>, torn: bool)

  const SLEPT: Value := "{\"slept\": true}"

  datatype Step =
    | Begin
    | Hit(i: nat) | Refuse(i: nat, error: Error)
    | Attempt(i: nat) | Invoke(i: nat) | Complete(i: nat, value: Value)
    | Fail(i: nat, error: Error, retryable: bool)
    | Announce(i: nat) | Arm(i: nat, artifact: Uuid)
    | Observe(i: nat) | ChildFailed(i: nat, error: Error) | AutoApprove(i: nat, gateKey: string)
    | Advance | Finish(ref: Option<Uuid>) | FailRun(error: Error, failedStep: Key) | Reject(failedStep: Key)
    | Cut | Orphan(error: Error, failedStep: Key)    // the pinned version is not registered
    | Fire(key: Key) | Resolve(key: Key, gateKey: string, decision: Decision, actor: string) | Expire(key: Key,
        error: Error)
    | SettleDone(key: Key, value: Value) | SettleFailed(key: Key, error: Error)
    | Cancel(actor: string, reason: string)

  /** A dispatch cut before the child's row is inserted is repeated: a run may start more than once. */
  predicate AllStarts(log: Log) {
    log != [] && forall e :: e in log ==> e.RunStarted?
  }

  function Initial(starts: Log): Sys {
    Sys(starts, {}, {}, None, multiset{}, multiset{}, multiset{}, [], false)
  }

  // ----- reading the pass -----

  function BranchCount(body: Body, h: History): nat {
    if KeysAt(body, h).Allocated? then |CallsAt(body, h)| else 0
  }

  function Enter(body: Body, h: History): seq<Branch> {
    seq(BranchCount(body, h), i => Todo)
  }

  function NewPass(body: Body, log: Log): Pass {
    Pass(log, [], Enter(body, []))
  }

  /** Branch `i` of the live pass exists. */
  predicate Has(body: Body, s: Sys, i: nat) {
    && s.pass.Some? && KeysAt(body, s.pass.value.history).Allocated?
    && i < |s.pass.value.branches| && |s.pass.value.branches| == |CallsAt(body, s.pass.value.history)|
  }

  function KeyOf(body: Body, s: Sys, i: nat): Key
    requires Has(body, s, i)
  {
    KeysAt(body, s.pass.value.history).keys[i]
  }

  function CallOf(body: Body, s: Sys, i: nat): Call
    requires Has(body, s, i)
  {
    CallsAt(body, s.pass.value.history)[i]
  }

  function BranchOf(body: Body, s: Sys, i: nat): Branch
    requires Has(body, s, i)
  {
    s.pass.value.branches[i]
  }

  /** What the pass remembers of the log for branch `i`. */
  function Remembered(body: Body, s: Sys, i: nat): Option<Value>
    requires Has(body, s, i)
  {
    Recorded(s.pass.value.seen, KeyOf(body, s, i), CallOf(body, s, i).kind)
  }

  /** Branch `i` is a miss on an unsealed log: it takes the live path. */
  predicate Missed(body: Body, s: Sys, i: nat) {
    && Has(body, s, i) && BranchOf(body, s, i).Todo? && Remembered(body, s, i).None?
    && !s.pass.value.IsSealed()
  }

  /** The attempt a branch is about to start. */
  function NextAttempt(body: Body, s: Sys, i: nat): nat
    requires Has(body, s, i)
  {
    match BranchOf(body, s, i)
    case Waiting(a) => a
    case _ => Failures(s.pass.value.seen)[KeyOf(body, s, i)] + 1
  }

  /** The durable wake source of a suspending step exists. */
  predicate SourceExists(s: Sys, key: Key, kind: StepKind) {
    match kind
    case Sleep => key in s.armed
    case Gate => IsOpened(s.log, key)
    case _ => key in s.children
  }

  /** Keys whose handler has been called and whose outcome is not committed. */
  function InFlight(body: Body, s: Sys): set<Key> {
    match s.pass
    case None => {}
    case Some(p) =>
      var r := KeysAt(body, p.history);
      if r.Allocated? && |r.keys| == |p.branches|
      then set i | 0 <= i < |p.branches| && p.branches[i].Invoked? :: r.keys[i]
      else {}
  }

  predicate AllDone(p: Pass) {
    forall i | 0 <= i < |p.branches| :: p.branches[i].Done?
  }

  function Values(p: Pass): seq<Value>
    requires AllDone(p)
  {
    seq(|p.branches|, i requires 0 <= i < |p.branches| => p.branches[i].value)
  }

  // ----- when a step can be taken -----

  predicate CanBegin(s: Sys) {
    s.pass.None? && !WasCancelled(s.log)
  }

  predicate CanHit(body: Body, s: Sys, i: nat) {
    Has(body, s, i) && BranchOf(body, s, i).Todo? && Remembered(body, s, i).Some?
  }

  /** The check for a cancellation comes some time before the step_started: a cancellation may be
      committed in between, so nothing is asked of the log here. */
  predicate CanAttempt(body: Body, s: Sys, i: nat) {
    && Has(body, s, i) && IsHandled(CallOf(body, s, i).kind)
    && (BranchOf(body, s, i).Waiting? || Missed(body, s, i))
  }

  predicate IsAt(body: Body, s: Sys, i: nat, invoked: bool) {
    Has(body, s, i) && if invoked then BranchOf(body, s, i).Invoked? else BranchOf(body, s, i).Started?
  }

  /** A live step without a handler: it suspends unless something already settled it. */
  predicate CanSuspend(body: Body, s: Sys, i: nat) {
    Missed(body, s, i) && !IsHandled(CallOf(body, s, i).kind)
  }

  predicate CanArm(body: Body, s: Sys, i: nat) {
    && CanSuspend(body, s, i)
    && (SourceExists(s, KeyOf(body, s, i), CallOf(body, s, i).kind)
        || IsStarted(s.log, KeyOf(body, s, i), CallOf(body, s, i).kind))
  }

  predicate CanObserve(body: Body, s: Sys, i: nat, failed: bool) {
    && CanSuspend(body, s, i) && CallOf(body, s, i).kind.Child?
    && if failed then IsFailed(s.log, KeyOf(body, s, i)) else IsCompleted(s.log, KeyOf(body, s, i))
  }

  /** A gate this pass has opened or found open. */
  predicate CanAutoApprove(body: Body, s: Sys, i: nat) {
    && (CanSuspend(body, s, i) || (Has(body, s, i) && BranchOf(body, s, i).Parked?)) && CallOf(body, s, i).kind.Gate?
    && IsOpened(s.log, KeyOf(body, s, i)) && !IsResolved(s.log, KeyOf(body, s, i))
  }

  predicate CanAdvance(body: Body, s: Sys) {
    && s.pass.Some? && body(s.pass.value.history).Await?
    && KeysAt(body, s.pass.value.history).Allocated? && AllDone(s.pass.value)
  }

  predicate CanFinish(body: Body, s: Sys) {
    && s.pass.Some? && body(s.pass.value.history).Return?
    && Results(s.pass.value.seen).Keys <= RequestedBefore(body, s.pass.value.history)
  }

  predicate CanFail(body: Body, s: Sys, error: Error) {
    && s.pass.Some?
    && (body(s.pass.value.history) == Raise(error)
        || exists b | b in s.pass.value.branches :: b.Dead? && b.error == error)
  }

  /** The replay is not consistent with the log: a label clash, leftover results, or a miss on
      a sealed log. */
  predicate CanReject(body: Body, s: Sys) {
    && s.pass.Some?
    && var p := s.pass.value;
      || (body(p.history).Await? && KeysAt(body, p.history).Clash?)
      || (body(p.history).Return? && !(Results(p.seen).Keys <= RequestedBefore(body, p.history)))
      || (p.IsSealed() && exists i | 0 <= i < |p.branches| ::
          Has(body, s, i) && p.branches[i].Todo? && Remembered(body, s, i).None?)
  }

  predicate CanResolve(s: Sys, key: Key) {
    IsOpened(s.log, key) && !IsResolved(s.log, key)
  }

  /** A completion may come after a failure: a failed child can be resumed. */
  predicate CanSettle(s: Sys, key: Key) {
    key in s.children && !IsCompleted(s.log, key)
  }

  // ----- what a step does -----

  function SetBranch(s: Sys, i: nat, b: Branch): Sys
    requires s.pass.Some? && i < |s.pass.value.branches|
  {
    s.(pass := Some(s.pass.value.(branches := s.pass.value.branches[i := b])))
  }

  function Append(s: Sys, e: Event): Sys {
    s.(log := s.log + [e])
  }

  /** The pass ends: handler calls in flight lose their outcome. */
  function EndPass(body: Body, s: Sys): Sys {
    s.(pass := None, lost := s.lost + multiset(InFlight(body, s)))
  }

  function StartEvent(body: Body, s: Sys, i: nat): Event
    requires Has(body, s, i)
  {
    StepStarted(KeyOf(body, s, i), CallOf(body, s, i).kind)
  }

  function FailEvent(body: Body, s: Sys, i: nat, error: Error, retryable: bool): Event
    requires IsAt(body, s, i, true)
  {
    var a := BranchOf(body, s, i).attempt;
    StepFailed(KeyOf(body, s, i), error, a, a < CallOf(body, s, i).maxAttempts && retryable)
  }

  function DoHit(body: Body, s: Sys, i: nat): Sys
    requires CanHit(body, s, i)
  {
    SetBranch(s, i, Done(Remembered(body, s, i).value))
  }

  function DoAttempt(body: Body, s: Sys, i: nat): Sys
    requires CanAttempt(body, s, i)
  {
    Append(SetBranch(s, i, Started(NextAttempt(body, s, i))), StartEvent(body, s, i))
  }

  function DoInvoke(body: Body, s: Sys, i: nat): Sys
    requires IsAt(body, s, i, false)
  {
    SetBranch(s, i, Invoked(BranchOf(body, s, i).attempt)).(invoked := s.invoked + multiset{KeyOf(body, s, i)})
  }

  function DoComplete(body: Body, s: Sys, i: nat, value: Value): Sys
    requires IsAt(body, s, i, true)
  {
    Append(SetBranch(s, i, Done(value)), StepCompleted(KeyOf(body, s, i), value))
  }

  function DoFail(body: Body, s: Sys, i: nat, error: Error, retryable: bool): Sys
    requires IsAt(body, s, i, true)
  {
    var e := FailEvent(body, s, i, error, retryable);
    Append(SetBranch(s, i, if e.willRetry then Waiting(e.attempt + 1) else Dead(error, true)), e)
  }

  /** The durable wake source is committed: a sleep timer, an open gate, a child run. */
  function DoArm(body: Body, s: Sys, i: nat, artifact: Uuid): Sys
    requires CanArm(body, s, i)
  {
    var key := KeyOf(body, s, i);
    var parked := SetBranch(s, i, Parked);
    match CallOf(body, s, i).kind
    case Sleep => parked.(armed := s.armed + {key})
    case Gate => if IsOpened(s.log, key) then parked else Append(parked,
        GateOpened(key, CallOf(body, s, i).name, artifact))
    case _ => parked.(children := s.children + {key})
  }

  function DoObserve(body: Body, s: Sys, i: nat): Sys
    requires CanObserve(body, s, i, false)
  {
    CompletionsAreResults(s.log, KeyOf(body, s, i));
    SetBranch(s, i, Done(Results(s.log)[KeyOf(body, s, i)]))
  }

  function DoAutoApprove(body: Body, s: Sys, i: nat, gateKey: string): Sys
    requires CanAutoApprove(body, s, i)
  {
    Append(SetBranch(s, i, Done(DecisionValue(Approved))),
           GateResolved(KeyOf(body, s, i), gateKey, Approved, "auto"))
  }

  function DoAdvance(body: Body, s: Sys): Sys
    requires CanAdvance(body, s)
  {
    var h := s.pass.value.history + [Values(s.pass.value)];
    s.(pass := Some(s.pass.value.(history := h, branches := Enter(body, h))))
  }

  function DoFinish(body: Body, s: Sys, ref: Option<Uuid>): Sys
    requires CanFinish(body, s)
  {
    var done := EndPass(body, s).(returned := s.returned + [body(s.pass.value.history).output]);
    if s.pass.value.IsSealed() then done else Append(done, RunCompleted(ref))
  }

  function DoReject(body: Body, s: Sys, failedStep: Key): Sys
    requires s.pass.Some?
  {
    if s.pass.value.IsSealed() then EndPass(body, s)
    else Append(EndPass(body, s), RunFailed(map["type" := "NonDeterminismError"], failedStep))
  }

  /** A final step_failed is committed and its run_failed is not. */
  predicate Tears(s: Sys) {
    && s.pass.Some? && !HasEnded(s.log)
    && exists b | b in s.pass.value.branches :: b.Dead? && b.recorded
  }

  function DoCut(body: Body, s: Sys): Sys
    requires s.pass.Some?
  {
    EndPass(body, s).(torn := s.torn || Tears(s))
  }

  function DoFire(s: Sys, key: Key): Sys {
    var fired := s.(armed := s.armed - {key});
    if IsCompleted(s.log, key) then fired
    else Append(fired, StepCompleted(key, SLEPT)).(woken := s.woken + multiset{key})
  }

  function DoSettle(s: Sys, e: Event): Sys
    requires e.StepCompleted? || e.StepFailed?
  {
    Append(s, e).(woken := s.woken + multiset{e.stepKey})
  }

  // ----- the steps -----

  predicate Enabled(body: Body, s: Sys, step: Step) {
    match step
    case Begin => CanBegin(s)
    case Hit(i) => CanHit(body, s, i)
    case Refuse(i, _) => Missed(body, s, i)
    case Attempt(i) => CanAttempt(body, s, i)
    case Invoke(i) => IsAt(body, s, i, false)
    case Complete(i, _) => IsAt(body, s, i, true)
    case Fail(i, _, _) => IsAt(body, s, i, true)
    case Announce(i) => CanSuspend(body, s, i) && !SourceExists(s, KeyOf(body, s, i), CallOf(body, s, i).kind)
    case Arm(i, _) => CanArm(body, s, i)
    case Observe(i) => CanObserve(body, s, i, false)
    case ChildFailed(i, _) => CanObserve(body, s, i, true)
    case AutoApprove(i, _) => CanAutoApprove(body, s, i)
    case Advance => CanAdvance(body, s)
    case Finish(_) => CanFinish(body, s)
    case FailRun(error, _) => CanFail(body, s, error)
    case Reject(_) => CanReject(body, s)
    case Cut => s.pass.Some?
    case Orphan(_, _) => CanBegin(s)
    case Fire(key) => key in s.armed
    case Resolve(key, _, _, _) => CanResolve(s, key)
    case Expire(key, _) => CanResolve(s, key)
    case SettleDone(key, _) => CanSettle(s, key)
    case SettleFailed(key, _) => CanSettle(s, key) && !IsFailed(s.log, key)
    case Cancel(_, _) => true  // refused by the row's status, which may lag behind the log
  }

  function Do(body: Body, s: Sys, step: Step): Sys
    requires Enabled(body, s, step)
  {
    match step
    case Begin => s.(pass := Some(NewPass(body, s.log)))
    case Hit(i) => DoHit(body, s, i)
    case Refuse(i, error) => SetBranch(s, i, Dead(error, false))
    case Attempt(i) => DoAttempt(body, s, i)
    case Invoke(i) => DoInvoke(body, s, i)
    case Complete(i, value) => DoComplete(body, s, i, value)
    case Fail(i, error, retryable) => DoFail(body, s, i, error, retryable)
    case Announce(i) => Append(s, StartEvent(body, s, i))
    case Arm(i, artifact) => DoArm(body, s, i, artifact)
    case Observe(i) => DoObserve(body, s, i)
    case ChildFailed(i, error) => SetBranch(s, i, Dead(error, false))
    case AutoApprove(i, gateKey) => DoAutoApprove(body, s, i, gateKey)
    case Advance => DoAdvance(body, s)
    case Finish(ref) => DoFinish(body, s, ref)
    case FailRun(error, failedStep) => Append(EndPass(body, s), RunFailed(error, failedStep))
    case Reject(failedStep) => DoReject(body, s, failedStep)
    case Cut => DoCut(body, s)
    case Orphan(error, failedStep) => Append(s, RunFailed(error, failedStep))
    case Fire(key) => DoFire(s, key)
    case Resolve(key, gateKey, decision, actor) => Append(s, GateResolved(key, gateKey, decision, actor))
    case Expire(key, error) => Append(s, RunFailed(error, key))
    case SettleDone(key, value) => DoSettle(s, StepCompleted(key, value))
    case SettleFailed(key, error) => DoSettle(s, StepFailed(key, error, Failures(s.log)[key] + 1, false))
    case Cancel(actor, reason) => Append(s, RunCancelled(actor, reason)).(armed := {})
  }

  /** A run of the system from `s`: every step is taken where it is enabled. */
  ghost predicate Runs(body: Body, s: Sys, steps: seq<Step>)
    decreases |steps|
  {
    steps == [] || (Enabled(body, s, steps[0]) && Runs(body, Do(body, s, steps[0]), steps[1..]))
  }

  function After(body: Body, s: Sys, steps: seq<Step>): Sys
    requires Runs(body, s, steps)
    decreases |steps|
  {
    if steps == [] then s else After(body, Do(body, s, steps[0]), steps[1..])
  }
}
