/** Every step of a durable run keeps the invariant. */
module DurableSteps {
  import opened Prelude
  import opened Keys
  import opened Events
  import opened Program
  import opened Durable
  import opened DurableInvariant

  // ----- a pass begins, moves on, ends -----

  lemma NothingInFlight(body: Body, s: Sys)
    requires s.pass.Some? && forall i :: 0 <= i < |s.pass.value.branches| ==> !s.pass.value.branches[i].Invoked?
    ensures InFlight(body, s) == {}
  {
  }

  lemma BeginKeeps(body: Body, s: Sys)
    requires Inv(body, s) && CanBegin(s)
    ensures Inv(body, s.(pass := Some(NewPass(body, s.log))))
  {
    NothingInFlight(body, s.(pass := Some(NewPass(body, s.log))));
    CompletedLogged(s.log);
    if Project(s.log).status.Completed? {
      assert s.returned[0] in s.returned;
    }
  }

  lemma {:induction false} CompletedLogged(log: Log)
    ensures Project(log).status.Completed? ==> exists e :: e in log && e.RunCompleted?
  {
    if log != [] {
      CompletedLogged(Front(log));
      assert Last(log) in log;
    }
  }

  /** What the finished await returns is what the log records for its keys. */
  lemma ValuesReceived(body: Body, s: Sys)
    requires Inv(body, s) && CanAdvance(body, s)
    ensures Receives(body, s.log, s.pass.value.history, Values(s.pass.value))
  {
    var p := s.pass.value;
    var keys, calls := KeysAt(body, p.history).keys, CallsAt(body, p.history);
    forall i | 0 <= i < |keys| ensures Recorded(s.log, keys[i], calls[i].kind) == Some(Values(p)[i]) {
      BranchFitsNow(body, s, i);
    }
  }

  lemma AdvanceKeeps(body: Body, s: Sys)
    requires Inv(body, s) && CanAdvance(body, s)
    ensures Inv(body, DoAdvance(body, s))
  {
    hide Asked, Numbered, Yields, Accounted, OnTheWay, BranchesFit, NewsIsOwn;
    AdvanceReplays(body, s);
    AdvanceNews(body, s);
    AdvanceAccounts(body, s);
    assert Asked(body, DoAdvance(body, s)) by {
      AskedKept(body, s, DoAdvance(body, s));
    }
  }

  lemma AdvanceReplays(body: Body, s: Sys)
    requires Inv(body, s) && CanAdvance(body, s)
    ensures OnTheWay(body, s.log, DoAdvance(body, s).pass.value)
    ensures BranchesFit(body, s.log, DoAdvance(body, s).pass.value)
  {
    hide Asked, Accounted, NewsIsOwn, Receives, Values;
    var p, p' := s.pass.value, DoAdvance(body, s).pass.value;
    ValuesReceived(body, s);
    assert Front(p'.history) == p.history && Last(p'.history) == Values(p);
  }

  lemma AdvanceAccounts(body: Body, s: Sys)
    requires Accounted(body, s) && CanAdvance(body, s)
    ensures Accounted(body, DoAdvance(body, s))
  {
    NothingInFlight(body, s);
    NothingInFlight(body, DoAdvance(body, s));
  }

  lemma AdvanceNews(body: Body, s: Sys)
    requires Inv(body, s) && CanAdvance(body, s)
    ensures NewsIsOwn(body, DoAdvance(body, s), DoAdvance(body, s).pass.value)
  {
    hide DealtWith, Asked, Accounted, BranchesFit, Values;
    forall k ensures DealtWith(body, s.pass.value, k) ==> DealtWith(body, DoAdvance(body, s).pass.value, k) {
      if DealtWith(body, s.pass.value, k) {
        AdvanceDealt(body, s, k);
      }
    }
  }

  lemma AdvanceDealt(body: Body, s: Sys, k: Key)
    requires CanAdvance(body, s) && |s.pass.value.branches| == BranchCount(body, s.pass.value.history)
    requires DealtWith(body, s.pass.value, k)
    ensures DealtWith(body, DoAdvance(body, s).pass.value, k)
  {
    var p, p' := s.pass.value, DoAdvance(body, s).pass.value;
    assert Front(p'.history) == p.history;
    assert RequestedBefore(body, p'.history) == KeysAt(body, p.history).after.requested;
  }

  lemma EndKeeps(body: Body, s: Sys)
    requires Inv(body, s) && s.pass.Some?
    ensures Inv(body, EndPass(body, s))
  {
  }

  /** An event that neither records a step nor counts as a failure leaves a parked run as it is. */
  lemma QuietKeeps(body: Body, s: Sys, e: Event)
    requires Inv(body, s) && s.pass.None?
    requires !e.StepCompleted? && !e.StepFailed? && !e.GateResolved? && (e.RunCompleted? ==> s.returned != [])
    ensures Inv(body, Append(s, e))
  {
    var s' := Append(s, e);
    AppendCounts(s.log, e);
    LogGrows(s.log, e);
    AskedKept(body, s, s');
    ReturnedKept(body, s, s');
  }

  lemma FinishKeeps(body: Body, s: Sys, ref: Option<Uuid>)
    requires Inv(body, s) && CanFinish(body, s)
    ensures Inv(body, DoFinish(body, s, ref))
  {
    var output := body(s.pass.value.history).output;
    assert Yields(body, s.log, output);
    EndKeeps(body, s);
    var done := EndPass(body, s).(returned := s.returned + [output]);
    assert Inv(body, done);
    QuietKeeps(body, done, RunCompleted(ref));
  }

  lemma StopKeeps(body: Body, s: Sys, error: Error, failedStep: Key)
    requires Inv(body, s) && s.pass.Some?
    ensures Inv(body, Append(EndPass(body, s), RunFailed(error, failedStep)))
    ensures Inv(body, DoReject(body, s, failedStep))
  {
    EndKeeps(body, s);
    QuietKeeps(body, EndPass(body, s), RunFailed(error, failedStep));
    QuietKeeps(body, EndPass(body, s), RunFailed(map["type" := "NonDeterminismError"], failedStep));
  }

  lemma CutKeeps(body: Body, s: Sys)
    requires Inv(body, s) && s.pass.Some?
    ensures Inv(body, DoCut(body, s))
  {
    EndKeeps(body, s);
  }

  // ----- a branch moves -----

  /** A branch moves on without news in the log. */
  lemma BranchKeeps(body: Body, s: Sys, i: nat, b: Branch)
    requires Inv(body, s) && Has(body, s, i) && !b.Todo? && !b.Invoked? && !BranchOf(body, s, i).Invoked?
    requires BranchFits(s.log, KeyOf(body, s, i), CallOf(body, s, i), b)
    ensures Inv(body, SetBranch(s, i, b))
  {
    hide Results, Decisions, Completions, Failures, Resolutions, Replays, InFlight, RecordedOnce, Numbered, Yields;
    hide AskedAs, OnTheWay, BranchesFit, NewsIsOwn, BranchFits;
    PassKept(body, s, i, b, s.log);
    InFlightSet(body, s, i, b);
    assert SetBranch(s, i, b).(log := s.log) == SetBranch(s, i, b);
  }

  lemma HitKeeps(body: Body, s: Sys, i: nat)
    requires Inv(body, s) && CanHit(body, s, i)
    ensures Inv(body, DoHit(body, s, i))
  {
    BranchKeeps(body, s, i, Done(Remembered(body, s, i).value));
  }

  lemma DiesKeeps(body: Body, s: Sys, i: nat, error: Error)
    requires Inv(body, s) && Missed(body, s, i)
    ensures Inv(body, SetBranch(s, i, Dead(error, false)))
  {
    BranchKeeps(body, s, i, Dead(error, false));
  }

  lemma ObserveKeeps(body: Body, s: Sys, i: nat)
    requires Inv(body, s) && CanObserve(body, s, i, false)
    ensures Inv(body, DoObserve(body, s, i))
  {
    hide Inv, Replays, Decisions, KeysAt, InFlight;
    CompletionsAreResults(s.log, KeyOf(body, s, i));
    BranchKeeps(body, s, i, Done(Results(s.log)[KeyOf(body, s, i)]));
  }

  lemma BranchFitsNow(body: Body, s: Sys, i: nat)
    requires Inv(body, s) && Has(body, s, i)
    ensures BranchFits(s.log, KeyOf(body, s, i), CallOf(body, s, i), BranchOf(body, s, i))
  {
  }

  lemma InvokeAccounts(body: Body, s: Sys, i: nat)
    requires Inv(body, s) && IsAt(body, s, i, false)
    ensures Accounted(body, DoInvoke(body, s, i))
  {
    InFlightSet(body, s, i, Invoked(BranchOf(body, s, i).attempt));
    assert InFlight(body, DoInvoke(body, s, i)) == InFlight(body, s) + {KeyOf(body, s, i)};
  }

  lemma InvokeKeeps(body: Body, s: Sys, i: nat)
    requires Inv(body, s) && IsAt(body, s, i, false)
    ensures Inv(body, DoInvoke(body, s, i))
  {
    var b := Invoked(BranchOf(body, s, i).attempt);
    BranchFitsNow(body, s, i);
    PassKept(body, s, i, b, s.log);
    InvokeAccounts(body, s, i);
  }

  /** A branch moves on with an event: a handler call that was in flight turns into its outcome. */
  lemma BranchAccounts(body: Body, s: Sys, i: nat, b: Branch, e: Event)
    requires Accounted(body, s) && Has(body, s, i) && !b.Invoked?
    requires BranchOf(body, s, i).Invoked? <==> e.StepCompleted? || e.StepFailed?
    requires e.StepCompleted? || e.StepFailed? ==> e.stepKey == KeyOf(body, s, i)
    ensures Accounted(body, Append(SetBranch(s, i, b), e))
  {
    AppendCounts(s.log, e);
    InFlightSet(body, s, i, b);
    InFlightAppend(body, SetBranch(s, i, b), e);
  }

  /** A branch moves on and commits an event about its own step. */
  lemma BranchLogs(body: Body, s: Sys, i: nat, b: Branch, e: Event)
    requires Inv(body, s) && Has(body, s, i) && !b.Todo? && !b.Invoked?
    requires Fresh(s.log, e) && !e.RunCompleted?
    requires BranchOf(body, s, i).Invoked? <==> e.StepCompleted? || e.StepFailed?
    requires e.StepCompleted? || e.StepFailed? ==> e.stepKey == KeyOf(body, s, i) && !CallOf(body, s, i).kind.Gate?
    requires BranchFits(s.log + [e], KeyOf(body, s, i), CallOf(body, s, i), b)
    ensures Inv(body, Append(SetBranch(s, i, b), e))
  {
    hide Asked, Accounted, InFlight, OnTheWay, NewsIsOwn, BranchesFit, BranchFits, Extends, Yields;
    hide RecordedOnce, Numbered, Fresh;
    var key, s' := KeyOf(body, s, i), Append(SetBranch(s, i, b), e);
    AppendCounts(s.log, e);
    LogGrows(s.log, e);
    PassKept(body, s, i, b, s.log + [e]);
    BranchAccounts(body, s, i, b, e);
    ReturnedKept(body, s, s');
    BranchAsked(body, s, i);
    if e.StepCompleted? {
      assert AskedCheckpoint(body, s.log, key);
      AskedRecorded(body, s, s', key);
    } else {
      AskedKept(body, s, s');
    }
  }

  lemma InFlightAppend(body: Body, s: Sys, e: Event)
    ensures InFlight(body, Append(s, e)) == InFlight(body, s)
  {
  }

  lemma AttemptKeeps(body: Body, s: Sys, i: nat)
    requires Inv(body, s) && CanAttempt(body, s, i)
    ensures Inv(body, DoAttempt(body, s, i))
  {
    BranchFitsNow(body, s, i);
    if BranchOf(body, s, i).Todo? {
      MissIsFresh(body, s, i);
    }
    AppendCounts(s.log, StartEvent(body, s, i));
    BranchLogs(body, s, i, Started(NextAttempt(body, s, i)), StartEvent(body, s, i));
  }

  /** The outcome of a handler call is committed. */
  lemma OutcomeKeeps(body: Body, s: Sys, i: nat, b: Branch, e: Event)
    requires Inv(body, s) && Has(body, s, i) && BranchOf(body, s, i).Invoked?
    requires e.StepCompleted? || (e.StepFailed? && e.attempt == BranchOf(body, s, i).attempt)
    requires e.stepKey == KeyOf(body, s, i)
    requires if e.StepCompleted? then b == Done(e.result) else b.Dead? || b == Waiting(e.attempt + 1)
    ensures Inv(body, Append(SetBranch(s, i, b), e))
  {
    hide Inv;
    BranchFitsNow(body, s, i);
    AppendCounts(s.log, e);
    BranchLogs(body, s, i, b, e);
  }

  lemma CompleteKeeps(body: Body, s: Sys, i: nat, value: Value)
    requires Inv(body, s) && IsAt(body, s, i, true)
    ensures Inv(body, DoComplete(body, s, i, value))
  {
    OutcomeKeeps(body, s, i, Done(value), StepCompleted(KeyOf(body, s, i), value));
  }

  lemma FailKeeps(body: Body, s: Sys, i: nat, error: Error, retryable: bool)
    requires Inv(body, s) && IsAt(body, s, i, true)
    ensures Inv(body, DoFail(body, s, i, error, retryable))
  {
    var e := FailEvent(body, s, i, error, retryable);
    OutcomeKeeps(body, s, i, if e.willRetry then Waiting(e.attempt + 1) else Dead(error, true), e);
  }

  // ----- suspending steps -----

  /** A live pass still fits when the log gets an event that records and fails nothing, or a
      waker's verdict. */
  lemma PassUndisturbed(body: Body, s: Sys, e: Event, woken: multiset<Key>)
    requires Inv(body, s) && s.pass.Some? && Fresh(s.log, e) && s.woken <= woken
    requires e.StepCompleted? || e.StepFailed? ==>
      && e.stepKey in woken
      && (AskedAs(body, s.log, e.stepKey, Sleep) || AskedAs(body, s.log, e.stepKey, Child))
    ensures var log := s.log + [e];
      && OnTheWay(body, log, s.pass.value) && BranchesFit(body, log, s.pass.value)
      && NewsIsOwn(body, s.(log := log, woken := woken), s.pass.value)
  {
    hide BranchesFit, NewsIsOwn, Asked, AskedAs, Accounted, Yields, Replays, Extends, Fresh, RecordedOnce, Numbered;
    var p, log := s.pass.value, s.log + [e];
    LogGrows(s.log, e);
    ExtendsTransitive(p.seen, s.log, log);
    ReplayGrows(body, s.log, log, p.history);
    BranchesUndisturbed(body, s, e);
    NewsUndisturbed(body, s, e, woken);
  }

  lemma NewsUndisturbed(body: Body, s: Sys, e: Event, woken: multiset<Key>)
    requires s.pass.Some? && NewsIsOwn(body, s, s.pass.value) && s.woken <= woken
    requires e.StepCompleted? || e.StepFailed? ==> e.stepKey in woken
    ensures NewsIsOwn(body, s.(log := s.log + [e], woken := woken), s.pass.value)
  {
    hide DealtWith;
    AppendCounts(s.log, e);
  }

  lemma BranchUndisturbed(log: Log, e: Event, key: Key, call: Call, b: Branch)
    requires BranchFits(log, key, call, b) && RecordedOnce(log) && Numbered(log) && Fresh(log, e)
    requires (e.StepCompleted? || e.StepFailed?) && e.stepKey == key ==> !IsHandled(call.kind)
    ensures BranchFits(log + [e], key, call, b)
  {
    hide Numbered, RecordedOnce, Results, Decisions, Failures, Completions, Resolutions;
    AppendCounts(log, e);
  }

  lemma BranchesUndisturbed(body: Body, s: Sys, e: Event)
    requires Inv(body, s) && s.pass.Some? && Fresh(s.log, e)
    requires e.StepCompleted? || e.StepFailed? ==>
               AskedAs(body, s.log, e.stepKey, Sleep) || AskedAs(body, s.log, e.stepKey, Child)
    ensures BranchesFit(body, s.log + [e], s.pass.value)
  {
    hide Asked, Accounted, NewsIsOwn, Numbered, AskedAs, BranchFits, Fresh, RecordedOnce;
    var p := s.pass.value;
    var r, calls := KeysAt(body, p.history), CallsAt(body, p.history);
    if r.Allocated? && |p.branches| == |r.keys| {
      forall j | 0 <= j < |r.keys| ensures BranchFits(s.log + [e], r.keys[j], calls[j], p.branches[j]) {
        if (e.StepCompleted? || e.StepFailed?) && e.stepKey == r.keys[j] {
          assert AsksAt(body, s.log, p.history, j, r.keys[j], calls[j]);
          WokenNotHandled(body, s.log, e.stepKey, calls[j]);
        }
        BranchUndisturbed(s.log, e, r.keys[j], calls[j], p.branches[j]);
      }
    }
  }

  lemma WokenNotHandled(body: Body, log: Log, key: Key, call: Call)
    requires AskedAs(body, log, key, Sleep) || AskedAs(body, log, key, Child)
    requires Asks(body, log, key, call)
    ensures !IsHandled(call.kind) && !call.kind.Gate?
  {
    var kind := if AskedAs(body, log, key, Sleep) then Sleep else Child;
    var other: Call :| other.kind == kind && Asks(body, log, key, other);
    AsksOnce(body, log, key, call, other);
  }

  /** The log gets an event that is no news to the accounts, while a pass may be live. */
  lemma PendingKeeps(body: Body, s: Sys, e: Event, woken: multiset<Key>)
    requires Inv(body, s) && Fresh(s.log, e) && s.woken <= woken
    requires woken == s.woken + if e.StepCompleted? || e.StepFailed? then multiset{e.stepKey} else multiset{}
    requires e.StepCompleted? || e.StepFailed? ==>
               AskedAs(body, s.log, e.stepKey, Sleep) || AskedAs(body, s.log, e.stepKey, Child)
    requires !e.RunCompleted?
    ensures Inv(body, Append(s, e).(woken := woken))
  {
    var s' := Append(s, e).(woken := woken);
    LogGrows(s.log, e);
    if s.pass.Some? {
      PassUndisturbed(body, s, e, woken);
    }
    PendingAsked(body, s, e, woken);
    PendingAccounts(body, s, e, woken);
    ReturnedKept(body, s, s');
  }

  lemma PendingAccounts(body: Body, s: Sys, e: Event, woken: multiset<Key>)
    requires Accounted(body, s)
    requires woken == s.woken + if e.StepCompleted? || e.StepFailed? then multiset{e.stepKey} else multiset{}
    ensures Accounted(body, Append(s, e).(woken := woken))
  {
    AppendCounts(s.log, e);
    assert InFlight(body, Append(s, e).(woken := woken)) == InFlight(body, s);
  }

  lemma PendingAsked(body: Body, s: Sys, e: Event, woken: multiset<Key>)
    requires Asked(body, s) && Extends(s.log, s.log + [e])
    requires woken == s.woken + if e.StepCompleted? || e.StepFailed? then multiset{e.stepKey} else multiset{}
    requires e.StepCompleted? || e.StepFailed? ==>
               AskedAs(body, s.log, e.stepKey, Sleep) || AskedAs(body, s.log, e.stepKey, Child)
    ensures Asked(body, Append(s, e).(woken := woken))
  {
    var s' := Append(s, e).(woken := woken);
    AppendCounts(s.log, e);
    if e.StepCompleted? || e.StepFailed? {
      assert AskedCheckpoint(body, s.log, e.stepKey) by {
        var kind := if AskedAs(body, s.log, e.stepKey, Sleep) then Sleep else Child;
        var call: Call :| call.kind == kind && Asks(body, s.log, e.stepKey, call);
      }
      AskedRecorded(body, s, s', e.stepKey);
    } else {
      AskedKept(body, s, s');
    }
  }

  lemma ArmedKeeps(body: Body, s: Sys, armed: set<Key>, children: set<Key>)
    requires Inv(body, s)
    requires forall k :: k in armed ==> k in s.armed || AskedAs(body, s.log, k, Sleep)
    requires forall k :: k in children ==> k in s.children || AskedAs(body, s.log, k, Child)
    ensures Inv(body, s.(armed := armed, children := children))
  {
    assert InFlight(body, s.(armed := armed, children := children)) == InFlight(body, s);
  }

  lemma ArmKeeps(body: Body, s: Sys, i: nat, artifact: Uuid)
    requires Inv(body, s) && CanArm(body, s, i)
    ensures Inv(body, DoArm(body, s, i, artifact))
  {
    hide KeysAt, CallsAt, Inv;
    var key, call := KeyOf(body, s, i), CallOf(body, s, i);
    BranchAsked(body, s, i);
    assert AskedAs(body, s.log, key, call.kind);
    BranchKeeps(body, s, i, Parked);
    if call.kind.Sleep? {
      ArmedKeeps(body, SetBranch(s, i, Parked), s.armed + {key}, s.children);
    } else if !call.kind.Gate? {
      ArmedKeeps(body, SetBranch(s, i, Parked), s.armed, s.children + {key});
    } else if !IsOpened(s.log, key) {
      BranchLogs(body, s, i, Parked, GateOpened(key, call.name, artifact));
    }
  }

  lemma AutoApproveKeeps(body: Body, s: Sys, i: nat, gateKey: string)
    requires Inv(body, s) && CanAutoApprove(body, s, i)
    ensures Inv(body, DoAutoApprove(body, s, i, gateKey))
  {
    hide Inv, Results, Decisions, Completions, Resolutions, Replays;
    var key := KeyOf(body, s, i);
    var e := GateResolved(key, gateKey, Approved, "auto");
    ResolutionsAreDecisions(s.log, key);
    AppendCounts(s.log, e);
    BranchLogs(body, s, i, Done(DecisionValue(Approved)), e);
  }

  // ----- wakers and cancellation -----

  lemma FireKeeps(body: Body, s: Sys, key: Key)
    requires Inv(body, s) && key in s.armed
    ensures Inv(body, DoFire(s, key))
  {
    var fired := s.(armed := s.armed - {key});
    assert fired == s.(armed := s.armed - {key}, children := s.children);
    ArmedKeeps(body, s, s.armed - {key}, s.children);
    CompletionsAreResults(s.log, key);
    if !IsCompleted(s.log, key) {
      PendingKeeps(body, fired, StepCompleted(key, SLEPT), s.woken + multiset{key});
    }
  }

  lemma ResolveKeeps(body: Body, s: Sys, e: Event)
    requires Inv(body, s) && e.GateResolved? && CanResolve(s, e.stepKey)
    ensures Inv(body, Append(s, e))
  {
    ResolutionsAreDecisions(s.log, e.stepKey);
    PendingKeeps(body, s, e, s.woken);
  }

  lemma SettleKeeps(body: Body, s: Sys, e: Event)
    requires e.StepCompleted? || (e.StepFailed? && e.attempt == Failures(s.log)[e.stepKey] + 1)
    requires Inv(body, s) && CanSettle(s, e.stepKey)
    ensures Inv(body, DoSettle(s, e))
  {
    CompletionsAreResults(s.log, e.stepKey);
    PendingKeeps(body, s, e, s.woken + multiset{e.stepKey});
  }

  lemma CancelKeeps(body: Body, s: Sys, actor: string, reason: string)
    requires Inv(body, s)
    ensures Inv(body, Append(s, RunCancelled(actor, reason)).(armed := {}))
  {
    PendingKeeps(body, s, RunCancelled(actor, reason), s.woken);
    ArmedKeeps(body, Append(s, RunCancelled(actor, reason)), {}, s.children);
  }

  // ----- every step, every run -----

  lemma BranchStepKeeps(body: Body, s: Sys, step: Step)
    requires Inv(body, s) && Enabled(body, s, step)
    requires step.Hit? || step.Refuse? || step.Attempt? || step.Invoke? || step.Complete? || step.Fail?
    ensures Inv(body, Do(body, s, step))
  {
    hide Inv;
    match step
    case Hit(i) => HitKeeps(body, s, i);
    case Refuse(i, error) => DiesKeeps(body, s, i, error);
    case Attempt(i) => AttemptKeeps(body, s, i);
    case Invoke(i) => InvokeKeeps(body, s, i);
    case Complete(i, value) => CompleteKeeps(body, s, i, value);
    case Fail(i, error, retryable) => FailKeeps(body, s, i, error, retryable);
  }

  lemma SuspendStepKeeps(body: Body, s: Sys, step: Step)
    requires Inv(body, s) && Enabled(body, s, step)
    requires step.Announce? || step.Arm? || step.Observe? || step.ChildFailed? || step.AutoApprove?
    ensures Inv(body, Do(body, s, step))
  {
    hide Inv;
    match step
    case Announce(i) => PendingKeeps(body, s, StartEvent(body, s, i), s.woken);
    case Arm(i, artifact) => ArmKeeps(body, s, i, artifact);
    case Observe(i) => ObserveKeeps(body, s, i);
    case ChildFailed(i, error) => DiesKeeps(body, s, i, error);
    case AutoApprove(i, gateKey) => AutoApproveKeeps(body, s, i, gateKey);
  }

  lemma PassStepKeeps(body: Body, s: Sys, step: Step)
    requires Inv(body, s) && Enabled(body, s, step)
    requires step.Begin? || step.Advance? || step.Finish? || step.FailRun? || step.Reject? || step.Cut?
    ensures Inv(body, Do(body, s, step))
  {
    hide Inv;
    match step
    case Begin => BeginKeeps(body, s);
    case Advance => AdvanceKeeps(body, s);
    case Finish(ref) => FinishKeeps(body, s, ref);
    case FailRun(error, failedStep) => StopKeeps(body, s, error, failedStep);
    case Reject(failedStep) => StopKeeps(body, s, map[], failedStep);
    case Cut => CutKeeps(body, s);
  }

  lemma WakerStepKeeps(body: Body, s: Sys, step: Step)
    requires Inv(body, s) && Enabled(body, s, step)
    requires step.Orphan? || step.Fire? || step.Resolve? || step.Expire? || step.SettleDone? || step.SettleFailed?
               || step.Cancel?
    ensures Inv(body, Do(body, s, step))
  {
    hide Inv, DoHit, DoAttempt, DoInvoke, DoComplete, DoFail, DoArm, DoObserve, DoAutoApprove, DoAdvance;
    hide DoFinish, DoReject, DoCut, StartEvent, CanHit, CanAttempt, CanSuspend, CanArm, CanObserve;
    hide CanAutoApprove, CanAdvance, CanFinish, CanFail, CanReject, Missed, IsAt, Has, IsCompleted, IsFailed;
    hide CanResolve, DoFire, DoSettle, Failures, Project;
    match step
    case Orphan(error, failedStep) => PendingKeeps(body, s, RunFailed(error, failedStep), s.woken);
    case Fire(key) => FireKeeps(body, s, key);
    case Resolve(key, gateKey, decision, actor) => ResolveKeeps(body, s, GateResolved(key, gateKey, decision, actor));
    case Expire(key, error) => PendingKeeps(body, s, RunFailed(error, key), s.woken);
    case SettleDone(key, value) => SettleKeeps(body, s, StepCompleted(key, value));
    case SettleFailed(key, error) => SettleKeeps(body, s, StepFailed(key, error, Failures(s.log)[key] + 1, false));
    case Cancel(actor, reason) => CancelKeeps(body, s, actor, reason);
  }

  /** Every step of the system, from any state that satisfies the invariant, leads to one. */
  lemma StepKeeps(body: Body, s: Sys, step: Step)
    requires Inv(body, s) && Enabled(body, s, step)
    ensures Inv(body, Do(body, s, step))
  {
    hide Inv, Do, Enabled;
    if step.Hit? || step.Refuse? || step.Attempt? || step.Invoke? || step.Complete? || step.Fail? {
      BranchStepKeeps(body, s, step);
    } else if step.Announce? || step.Arm? || step.Observe? || step.ChildFailed? || step.AutoApprove? {
      SuspendStepKeeps(body, s, step);
    } else if step.Begin? || step.Advance? || step.Finish? || step.FailRun? || step.Reject? || step.Cut? {
      PassStepKeeps(body, s, step);
    } else {
      WakerStepKeeps(body, s, step);
    }
  }

  /** The starts of a run record nothing. */
  lemma {:induction false} StartsRecordNothing(log: Log)
    requires forall e :: e in log ==> e.RunStarted?
    ensures Results(log) == map[] && Decisions(log) == map[] && Failures(log) == multiset{}
    ensures Completions(log) == multiset{} && Resolutions(log) == multiset{} && Numbered(log)
    ensures var p := Project(log); p == BLANK.(name := p.name, version := p.version, input := p.input)
  {
    if log != [] {
      assert log == Front(log) + [Last(log)];
      StartsRecordNothing(Front(log));
      AppendCounts(Front(log), Last(log));
      ProjectAppend(Front(log), Last(log));
    }
  }

  lemma InitialInv(body: Body, starts: Log)
    requires AllStarts(starts)
    ensures Inv(body, Initial(starts))
  {
    StartsRecordNothing(starts);
  }

  /** Every state of every run satisfies the invariant. */
  lemma {:induction false} RunKeeps(body: Body, s: Sys, steps: seq<Step>)
    requires Inv(body, s) && Runs(body, s, steps)
    ensures Inv(body, After(body, s, steps))
    decreases |steps|
  {
    if steps != [] {
      StepKeeps(body, s, steps[0]);
      RunKeeps(body, Do(body, s, steps[0]), steps[1..]);
    }
  }
}
