/** A one-step body whose pass is cut between its final step_failed and its run_failed. */
module DurableExamples {
  import opened Prelude
  import opened Keys
  import opened Events
  import opened Program
  import opened Durable
  import opened DurableInvariant
  import opened DurableTheorems
  import opened DurableRetry

  const STEP: Call := Call("a", Skill, 1)

  function OneStep(): Body {
    h => if h == [] then Await([STEP]) else Return("done")
  }

  lemma Begins(body: Body, s: Sys)
    requires Reachable(body, s) && CanBegin(s)
    ensures Reachable(body, s.(pass := Some(NewPass(body, s.log))))
  {
    hide Reachable;
    ReachableNext(body, s, Begin);
  }

  lemma StartsAndInvokes(body: Body, s: Sys, i: nat)
    requires Reachable(body, s) && CanAttempt(body, s, i)
    ensures IsAt(body, DoAttempt(body, s, i), i, false) && Reachable(body, DoInvoke(body, DoAttempt(body, s, i), i))
  {
    hide Reachable;
    ReachableNext(body, s, Attempt(i));
    ReachableNext(body, DoAttempt(body, s, i), Invoke(i));
  }

  lemma Fails(body: Body, s: Sys, i: nat, error: Error, retryable: bool)
    requires Reachable(body, s) && IsAt(body, s, i, true)
    ensures Reachable(body, DoFail(body, s, i, error, retryable))
    ensures Reachable(body, DoCut(body, DoFail(body, s, i, error, retryable)))
  {
    hide Reachable;
    ReachableNext(body, s, Fail(i, error, retryable));
    ReachableNext(body, DoFail(body, s, i, error, retryable), Cut);
  }

  lemma CompletesStep(body: Body, s: Sys, i: nat, value: Value)
    requires Reachable(body, s) && IsAt(body, s, i, true)
    ensures Reachable(body, DoComplete(body, s, i, value))
    ensures CanAdvance(body, DoComplete(body, s, i, value)) ==>
              Reachable(body, DoAdvance(body, DoComplete(body, s, i, value)))
  {
    hide Reachable;
    ReachableNext(body, s, Complete(i, value));
    if CanAdvance(body, DoComplete(body, s, i, value)) {
      ReachableNext(body, DoComplete(body, s, i, value), Advance);
    }
  }

  lemma OneStepKeys()
    ensures KeysAt(OneStep(), []) == Allocated(["a"], Allocator(map["a" := 1], {"a"}))
    ensures CallsAt(OneStep(), []) == [STEP]
  {
    assert Front([STEP]) == [];
    assert AllocateAll(FRESH, []) == Allocated([], FRESH);
    assert StepKey("a", 1) == "a";
  }

  ghost predicate Quiet(log: Log) {
    forall e :: e in log ==> e.RunStarted? || e.StepStarted? || e.StepFailed?
  }

  lemma QuietHasNothing(log: Log)
    requires Quiet(log)
    ensures Results(log) == map[] && !WasCancelled(log) && !HasEnded(log) && !Project(log).status.Completed?
  {
    if log != [] {
      QuietHasNothing(Front(log));
      assert Last(log) in log;
    }
  }

  /** From a parked run with only failures behind it: the step is tried and fails for good. */
  lemma FailsOnce(s: Sys) returns (s': Sys)
    requires Reachable(OneStep(), s) && s.pass.None? && Quiet(s.log)
    ensures Reachable(OneStep(), s') && IsAt(OneStep(), s', 0, true) && KeyOf(OneStep(), s', 0) == "a"
              && CallOf(OneStep(), s', 0) == STEP
    ensures s'.pass.value.history == [] && s'.pass.value.branches == [Invoked(Failures(s.log)["a"] + 1)]
    ensures s'.pass.value.seen == s.log && s'.pass.value.seen <= s'.log && s'.returned == s.returned
    ensures Quiet(s'.log) && Failures(s'.log) == Failures(s.log) && s'.torn == s.torn
    ensures forall e :: e in s.log ==> e in s'.log
    ensures forall e :: e in s'.log && e.StepFailed? ==> e in s.log
  {
    hide Reachable, InFlight, CanAttempt, CanBegin;
    var body := OneStep();
    var s1 := s.(pass := Some(NewPass(body, s.log)));
    MissesStep(s);
    Begins(body, s);
    AppendCounts(s1.log, StartEvent(body, s1, 0));
    StartsAndInvokes(body, s1, 0);
    s' := DoInvoke(body, DoAttempt(body, s1, 0), 0);
  }

  /** A pass that begins on a log without results misses the step. */
  lemma MissesStep(s: Sys)
    requires s.pass.None? && Quiet(s.log)
    ensures CanBegin(s)
    ensures var s1 := s.(pass := Some(NewPass(OneStep(), s.log)));
      && CanAttempt(OneStep(), s1, 0) && KeyOf(OneStep(), s1, 0) == "a" && CallOf(OneStep(), s1, 0) == STEP
      && s1.pass.value.branches == [Todo] && NextAttempt(OneStep(), s1, 0) == Failures(s.log)["a"] + 1
  {
    OneStepKeys();
    QuietHasNothing(s.log);
    assert Enter(OneStep(), []) == [Todo];
  }

  lemma InitialReachable(body: Body, started: Event)
    requires started.RunStarted?
    ensures Reachable(body, Initial([started]))
  {
    assert AllStarts([started]);
    assert Runs(body, Initial([started]), []) && After(body, Initial([started]), []) == Initial([started]);
  }

  /** A reachable run, cut after a final failure, whose next failure breaks the accounts: the
      step's second step_failed is the attempt after its last. */
  lemma CutAfterFinalFailure() returns (s: Sys)
    ensures Reachable(OneStep(), s) && s.torn && !HasEnded(s.log) && IsAt(OneStep(), s, 0, true)
    ensures !RetriesRight(DoFail(OneStep(), s, 0, map[], true).log, KeyOf(OneStep(), s, 0),
              CallOf(OneStep(), s, 0).maxAttempts)
  {
    var body := OneStep();
    var started := RunStarted("w", "1", "{}", "user");
    hide Reachable, InFlight;
    var s0 := Initial([started]);
    InitialReachable(body, started);
    var s1 := FailsOnce(s0);
    var s3, e := FailsForGood(s1);
    s := FailsOnce(s3);
    QuietHasNothing(s.log);
    assert FailureOf(e, "a") && !e.willRetry;
    OneMoreEvent(s.log, FailEvent(body, s, 0, map[], true));
  }

  /** The final failure is committed, and the pass is cut before run_failed is. */
  lemma FailsForGood(s: Sys) returns (s': Sys, e: Event)
    requires Reachable(OneStep(), s) && Quiet(s.log) && s.pass.Some?
    requires s.pass.value.history == [] && s.pass.value.branches == [Invoked(Failures(s.log)["a"] + 1)]
    ensures Reachable(OneStep(), s') && s'.pass.None? && s'.torn && s'.log == s.log + [e] && Quiet(s'.log)
    ensures FailureOf(e, "a") && !e.willRetry
  {
    e := FinalFailure(s);
    hide *;
    Fails(OneStep(), s, 0, map[], true);
    s' := DoCut(OneStep(), DoFail(OneStep(), s, 0, map[], true));
    TornByCut(DoFail(OneStep(), s, 0, map[], true));
  }

  lemma FinalFailure(s: Sys) returns (e: Event)
    requires Quiet(s.log) && s.pass.Some?
    requires s.pass.value.history == [] && s.pass.value.branches == [Invoked(Failures(s.log)["a"] + 1)]
    ensures IsAt(OneStep(), s, 0, true) && FailureOf(e, "a") && !e.willRetry
    ensures var s' := DoFail(OneStep(), s, 0, map[], true);
            s'.log == s.log + [e] && Quiet(s'.log) && s'.pass.Some? && s'.pass.value.branches == [Dead(map[], true)]
  {
    hide Failures, RequestedBefore;
    OneStepKeys();
    assert Has(OneStep(), s, 0) && KeyOf(OneStep(), s, 0) == "a" && CallOf(OneStep(), s, 0) == STEP;
    e := FailEvent(OneStep(), s, 0, map[], true);
  }

  lemma TornByCut(s: Sys)
    requires Quiet(s.log) && s.pass.Some? && s.pass.value.branches == [Dead(map[], true)]
    ensures DoCut(OneStep(), s).torn && DoCut(OneStep(), s).log == s.log && DoCut(OneStep(), s).pass.None?
  {
    hide InFlight;
    assert forall e :: e in s.log ==> !e.EndsRun();
    assert s.pass.value.branches[0] in s.pass.value.branches;
  }

  /** Runs do return: one completion ends the run above with its value. */
  lemma RunsReturn() returns (s: Sys)
    ensures Reachable(OneStep(), s) && s.returned == ["done"]
  {
    var body := OneStep();
    var started := RunStarted("w", "1", "{}", "user");
    var s0 := Initial([started]);
    assert Runs(body, s0, []) && After(body, s0, []) == s0;
    var s1 := FailsOnce(s0);
    s := Completes(s1);
  }

  lemma Completes(s: Sys) returns (s': Sys)
    requires Reachable(OneStep(), s) && Quiet(s.log) && s.pass.Some? && s.pass.value.seen <= s.log
    requires s.pass.value.history == [] && s.pass.value.branches == [Invoked(Failures(s.log)["a"] + 1)]
    ensures Reachable(OneStep(), s') && s'.returned == s.returned + ["done"]
  {
    hide Reachable, Runs, After, InFlight, Inv;
    var body := OneStep();
    OneStepKeys();
    assert IsAt(body, s, 0, true) && KeyOf(body, s, 0) == "a";
    var s2 := DoComplete(body, s, 0, "ok");
    CompletesStep(body, s, 0, "ok");
    assert s2.pass.value.branches == [Done("ok")] && s2.pass.value.history == [];
    var s3 := DoAdvance(body, s2);
    assert body(s3.pass.value.history) == Return("done");
    s' := Finishes(s3);
  }

  lemma Finishes(s: Sys) returns (s': Sys)
    requires Reachable(OneStep(), s) && s.pass.Some? && OneStep()(s.pass.value.history) == Return("done")
    ensures Reachable(OneStep(), s') && s'.returned == s.returned + ["done"]
  {
    hide Reachable, InFlight, Inv;
    ReachableInv(OneStep(), s);
    NothingLeftOver(OneStep(), s);
    s' := Do(OneStep(), s, Finish(None));
    ReachableNext(OneStep(), s, Finish(None));
  }
}
