/** What the invariant gives for whole runs: any schedule of passes, cut anywhere, with any
    interleaving of parallel branches and wakers. */
module DurableTheorems {
  import opened Prelude
  import opened Keys
  import opened Events
  import opened Program
  import opened Durable
  import opened DurableInvariant
  import opened DurableSteps

  ghost predicate Reachable(body: Body, s: Sys) {
    exists starts: Log, steps ::
      AllStarts(starts) && Runs(body, Initial(starts), steps) && s == After(body, Initial(starts), steps)
  }

  lemma ReachableInv(body: Body, s: Sys)
    requires Reachable(body, s)
    ensures Inv(body, s)
  {
    var starts: Log, steps :|
      AllStarts(starts) && Runs(body, Initial(starts), steps) && s == After(body, Initial(starts), steps);
    InitialInv(body, starts);
    RunKeeps(body, Initial(starts), steps);
  }

  lemma {:induction false} RunsOn(body: Body, s: Sys, steps: seq<Step>, step: Step)
    requires Runs(body, s, steps) && Enabled(body, After(body, s, steps), step)
    ensures Runs(body, s, steps + [step]) && After(body, s, steps + [step]) == Do(body, After(body, s, steps), step)
    decreases |steps|
  {
    var more := steps + [step];
    if steps != [] {
      RunsOn(body, Do(body, s, steps[0]), steps[1..], step);
      assert more[0] == steps[0] && more[1..] == steps[1..] + [step];
    } else {
      assert more[0] == step && more[1..] == [];
    }
  }

  lemma ReachableNext(body: Body, s: Sys, step: Step)
    requires Reachable(body, s) && Enabled(body, s, step)
    ensures Reachable(body, Do(body, s, step))
  {
    var starts: Log, steps :|
      AllStarts(starts) && Runs(body, Initial(starts), steps) && s == After(body, Initial(starts), steps);
    RunsOn(body, Initial(starts), steps, step);
  }

  /** A run of the system leads from one state to the other. */
  ghost predicate Leads(body: Body, s: Sys, s': Sys) {
    exists steps :: Runs(body, s, steps) && After(body, s, steps) == s'
  }

  lemma LeadsNowhere(body: Body, s: Sys)
    ensures Leads(body, s, s)
  {
    assert Runs(body, s, []) && After(body, s, []) == s;
  }

  lemma LeadsOn(body: Body, s: Sys, s': Sys, step: Step)
    requires Leads(body, s, s') && Enabled(body, s', step)
    ensures Leads(body, s, Do(body, s', step))
  {
    var steps :| Runs(body, s, steps) && After(body, s, steps) == s';
    RunsOn(body, s, steps, step);
  }

  lemma {:induction false} RunsReachable(body: Body, s: Sys, steps: seq<Step>)
    requires Reachable(body, s) && Runs(body, s, steps)
    ensures Reachable(body, After(body, s, steps))
    decreases |steps|
  {
    hide Reachable;
    if steps != [] {
      ReachableNext(body, s, steps[0]);
      RunsReachable(body, Do(body, s, steps[0]), steps[1..]);
    }
  }

  lemma LeadsReachable(body: Body, s: Sys, s': Sys)
    requires Reachable(body, s) && Leads(body, s, s')
    ensures Reachable(body, s')
  {
    var steps :| Runs(body, s, steps) && After(body, s, steps) == s';
    RunsReachable(body, s, steps);
  }

  // ----- completion -----

  /** However often a run is cut and resumed, every value it returns is the one its body
      evaluates to on the recorded results. */
  lemma OneOutput(body: Body, s: Sys, v: Value, v': Value)
    requires Reachable(body, s) && v in s.returned && v' in s.returned
    ensures v == v' && Yields(body, s.log, v)
  {
    ReachableInv(body, s);
    YieldsAgree(body, s.log, s.log, v, v');
  }

  /** A returned run has exactly one completion of every step its body asks for, and no other. */
  lemma CompletedExactlyOnce(body: Body, s: Sys, key: Key)
    requires Reachable(body, s) && s.returned != []
    ensures AskedCheckpoint(body, s.log, key) ==> Completions(s.log)[key] == 1
    ensures !AskedCheckpoint(body, s.log, key) ==> Completions(s.log)[key] == 0
    ensures AskedAs(body, s.log, key, Gate) ==> Resolutions(s.log)[key] == 1
  {
    ReachableInv(body, s);
    CompletionsAreResults(s.log, key);
    ResolutionsAreDecisions(s.log, key);
    assert s.returned[0] in s.returned;
    if AskedCheckpoint(body, s.log, key) {
      var call: Call :| !call.kind.Gate? && Asks(body, s.log, key, call);
      AllRecorded(body, s.log, s.returned[0], key, call);
    }
    if AskedAs(body, s.log, key, Gate) {
      var call: Call :| call.kind == Gate && Asks(body, s.log, key, call);
      AllRecorded(body, s.log, s.returned[0], key, call);
    }
  }

  /** The handler of a completed step was called once for its completion, once for each failure
      and once for each call whose outcome a cut or a cancelled sibling lost. */
  lemma HandlerCalls(body: Body, s: Sys, key: Key, call: Call)
    requires Reachable(body, s) && s.returned != []
    requires Asks(body, s.log, key, call) && IsHandled(call.kind)
    ensures s.invoked[key] == 1 + Failures(s.log)[key] + s.lost[key]
  {
    ReachableInv(body, s);
    CompletedExactlyOnce(body, s, key);
    assert AskedCheckpoint(body, s.log, key);
    NotSettledByWakers(body, s, key, call);
    NotInFlightOnceRecorded(body, s, key);
  }

  lemma NotSettledByWakers(body: Body, s: Sys, key: Key, call: Call)
    requires Inv(body, s) && Asks(body, s.log, key, call) && IsHandled(call.kind)
    ensures key !in s.woken
  {
    if key in s.woken {
      WokenNotHandled(body, s.log, key, call);
      assert false;
    }
  }

  lemma NotInFlightOnceRecorded(body: Body, s: Sys, key: Key)
    requires Inv(body, s) && key in Completions(s.log)
    ensures key !in InFlight(body, s)
  {
    CompletionsAreResults(s.log, key);
    if key in InFlight(body, s) {
      var p := s.pass.value;
      var i :| 0 <= i < |p.branches| && p.branches[i].Invoked? && KeysAt(body, p.history).keys[i] == key;
      BranchFitsNow(body, s, i);
      assert false;
    }
  }

  /** A checkpointed step is never started or called again. */
  lemma NoReexecution(body: Body, s: Sys, i: nat)
    requires Reachable(body, s)
    requires CanAttempt(body, s, i) || IsAt(body, s, i, false) || IsAt(body, s, i, true)
    ensures Completions(s.log)[KeyOf(body, s, i)] == 0
  {
    ReachableInv(body, s);
    CompletionsAreResults(s.log, KeyOf(body, s, i));
    BranchFitsNow(body, s, i);
    if Missed(body, s, i) && IsHandled(CallOf(body, s, i).kind) {
      MissIsFresh(body, s, i);
    }
  }

  // ----- gates -----

  /** No gate is opened twice, none is resolved twice or before it is opened. */
  ghost predicate GatesOnce(log: Log) {
    log == [] || (GatesOnce(Front(log)) && GateNext(Front(log), Last(log)))
  }

  ghost predicate GateNext(log: Log, e: Event) {
    && (e.GateOpened? ==> !IsOpened(log, e.stepKey))
    && (e.GateResolved? ==> IsOpened(log, e.stepKey) && !IsResolved(log, e.stepKey))
  }

  /** The gate events of a step come in their turn. */
  lemma StepAppends(body: Body, s: Sys, step: Step)
    requires Enabled(body, s, step)
    ensures AppendsInTurn(s.log, Do(body, s, step).log)
  {
    hide Enabled, Do, AppendsInTurn;
    if step.Arm? || step.AutoApprove? || step.Resolve? {
      GateStepAppends(body, s, step);
    } else if step.Attempt? || step.Complete? || step.Fail? || step.Announce? || step.Finish? || step.FailRun?
        || step.Reject? {
      ExecutorStepAppends(body, s, step);
    } else {
      OtherStepAppends(body, s, step);
    }
  }

  ghost predicate AppendsInTurn(log: Log, log': Log) {
    log' == log || (log' != [] && log' == log + [Last(log')] && GateNext(log, Last(log')))
  }

  lemma GateStepAppends(body: Body, s: Sys, step: Step)
    requires Enabled(body, s, step) && (step.Arm? || step.AutoApprove? || step.Resolve?)
    ensures AppendsInTurn(s.log, Do(body, s, step).log)
  {
    hide Results, Decisions, Failures, Project, KeysAt, CallsAt, InFlight, IsOpened, IsResolved, WasCancelled;
    hide IsCompleted, IsFailed;
  }

  lemma ExecutorStepAppends(body: Body, s: Sys, step: Step)
    requires Enabled(body, s, step)
    requires step.Attempt? || step.Complete? || step.Fail? || step.Announce? || step.Finish? || step.FailRun?
               || step.Reject?
    ensures AppendsInTurn(s.log, Do(body, s, step).log)
  {
    hide Results, Decisions, Failures, Project, KeysAt, CallsAt, InFlight, IsOpened, IsResolved, WasCancelled;
    hide IsCompleted, IsFailed;
  }

  lemma OtherStepAppends(body: Body, s: Sys, step: Step)
    requires Enabled(body, s, step) && !step.Arm? && !step.AutoApprove? && !step.Resolve?
    requires !step.Attempt? && !step.Complete? && !step.Fail? && !step.Announce? && !step.Finish? && !step.FailRun?
               && !step.Reject?
    ensures AppendsInTurn(s.log, Do(body, s, step).log)
  {
    hide Results, Decisions, Failures, Project, KeysAt, CallsAt, InFlight, IsOpened, IsResolved, WasCancelled;
    hide IsCompleted, IsFailed;
  }

  lemma {:induction false} RunsGatesOnce(body: Body, s: Sys, steps: seq<Step>)
    requires GatesOnce(s.log) && Runs(body, s, steps)
    ensures GatesOnce(After(body, s, steps).log)
    decreases |steps|
  {
    hide GateNext, Enabled, Do;
    if steps != [] {
      StepAppends(body, s, steps[0]);
      var s' := Do(body, s, steps[0]);
      if s'.log != s.log {
        assert Front(s'.log) == s.log;
      }
      RunsGatesOnce(body, s', steps[1..]);
    }
  }

  lemma {:induction false} StartsOpenNothing(log: Log)
    requires forall e :: e in log ==> e.RunStarted?
    ensures GatesOnce(log)
  {
    if log != [] {
      StartsOpenNothing(Front(log));
      assert Last(log) in log;
    }
  }

  /** Over any schedule, every gate is opened at most once and resolved at most once, after that. */
  lemma ReachableGates(body: Body, s: Sys)
    requires Reachable(body, s)
    ensures GatesOnce(s.log)
  {
    var starts: Log, steps :|
      AllStarts(starts) && Runs(body, Initial(starts), steps) && s == After(body, Initial(starts), steps);
    StartsOpenNothing(starts);
    RunsGatesOnce(body, Initial(starts), steps);
  }

  // ----- confluence -----

  /** Two runs of one body that both return, under any two schedules, interleavings and crashes,
      asked for the same steps, completed the same steps, and returned the same value, provided
      no step came out differently. */
  lemma Confluence(body: Body, s: Sys, s': Sys)
    requires Reachable(body, s) && Reachable(body, s') && s.returned != [] && s'.returned != []
    requires Agree(s.log, s'.log)
    ensures s.returned[0] == s'.returned[0]
    ensures Completions(s.log) == Completions(s'.log)
    ensures forall key, call :: Asks(body, s.log, key, call) <==> Asks(body, s'.log, key, call)
  {
    ReachableInv(body, s);
    ReachableInv(body, s');
    assert s.returned[0] in s.returned && s'.returned[0] in s'.returned;
    YieldsAgree(body, s.log, s'.log, s.returned[0], s'.returned[0]);
    forall key, call ensures Asks(body, s.log, key, call) <==> Asks(body, s'.log, key, call) {
      if Asks(body, s.log, key, call) {
        SameQuestions(body, s.log, s'.log, s.returned[0], s'.returned[0], key, call);
      }
      if Asks(body, s'.log, key, call) {
        SameQuestions(body, s'.log, s.log, s'.returned[0], s.returned[0], key, call);
      }
    }
    forall key ensures Completions(s.log)[key] == Completions(s'.log)[key] {
      CompletedExactlyOnce(body, s, key);
      CompletedExactlyOnce(body, s', key);
    }
  }

  lemma SameQuestions(body: Body, log: Log, log': Log, v: Value, v': Value, key: Key, call: Call)
    requires Agree(log, log') && Yields(body, log, v) && Yields(body, log', v') && Asks(body, log, key, call)
    ensures Asks(body, log', key, call)
  {
    YieldsAgree(body, log, log', v, v');
    var end :| Replays(body, log, end) && Replays(body, log', end) && body(end) == Return(v);
    var h, i :| AsksAt(body, log, h, i, key, call);
    Stops(body, log, log, end, h);
    ReplayDeterministic(body, log, h, end);
    ReplaysPrefix(body, log', end, |h|);
    assert AsksAt(body, log', h, i, key, call);
  }

  /** The keys of a list of steps are fixed by the list when it is built: the `i`-th gets its
      label's next ordinal after the requests before it, whatever completes first. */
  lemma {:induction false} KeysInListOrder(a: Allocator, calls: seq<Call>, i: nat)
    requires AllocateAll(a, calls).Allocated? && i < |calls|
    ensures AllocateAll(a, calls).keys[i] ==
            StepKey(calls[i].name, Ordinal(a, calls[i].name) + Earlier(calls, i, calls[i].name))
    decreases |calls|
  {
    hide StepKey, Ordinal;
    if i == |calls| - 1 {
      OrdinalAfter(a, Front(calls), calls[i].name);
      assert Earlier(Front(calls), |Front(calls)|, calls[i].name) == Earlier(calls, i, calls[i].name) by {
        EarlierInFront(calls, i, calls[i].name);
      }
    } else {
      KeysInListOrder(a, Front(calls), i);
      EarlierInFront(calls, i, calls[i].name);
    }
  }

  /** Whatever the order in which branches complete, and wherever the run was cut: the `i`-th value
      a body is handed for a list of steps is the one recorded for the list's `i`-th key. */
  lemma ResultsInListOrder(body: Body, s: Sys, n: nat, i: nat)
    requires Reachable(body, s) && s.pass.Some? && n < |s.pass.value.history|
    requires i < |s.pass.value.history[n]|
    ensures var h := s.pass.value.history;
            var r := KeysAt(body, h[..n]);
      && r.Allocated? && |h[n]| == |r.keys| == |CallsAt(body, h[..n])|
      && Recorded(s.log, r.keys[i], CallsAt(body, h[..n])[i].kind) == Some(h[n][i])
  {
    hide Inv, KeysAt, CallsAt, Recorded, Results, Decisions;
    ReachableInv(body, s);
    var h := s.pass.value.history;
    PassReplays(body, s);
    ReplaysPrefix(body, s.log, h, n);
    ReplayReceives(body, s.log, h[..n], h);
  }

  lemma PassReplays(body: Body, s: Sys)
    requires Inv(body, s) && s.pass.Some?
    ensures Replays(body, s.log, s.pass.value.history)
  {
  }

  /** How many of the first `n` calls ask for `name`. */
  function Earlier(calls: seq<Call>, n: nat, name: string): nat
    requires n <= |calls|
  {
    if n == 0 then 0 else Earlier(calls, n - 1, name) + (if calls[n - 1].name == name then 1 else 0)
  }

  lemma {:induction false} EarlierInFront(calls: seq<Call>, n: nat, name: string)
    requires n < |calls|
    ensures Earlier(Front(calls), n, name) == Earlier(calls, n, name)
  {
    if n > 0 {
      EarlierInFront(calls, n - 1, name);
    }
  }

  lemma {:induction false} OrdinalAfter(a: Allocator, calls: seq<Call>, name: string)
    requires AllocateAll(a, calls).Allocated?
    ensures Ordinal(AllocateAll(a, calls).after, name) == Ordinal(a, name) + Earlier(calls, |calls|, name)
  {
    if calls != [] {
      OrdinalAfter(a, Front(calls), name);
      EarlierInFront(calls, |calls| - 1, name);
    }
  }

  // ----- replay consistency -----

  /** A body that is not changed under its pinned version, with no `#` in its labels, is never
      rejected as non-deterministic. */
  lemma NeverRejected(body: Body, s: Sys)
    requires PlainLabels(body) && Reachable(body, s)
    ensures !CanReject(body, s)
  {
    ReachableInv(body, s);
    if s.pass.Some? {
      var p := s.pass.value;
      ReplaysHavePositions(body, s.log, p.history);
      PlainLabelsNeverClash(body, p.history);
      if body(p.history).Return? {
        NothingLeftOver(body, s);
      }
      if p.IsSealed() {
        SealedRemembers(body, s);
      }
    }
  }

  lemma NothingLeftOver(body: Body, s: Sys)
    requires Inv(body, s) && s.pass.Some? && body(s.pass.value.history).Return?
    ensures Results(s.pass.value.seen).Keys <= RequestedBefore(body, s.pass.value.history)
  {
    var p := s.pass.value;
    var output := body(p.history).output;
    assert Yields(body, s.log, output);
    forall key | key in Results(p.seen) ensures key in RequestedBefore(body, p.history) {
      assert AskedCheckpoint(body, s.log, key);
      var call: Call :| !call.kind.Gate? && Asks(body, s.log, key, call);
      AllRecorded(body, s.log, output, key, call);
    }
  }

  /** On a sealed log every step the body asks for is remembered. */
  lemma SealedRemembers(body: Body, s: Sys)
    requires Inv(body, s) && s.pass.Some? && s.pass.value.IsSealed()
    ensures forall i :: Has(body, s, i) ==> Remembered(body, s, i).Some?
  {
    var p := s.pass.value;
    forall i | Has(body, s, i) ensures Remembered(body, s, i).Some? {
      EndedLogRemembers(body, p.seen, s.log, p.history, i);
    }
  }

  lemma EndedLogRemembers(body: Body, seen: Log, log: Log, h: History, i: nat)
    requires Extends(seen, log) && Replays(body, log, h) && exists v :: Yields(body, seen, v)
    requires KeysAt(body, h).Allocated? && i < |CallsAt(body, h)|
    ensures Recorded(seen, KeysAt(body, h).keys[i], CallsAt(body, h)[i].kind).Some?
  {
    var v :| Yields(body, seen, v);
    var end :| Replays(body, seen, end) && body(end) == Return(v);
    ReplayGrows(body, seen, log, end);
    Stops(body, log, log, end, h);
    ReplayDeterministic(body, log, h, end);
    ReplaysPrefix(body, seen, end, |h|);
    assert AsksAt(body, seen, h, i, KeysAt(body, h).keys[i], CallsAt(body, h)[i]);
    AllRecorded(body, seen, v, KeysAt(body, h).keys[i], CallsAt(body, h)[i]);
  }
}
