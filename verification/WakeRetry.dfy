/** Where retry wakes differ: they upsert first, and their only trace is the deletion of the
    timer afterwards. */
module WakeRetry {
  import opened Events
  import opened Wake
  import opened WakeSafety

  // ----- runs that never park on a retry timer -----

  ghost predicate NeverRetries(steps: seq<Step>) {
    forall i :: 0 <= i < |steps| && steps[i].Park? ==> !steps[i].source.RetryOn?
  }

  ghost predicate NoRetryParked(s: State) {
    forall x :: x in s.executors ==>
      !(s.executors[x].phase.Parked? && s.executors[x].phase.source.RetryOn?)
      && !(s.executors[x].phase.Deleted? && s.executors[x].phase.source.RetryOn?)
  }

  lemma NoRetryKept(s: State, step: Step)
    requires NoRetryParked(s) && Enabled(s, step) && !(step.Park? && step.source.RetryOn?)
    ensures !InWindow(s, step) && NoRetryParked(Do(s, step))
  {
    hide IsCompleted, IsFailed, IsResolved, IsOpened, IsStarted, HasTimer, NewTimer, IsTrace, SettlesSource;
    hide AlreadySettled, HasEnded;
  }

  lemma {:induction false} NeverInWindow(s: State, steps: seq<Step>)
    requires NoRetryParked(s) && Runs(s, steps) && NeverRetries(steps)
    ensures NoWindow(s, steps)
    decreases |steps|
  {
    if steps != [] {
      NoRetryKept(s, steps[0]);
      NeverInWindow(Do(s, steps[0]), steps[1..]);
    }
  }

  /** Sleep, gate and child suspends alone never strand a run, whatever interleaves. */
  lemma SleepGateChildSafe(started: Event, steps: seq<Step>)
    requires started.RunStarted? && Runs(Fresh(started), steps) && NeverRetries(steps)
    ensures var s := After(Fresh(started), steps); HasEnded(s.log) || Awake(s)
  {
    assert Inv(Fresh(started));
    NeverInWindow(Fresh(started), steps);
    NoEatenWake(Fresh(started), steps);
  }

  // ----- the window -----

  /** Something other than executor `x` keeps the run awake. */
  ghost predicate AwakeWithout(s: State, x: nat) {
    || s.queued || LiveTimer(s) || LiveGate(s) || LiveChild(s) || WakerDue(s)
    || exists y :: y in s.executors && y != x && s.executors[y].owes
  }

  /** A reconciling read that finds its retry timer pending is harmless exactly when something
      else keeps the run awake: a firing still to upsert for that timer is such a thing, one
      that has upserted is not. */
  lemma RetryReconcile(s: State, x: nat)
    requires Inv(s) && !HasEnded(s.log) && x in s.executors && s.executors[x].phase.Deleted?
    requires s.executors[x].phase.source.RetryOn? && !WokenBy(s, s.executors[x].phase.source)
    ensures Awake(DoReconcile(s, x)) <==> AwakeWithout(s, x)
    ensures !InWindow(s, Reconcile(x)) ==> AwakeWithout(s, x)
  {
    var s' := DoReconcile(s, x);
    SameTimers(s, s');
    if !InWindow(s, Reconcile(x)) {
      SourceLive(s, x);
    }
    if y :| y in s.executors && y != x && s.executors[y].owes {
      assert s'.executors[y].owes;
    }
  }

  /** Nobody is at work, nothing is enqueued, and nothing will wake the run. */
  ghost predicate Abandoned(s: State) {
    && !s.queued && s.timers == map[] && s.executors == map[] && s.wakers == map[]
    && !LiveGate(s) && !LiveChild(s)
  }

  ghost predicate Stranded(s: State) {
    !HasEnded(s.log) && Abandoned(s)
  }

  ghost predicate Reaches(s: State, s': State) {
    exists steps :: Runs(s, steps) && After(s, steps) == s'
  }

  lemma {:induction false} RunsOn(s: State, steps: seq<Step>, step: Step)
    requires Runs(s, steps) && Enabled(After(s, steps), step)
    ensures Runs(s, steps + [step]) && After(s, steps + [step]) == Do(After(s, steps), step)
    decreases |steps|
  {
    var more := steps + [step];
    if steps != [] {
      RunsOn(Do(s, steps[0]), steps[1..], step);
      assert more[0] == steps[0] && more[1..] == steps[1..] + [step];
    } else {
      assert more[0] == step && more[1..] == [];
    }
  }

  lemma ReachesNext(s: State, s': State, step: Step)
    requires Reaches(s, s') && Enabled(s', step)
    ensures Reaches(s, Do(s', step))
  {
    var steps :| Runs(s, steps) && After(s, steps) == s';
    RunsOn(s, steps, step);
  }

  /** Upsert, delete the row, find the timer, delete the timer: the retry wake is eaten. */
  lemma RetryWakeEaten(started: Event) returns (s: State)
    requires started.RunStarted?
    ensures Reaches(Fresh(started), s) && Stranded(s)
  {
    hide Reaches;
    var s0 := Fresh(started);
    var s1 := ReadsPending(started);
    s := Do(s1, Finish(0));
    ReachesNext(s0, s1, Finish(0));
  }

  /** The executor deletes the row the scheduler wrote, and still finds the timer. */
  lemma ReadsPending(started: Event) returns (s: State)
    requires started.RunStarted?
    ensures Reaches(Fresh(started), s) && s.log == [started] && !s.queued
    ensures s.timers == map[7 := Timer("a", true)] && s.executors == map[]
    ensures s.wakers == map[0 := Waker(Fire(7, "a", true), Upserted)]
  {
    hide Reaches;
    var s0 := Fresh(started);
    var s1 := FiresRetry(started);
    var s2 := Do(s1, Delete(0));
    ReachesNext(s0, s1, Delete(0));
    assert s2.timers[7] == Timer("a", true);
    s := Do(s2, Reconcile(0));
    ReachesNext(s0, s2, Reconcile(0));
  }

  /** The executor has committed its retry timer, and a scheduler has picked it. */
  lemma ParksOnRetry(started: Event) returns (s: State)
    requires started.RunStarted?
    ensures Reaches(Fresh(started), s) && s.log == [started]
    ensures s.timers == map[7 := Timer("a", true)] && s.executors == map[0 := Executor(Parked(RetryOn("a")), false)]
    ensures s.wakers == map[0 := Waker(Fire(7, "a", true), Chosen)]
  {
    var s0 := Fresh(started);
    assert Runs(s0, []) && After(s0, []) == s0;
    assert Reaches(s0, s0);
    hide Reaches;
    var s1 := Do(s0, Start(0));
    ReachesNext(s0, s0, Start(0));
    var s2 := Do(s1, Park(0, RetryOn("a"), 7));
    ReachesNext(s0, s1, Park(0, RetryOn("a"), 7));
    s := Do(s2, Pick(0, Fire(7, "a", true)));
    ReachesNext(s0, s2, Pick(0, Fire(7, "a", true)));
  }

  /** ... and has upserted for it. */
  lemma FiresRetry(started: Event) returns (s: State)
    requires started.RunStarted?
    ensures Reaches(Fresh(started), s) && s.log == [started]
    ensures s.timers == map[7 := Timer("a", true)] && s.executors == map[0 := Executor(Parked(RetryOn("a")), false)]
    ensures s.wakers == map[0 := Waker(Fire(7, "a", true), Upserted)]
  {
    hide Reaches;
    var s0 := Fresh(started);
    var s1 := ParksOnRetry(started);
    var s2 := Do(s1, Check(0));
    ReachesNext(s0, s1, Check(0));
    var s3 := Do(s2, Trace(0, started));
    ReachesNext(s0, s2, Trace(0, started));
    s := Do(s3, Upsert(0));
    ReachesNext(s0, s3, Upsert(0));
  }
}
