/** Runs resumed after a failure: the reconciling read finds the old failure first and honours no
    wake that came before the deletion of the queue row. */
module WakeResumed {
  import opened Events
  import opened Wake
  import opened WakeSafety
  import opened WakeRetry

  /** A failed run that was enqueued again, however it got there, is left without anything to wake it
      exactly when the wake of the step it parks on has left its trace before the reconciling read,
      and nothing else keeps the run awake. */
  lemma ResumedReconcile(started: Event, steps: seq<Step>, x: nat)
    requires started.RunStarted? && Runs(Fresh(started), steps)
    requires var s := After(Fresh(started), steps);
      Overruled(s.log) && !WasCancelled(s.log) && x in s.executors && s.executors[x].phase.Deleted?
    ensures var s := After(Fresh(started), steps); var source := s.executors[x].phase.source;
            !source.RetryOn? ==> (!Awake(DoReconcile(s, x)) <==> WokenBy(s, source) && !AwakeWithout(s, x))
  {
    var s := After(Fresh(started), steps);
    RunsSound(Fresh(started), steps);
    if !s.executors[x].phase.source.RetryOn? {
      OverruledReconcile(s, x);
    }
  }

  lemma OverruledReconcile(s: State, x: nat)
    requires Sound(s) && Overruled(s.log) && x in s.executors && s.executors[x].phase.Deleted?
    requires !s.executors[x].phase.source.RetryOn?
    ensures !Awake(DoReconcile(s, x)) <==> WokenBy(s, s.executors[x].phase.source) && !AwakeWithout(s, x)
  {
    var s' := DoReconcile(s, x);
    SameTimers(s, s');
    assert ExecutorSound(s, s.executors[x]);
    if y :| y in s.executors && y != x && s.executors[y].owes {
      assert s'.executors[y].owes;
    }
    if s.executors[x].phase.source.SleepOn? && !WokenBy(s, s.executors[x].phase.source) {
      var key := s.executors[x].phase.source.key;
      var t :| t in s.timers && s.timers[t] == Timer(key, false);
      SleepNotSpent(s, t, key);
    }
  }

  /** An executor that parks although another has completed the run stays awake like any other: the
      read looks for failures and cancellations only. */
  lemma CompletedReconcile(started: Event, steps: seq<Step>, x: nat)
    requires started.RunStarted? && Runs(Fresh(started), steps)
    requires var s := After(Fresh(started), steps);
      !Overruled(s.log) && x in s.executors && s.executors[x].phase.Deleted?
    ensures var s := After(Fresh(started), steps); var source := s.executors[x].phase.source;
            !source.RetryOn? ==> Awake(DoReconcile(s, x))
  {
    var s := After(Fresh(started), steps);
    NotCancelled(s.log);
    RunsSound(Fresh(started), steps);
    var s' := DoReconcile(s, x);
    SameTimers(s, s');
    assert ExecutorSound(s, s.executors[x]);
    if WokenBy(s, s.executors[x].phase.source) {
      assert s'.executors[x].owes;
    } else if s.executors[x].phase.source.SleepOn? {
      var key := s.executors[x].phase.source.key;
      var t :| t in s.timers && s.timers[t] == Timer(key, false);
      SleepNotSpent(s, t, key);
      assert LiveTimer(s');
    }
  }

  lemma NotCancelled(log: Log)
    requires !Overruled(log)
    ensures !WasCancelled(log)
  {
  }

  const SLEPT: Event := StepCompleted("a", "{\"slept\": true}")

  /** A failed run, resumed, sleeps; the sleep's wake falls between the timer's commit and the
      deletion of the queue row, and is lost. */
  lemma ResumedWakeEaten(started: Event, failed: Event) returns (s: State)
    requires started.RunStarted? && failed.RunFailed?
    ensures Reaches(Fresh(started), s) && Abandoned(s) && s.log == [started, failed, SLEPT]
  {
    hide Reaches, Runs, After;
    var s0 := Fresh(started);
    var s1 := FiresSleep(started, failed);
    var s2 := Do(s1, Finish(0));
    ReachesNext(s0, s1, Finish(0));
    var s3 := Do(s2, Delete(0));
    ReachesNext(s0, s2, Delete(0));
    assert failed in s3.log && Overruled(s3.log);
    s := Do(s3, Reconcile(0));
    ReachesNext(s0, s3, Reconcile(0));
  }

  lemma Fails(started: Event, failed: Event) returns (s: State)
    requires started.RunStarted? && failed.RunFailed?
    ensures Reaches(Fresh(started), s)
    ensures s == State([started, failed], true, map[], map[1 := Executor(Working, false)], map[])
  {
    var s0 := Fresh(started);
    assert Runs(s0, []) && After(s0, []) == s0;
    assert Reaches(s0, s0);
    hide Reaches, Runs, After, HasEnded;
    var s1 := Do(s0, Start(1));
    ReachesNext(s0, s0, Start(1));
    s := Do(s1, Work(1, failed));
    ReachesNext(s0, s1, Work(1, failed));
  }

  lemma FailsAndResumes(started: Event, failed: Event) returns (s: State)
    requires started.RunStarted? && failed.RunFailed?
    ensures Reaches(Fresh(started), s) && s == State([started, failed], true, map[], map[], map[])
  {
    hide Reaches, Runs, After, SettlesSource;
    var s0 := Fresh(started);
    var s1 := Fails(started, failed);
    assert failed in s1.log && HasEnded(s1.log);
    var s2 := Do(s1, Leave(1));
    ReachesNext(s0, s1, Leave(1));
    s := Do(s2, Resume);
    ReachesNext(s0, s2, Resume);
  }

  lemma ParksAsleep(started: Event, failed: Event) returns (s: State)
    requires started.RunStarted? && failed.RunFailed?
    ensures Reaches(Fresh(started), s) && s.log == [started, failed]
    ensures s.timers == map[7 := Timer("a", false)] && s.executors == map[0 := Executor(Parked(SleepOn("a")), false)]
    ensures s.wakers == map[0 := Waker(Fire(7, "a", false), Chosen)]
  {
    hide Reaches, Runs, After;
    var s0 := Fresh(started);
    var s1 := FailsAndResumes(started, failed);
    var s2 := Do(s1, Start(0));
    ReachesNext(s0, s1, Start(0));
    var s3 := Do(s2, Park(0, SleepOn("a"), 7));
    ReachesNext(s0, s2, Park(0, SleepOn("a"), 7));
    s := Do(s3, Pick(0, Fire(7, "a", false)));
    ReachesNext(s0, s3, Pick(0, Fire(7, "a", false)));
  }

  lemma FiresSleep(started: Event, failed: Event) returns (s: State)
    requires started.RunStarted? && failed.RunFailed?
    ensures Reaches(Fresh(started), s) && s.log == [started, failed, SLEPT]
    ensures s.timers == map[7 := Timer("a", false)] && s.executors == map[0 := Executor(Parked(SleepOn("a")), false)]
    ensures s.wakers == map[0 := Waker(Fire(7, "a", false), Upserted)]
  {
    hide Reaches, Runs, After;
    var s0 := Fresh(started);
    var s1 := ParksAsleep(started, failed);
    assert !IsCompleted(s1.log, "a");
    var s2 := Do(s1, Check(0));
    ReachesNext(s0, s1, Check(0));
    assert !SettlesSource(s2.log, SLEPT);
    var s3 := Do(s2, Trace(0, SLEPT));
    ReachesNext(s0, s2, Trace(0, SLEPT));
    s := Do(s3, Upsert(0));
    ReachesNext(s0, s3, Upsert(0));
  }
}
