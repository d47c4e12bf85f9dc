/** The two parked runs whose row does not say what their log folds to, and passes over them. */
module ParkedRuns {
  import opened Prelude
  import opened Keys
  import opened Events
  import opened Program
  import opened Tables
  import opened Frontier
  import opened LiveSteps
  import opened ReplayEnds
  import opened Refinement
  import opened Engine
  import opened EngineTheorems
  import Durable

  /** The run has failed and was enqueued again; the pass that followed slept. */
  function RestartedLog(started: Event, error: Error): Log {
    [started, RunFailed(error, "<pinned-version>"), StepStarted("nap", Sleep)]
  }

  function RestartedTables(run: RunId, started: Event, error: Error): Tables {
    Tables(map[run := RestartedLog(started, error)], map[run := RunRow(Pending, Some("nap"), None, Some(error), None)],
           {run}, map[0 := TimerRow(run, "nap", SleepTimer)])
  }

  /** The run waits for a child that has failed and is now running again. */
  function RetriedLog(started: Event, error: Error): Log {
    [started, StepStarted("sub", Child), StepFailed("sub", error, 1, false)]
  }

  function RetriedTables(run: RunId, started: Event, error: Error): Tables {
    Tables(map[run := RetriedLog(started, error)],
           map[run := RunRow(Pending, Some("sub"), None, None, None),
               ChildRunId(run, "sub") := RunRow(Running, None, None, None, Some(run))],
           {run, ChildRunId(run, "sub")}, map[])
  }

  lemma ThreeEvents(started: Event, x: Event, y: Event)
    requires forall e :: e in [started, x, y] ==> !e.StepCompleted? && !e.GateResolved?
    ensures var log := [started, x, y];
      && Results(log) == map[] && Decisions(log) == map[]
      && Project(log) == Fold(Fold(Fold(BLANK, started), x), y)
  {
    hide Results, Decisions, Opened, Failures, Completions, Resolutions, Project;
    NothingRecorded();
    assert started in [started, x, y] && x in [started, x, y] && y in [started, x, y];
    Appends([], started);
    Appends([started], x);
    Appends([started, x], y);
    assert [] + [started] == [started] && [started] + [x] == [started, x] && [started, x] + [y] == [started, x, y];
  }

  lemma Appends(log: Log, e: Event)
    ensures Project(log + [e]) == Fold(Project(log), e)
    ensures !e.StepCompleted? && !e.GateResolved? ==>
              Results(log + [e]) == Results(log) && Decisions(log + [e]) == Decisions(log)
  {
    ProjectAppend(log, e);
    AppendCounts(log, e);
  }

  /** A run whose only step has no value on record, and waits, stands still. */
  lemma OneStepStands(t: Tables, run: RunId, call: Call, world: World)
    requires Results(t.LogOf(run)) == map[] && Decisions(t.LogOf(run)) == map[]
    requires run in t.rows && t.rows[run].parent.None? && RestsAs(t, run, RestStatus(call.kind))
    requires Resting(world, t, run, call.name, call.kind)
    requires forall key, kind :: Waits(t, run, key, kind) ==> key == call.name && kind == call.kind
    ensures var body := OneStep(call);
      && Sequential(body) && Tidy(body, t, run) && Stuck(body, world, t, run)
      && AtFrontier(body, t.LogOf(run), call.name, call.kind)
  {
    var body := OneStep(call);
    hide Resting, Waits, Results, Decisions, Replays, Project;
    OneStepKeys(call);
    StartsAt(body, t.LogOf(run));
    assert FrontierAt(body, t.LogOf(run), [], call.name, call.kind);
  }

  /** A state of the transition system beside the tables. */
  ghost function Beside(t: Tables, run: RunId, armed: set<Key>, children: set<Key>): Durable.Sys {
    Durable.Sys(t.LogOf(run), armed, children, None, multiset{}, multiset{}, multiset{}, [], false)
  }

  lemma RestartedRecords(started: Event, error: Error)
    requires started.RunStarted?
    ensures var log := RestartedLog(started, error); var p := Project(log);
      && Results(log) == map[] && Decisions(log) == map[] && Overruled(log) && !WasCancelled(log)
      && log != [] && !Last(log).RunFailed? && !FailedSince(log)
      && p.status.WaitingTimer? && p.currentStep == Some("nap") && p.error == Some(error) && p.outputRef.None?
  {
    var failed := RunFailed(error, "<pinned-version>");
    ThreeEvents(started, failed, StepStarted("nap", Sleep));
    hide Results, Decisions, Project;
    assert failed in RestartedLog(started, error);
  }

  lemma RetriedRecords(started: Event, error: Error)
    requires started.RunStarted?
    ensures var log := RetriedLog(started, error); var p := Project(log);
      && Results(log) == map[] && Decisions(log) == map[] && !Overruled(log) && IsFailed(log, "sub")
      && log != [] && !Last(log).RunFailed?
      && p.status.Running? && p.currentStep == Some("sub") && p.error.None? && p.outputRef.None?
  {
    var failed := StepFailed("sub", error, 1, false);
    ThreeEvents(started, StepStarted("sub", Child), failed);
    hide Results, Decisions, Project;
    assert failed in RetriedLog(started, error);
  }

  /** The restarted run is stuck in its sleep. */
  lemma RestartedStands(run: RunId, world: World, started: Event, error: Error)
    requires started.RunStarted?
    ensures var t, body := RestartedTables(run, started, error), OneStep(Call("nap", Sleep, 1));
      && IsOpen(t, run) && Sequential(body) && Tidy(body, t, run) && EndInSync(t, run) && Stuck(body, world, t, run)
  {
    var t, call := RestartedTables(run, started, error), Call("nap", Sleep, 1);
    RestartedRecords(started, error);
    hide Results, Decisions, Project, Tidy, Stuck, Sequential, AtFrontier, RestartedLog, Overruled, FailedSince;
    assert t.timers[0] == TimerRow(run, "nap", SleepTimer);
    CompletionsAreResults(t.LogOf(run), "nap");
    OneStepStands(t, run, call, world);
  }

  /** The other one is stuck in its child. */
  lemma RetriedStands(run: RunId, world: World, started: Event, error: Error)
    requires started.RunStarted?
    ensures var t, body := RetriedTables(run, started, error), OneStep(Call("sub", Child, 1));
      && IsOpen(t, run) && Sequential(body) && Tidy(body, t, run) && EndInSync(t, run) && Stuck(body, world, t, run)
      && ChildFailed(body, t.LogOf(run))
  {
    var t, call := RetriedTables(run, started, error), Call("sub", Child, 1);
    RetriedRecords(started, error);
    hide Results, Decisions, Project, Tidy, Stuck, Sequential, AtFrontier, RetriedLog, FailedSince;
    CompletionsAreResults(t.LogOf(run), "sub");
    OneStepStands(t, run, call, world);
  }

  lemma BothMirrored(run: RunId, started: Event, error: Error)
    ensures var t := RestartedTables(run, started, error); Mirrors(Beside(t, run, {"nap"}, {}), t, run)
    ensures var t := RetriedTables(run, started, error); Mirrors(Beside(t, run, {}, {"sub"}), t, run)
  {
    hide RestartedLog, RetriedLog;
    assert RestartedTables(run, started, error).timers[0] == TimerRow(run, "nap", SleepTimer);
  }

  /** What a pass over a stuck run comes to can be read off the tables before it: the log stays, and
      row and queue show the failure that came before, or that of the child, or what the run waits
      for; so the row equals the fold of the log exactly when there was neither, or the failure is
      the latest event. */
  lemma StuckPass(body: Body, world: World, run: RunId, t0: Tables, t: Tables, end: PassEnd, parked: bool)
    requires Stuck(body, world, t0, run) && OpenPass(body, world, run, t0, t, end, parked) && !end.Died?
    ensures var log := t0.LogOf(run);
      && t.LogOf(run) == log && run in t.rows && end == Reported(t.rows[run].status)
      && (t.rows[run].status.Failed? <==> Overruled(log))
      && (t.rows[run].status.Pending? <==> !Overruled(log) && ChildFailed(body, log))
      && (run in t.queue <==> t.rows[run].status.Pending?)
      && (EndInSync(t0, run) ==> (Synced(t, run) <==>
            (!Overruled(log) && !ChildFailed(body, log)) || (log != [] && Last(log).RunFailed?)))
  {
    hide Stuck, Project, Synced, EndInSync, StaysTidy, Overruled, FrontierAt;
    var key, wake, kind :| RestsOn(body, run, t0, t, end, key, wake, kind);
    var h :| FrontierAt(body, t.LogOf(run), h, key, kind);
    ChildFailedAt(body, t.LogOf(run), h, key, kind);
  }

  /** The restarted run is shown as failed while its log folds to waiting_timer. */
  method RestartedPass(engine: WorkflowEngine, run: RunId, started: Event, error: Error) returns (end: PassEnd)
    requires started.RunStarted? && engine.db.View() == RestartedTables(run, started, error)
    modifies engine.db
    ensures var t := engine.db.View();
      !end.Died? ==>
        && end == Reported(Failed) && t.LogOf(run) == RestartedLog(started, error)
        && run in t.rows && t.rows[run].status.Failed? && run !in t.queue
        && Project(t.LogOf(run)).status.WaitingTimer? && !Synced(t, run)
  {
    hide Project, OpenPass, Tidy, Stuck, Sequential, AtFrontier, Synced, EndInSync, RestartedLog, Overruled;
    hide Refined, Hands;
    ghost var t0 := engine.db.View();
    var body := OneStep(Call("nap", Sleep, 1));
    RestartedStands(run, engine.world, started, error);
    RestartedRecords(started, error);
    BothMirrored(run, started, error);
    ghost var parked, calls, after;
    end, parked, calls, after := engine.ExecuteRun(run, Some(body), Beside(t0, run, {"nap"}, {}));
    if !end.Died? {
      StuckPass(body, engine.world, run, t0, engine.db.View(), end, parked);
    }
  }

  /** The run that waits for its retried child is pending, and due again at once, while its log
      folds to running. */
  method RetriedPass(engine: WorkflowEngine, run: RunId, started: Event, error: Error) returns (end: PassEnd)
    requires started.RunStarted? && engine.db.View() == RetriedTables(run, started, error)
    modifies engine.db
    ensures var t := engine.db.View();
      !end.Died? ==>
        && end == Reported(Pending) && t.LogOf(run) == RetriedLog(started, error)
        && run in t.rows && t.rows[run].status.Pending? && run in t.queue
        && Project(t.LogOf(run)).status.Running? && !Synced(t, run)
  {
    hide Project, OpenPass, Tidy, Stuck, Sequential, AtFrontier, Synced, EndInSync, RetriedLog, Overruled;
    hide Refined, Hands;
    ghost var t0 := engine.db.View();
    var body := OneStep(Call("sub", Child, 1));
    RetriedStands(run, engine.world, started, error);
    RetriedRecords(started, error);
    BothMirrored(run, started, error);
    ghost var parked, calls, after;
    end, parked, calls, after := engine.ExecuteRun(run, Some(body), Beside(t0, run, {}, {"sub"}));
    if !end.Died? {
      StuckPass(body, engine.world, run, t0, engine.db.View(), end, parked);
    }
  }
}
