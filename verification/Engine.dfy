/** One execute_run pass: replay, then park, fail or complete, commit by commit. */
module Engine {
  import opened Prelude
  import opened Keys
  import opened Events
  import opened Program
  import opened Tables
  import opened Settle
  import opened Database
  import opened Frontier
  import opened Commits
  import opened LiveSteps
  import opened ReplayEnds
  import opened Refinement
  import opened Context
  import Durable

  /** How a pass ends for its caller. */
  datatype PassEnd = Reported(status: RunStatus) | Reraised | UnknownRun | Died

  /** The latest run_failed or run_cancelled. */
  function LastEnd(log: Log): Option<Event> {
    if log == [] then None
    else if Overrules(Last(log)) then Some(Last(log))
    else LastEnd(Front(log))
  }

  lemma {:induction false} LastEndFound(log: Log)
    ensures LastEnd(log).Some? <==> Overruled(log)
    ensures LastEnd(log).Some? ==> Overrules(LastEnd(log).value) && LastEnd(log).value in log
    ensures log != [] && Last(log).RunFailed? ==> LastEnd(log) == Some(Last(log))
  {
    if log != [] {
      LastEndFound(Front(log));
      assert forall e :: e in log <==> e in Front(log) || e == Last(log);
    }
  }

  /** What a reconciling park finds: the log ended, the step was settled already, or neither. */
  function ParkedStatus(log: Log, timed: bool, key: Key, wake: Wake, status: RunStatus): RunStatus {
    match LastEnd(log)
    case Some(e) => if e.RunCancelled? then Cancelled else Failed
    case None => if Woken(log, timed, key, wake) then Pending else status
  }

  /** A wake left its trace; `timed`: the step's retry timer is still there. */
  predicate Woken(log: Log, timed: bool, key: Key, wake: Wake) {
    match wake
    case OnChild => IsCompleted(log, key) || IsFailed(log, key)
    case OnSleep => IsCompleted(log, key)
    case OnRetry => !timed
    case OnGate => IsResolved(log, key)
  }

  /** The reconciling read, by log and timers: the latest failure or cancellation stands; without
      one the run is pending exactly when its wake has left a trace. */
  ghost predicate Honours(t: Tables, run: RunId, key: Key, wake: Wake, status: RunStatus, end: PassEnd) {
    var log := t.LogOf(run);
    && (Overruled(log) ==> exists i ::
         && 0 <= i < |log| && Overrules(log[i]) && (forall j :: i < j < |log| ==> !Overrules(log[j]))
         && end == Reported(if log[i].RunCancelled? then RunStatus.Cancelled else Failed))
    && (!Overruled(log) ==>
         && (end == Reported(Pending) || end == Reported(status))
         && (wake.OnGate? ==> (end == Reported(Pending) <==> IsResolved(log, key)))
         && (wake.OnSleep? ==> (end == Reported(Pending) <==> IsCompleted(log, key)))
         && (wake.OnChild? ==> (end == Reported(Pending) <==> IsCompleted(log, key) || IsFailed(log, key)))
         && (wake.OnRetry? ==> (end == Reported(Pending) <==>
              forall id :: id in t.timers ==> t.timers[id] != TimerRow(run, key, RetryTimer))))
  }

  lemma {:induction false} LastEndIsLatest(log: Log) returns (i: nat)
    requires LastEnd(log).Some?
    ensures i < |log| && LastEnd(log) == Some(log[i]) && forall j :: i < j < |log| ==> !Overrules(log[j])
  {
    if Overrules(Last(log)) {
      i := |log| - 1;
    } else {
      i := LastEndIsLatest(Front(log));
      assert forall j :: 0 <= j < |log| - 1 ==> Front(log)[j] == log[j];
    }
  }

  lemma FoundHonours(t: Tables, run: RunId, key: Key, wake: Wake, status: RunStatus)
    requires status != Pending && !status.IsTerminal()
    ensures Honours(t, run, key, wake, status, Reported(Found(t, run, key, wake, status)))
  {
    hide IsCompleted, IsFailed, IsResolved;
    LastEndFound(t.LogOf(run));
    if LastEnd(t.LogOf(run)).Some? {
      var i := LastEndIsLatest(t.LogOf(run));
    }
  }

  lemma ReconcileShows(t: Tables, run: RunId, found: RunStatus, status: RunStatus)
    requires status != Pending
    ensures var t' := Reconciled(t, run, found, status);
      && t'.queue == t.queue + (if found == Pending then {run} else {}) && t'.rows.Keys == t.rows.Keys
      && (found != status && run in t.rows ==> t'.rows[run].status == found)
  {
  }

  lemma ParkShows(t: Tables, run: RunId, found: RunStatus, status: RunStatus)
    requires status != Pending
    ensures var t' := ParkedTables(t, run, found, status);
      && t'.queue == (if found == Pending then t.queue + {run} else t.queue - {run}) && t'.rows.Keys == t.rows.Keys
      && t'.logs == t.logs && t'.timers == t.timers
      && (run in t.rows ==> t'.rows[run].status == found)
  {
  }

  /** The tables after the reconciliation. */
  function Reconciled(t: Tables, run: RunId, found: RunStatus, status: RunStatus): Tables {
    if found == status then t
    else if found.Pending? then Enqueued(StatusSet(t, run, found), run)
    else StatusSet(t, run, found)
  }

  /** The tables after a park whose every commit went through. */
  function ParkedTables(t: Tables, run: RunId, found: RunStatus, status: RunStatus): Tables {
    Reconciled(Dequeued(StatusSet(t, run, status), run), run, found, status)
  }

  function Found(t: Tables, run: RunId, key: Key, wake: Wake, status: RunStatus): RunStatus {
    ParkedStatus(t.LogOf(run), IsTimed(t, run, key, RetryTimer), key, wake, status)
  }

  /** The tables after a run's final event and the clean-up that follows it. */
  function EndedTables(t: Tables, run: RunId, e: Event): Tables {
    Settled(Dequeued(Applied(t, run, e), run), run)
  }

  lemma EndTells(t: Tables, run: RunId, e: Event)
    ensures NobodyWaits(EndedTables(t, run, e), run)
  {
    if run.ChildOf? {
      SettleTells(Dequeued(Applied(t, run, e), run), run.parent, run.stepKey);
    }
  }

  /** The clean-up of an ended run, cut short. */
  ghost predicate EndedPartly(t: Tables, t': Tables, run: RunId, e: Event) {
    || t' == t || t' == Appended(t, run, e) || t' == Applied(t, run, e)
    || SettledPartly(Dequeued(Applied(t, run, e), run), t', run)
  }

  class WorkflowEngine {
    const db: Session
    const world: World

    constructor (db: Session, world: World)
      ensures this.db == db && this.world == world
    {
      this.db, this.world := db, world;
    }

    // ----- the ends of a pass -----

    /** run_failed or run_completed: the event, the row, the queue row, the waiting parent. */
    method EndRun(ctx: WorkflowContext, e: Event) returns (alive: bool)
      requires ctx.db == db
      modifies db
      ensures alive ==> db.View() == EndedTables(old(db.View()), ctx.run, e) && NobodyWaits(db.View(), ctx.run)
      ensures !alive ==> EndedPartly(old(db.View()), db.View(), ctx.run, e)
    {
      hide Settled, RowApplied, SettledPartly, NobodyWaits;
      EndTells(db.View(), ctx.run, e);
      NotSettledYet(Dequeued(Applied(db.View(), ctx.run, e), ctx.run), ctx.run);
      alive := ctx.Append(e);
      if !alive {
        return;
      }
      alive := db.Spend();
      if !alive {
        return;
      }
      db.DeleteQueueRow(ctx.run);
      alive := db.Spend();
      if !alive {
        return;
      }
      alive := db.SettleParentOnChildTerminal(ctx.run, true);
    }

    /** Parks the run: its status, then its queue row, then the reconciliation. */
    method Park(ctx: WorkflowContext, key: Key, wake: Wake, status: RunStatus) returns (end: PassEnd)
      requires ctx.db == db && status != Pending && !status.IsTerminal()
      modifies db
      ensures end.Died? ==> ParkedPartly(old(db.View()), db.View(), ctx.run)
      ensures !end.Died? ==> db.View() == ParkedTables(old(db.View()), ctx.run,
                Found(old(db.View()), ctx.run, key, wake, status), status)
      ensures !end.Died? ==> end == Reported(Found(old(db.View()), ctx.run, key, wake, status))
      ensures end != Reported(Completed)
      ensures end.Died? && db.queue != old(db.queue) && ctx.run in db.rows ==>
                db.rows[ctx.run].status in {status, Pending}
      ensures !end.Died? ==> Honours(old(db.View()), ctx.run, key, wake, status, end)
      ensures !end.Died? ==> db.queue == if end == Reported(Pending) then old(db.queue) + {ctx.run}
                                         else old(db.queue) - {ctx.run}
      ensures !end.Died? && ctx.run in old(db.rows) ==> ctx.run in db.rows && end == Reported(db.rows[ctx.run].status)
    {
      hide Reconciled, Found, ParkedPartly, StatusSet, Honours;
      ghost var t0 := db.View();
      FoundHonours(t0, ctx.run, key, wake, status);
      ParkShows(t0, ctx.run, Found(t0, ctx.run, key, wake, status), status);
      PartlyParked(t0, ctx.run, status, Pending);
      StatusOfRow(t0, ctx.run, status);
      StatusOfRow(Dequeued(StatusSet(t0, ctx.run, status), ctx.run), ctx.run, Pending);
      FoundAgain(t0, ctx.run, key, wake, status);
      NeverCompleted(t0, ctx.run, key, wake, status);
      var alive := db.Spend();
      if !alive {
        return Died;
      }
      db.SetStatus(ctx.run, status);
      alive := db.Spend();
      if !alive {
        return Died;
      }
      db.DeleteQueueRow(ctx.run);
      end := Reconcile(ctx, key, wake, status);
    }

    /** Reads the log again after the queue row went: a wake that came first is honoured here. */
    method Reconcile(ctx: WorkflowContext, key: Key, wake: Wake, status: RunStatus) returns (end: PassEnd)
      requires ctx.db == db && status != Pending && !status.IsTerminal()
      modifies db
      ensures end.Died? ==> db.View() == old(db.View()) || db.View() == StatusSet(old(db.View()), ctx.run, Pending)
      ensures !end.Died? ==> db.View() == Reconciled(old(db.View()), ctx.run,
                Found(old(db.View()), ctx.run, key, wake, status), status)
      ensures !end.Died? ==> end == Reported(Found(old(db.View()), ctx.run, key, wake, status))
      ensures !end.Died? ==> Honours(old(db.View()), ctx.run, key, wake, status, end)
      ensures !end.Died? ==> db.queue == old(db.queue) + if end == Reported(Pending) then {ctx.run} else {}
      ensures end == Reported(Pending) && ctx.run in db.rows ==> db.rows[ctx.run].status == Pending
    {
      hide StatusSet, LastEnd, Woken, IsTimed, Honours;
      var run := ctx.run;
      ghost var t := db.View();
      FoundHonours(t, run, key, wake, status);
      ReconcileShows(t, run, Found(t, run, key, wake, status), status);
      var events := if run in db.logs then db.logs[run] else [];
      var verdict := FindLastEnd(events);
      if verdict.Some? {
        var ended := if verdict.value.RunCancelled? then RunStatus.Cancelled else Failed;
        var alive := db.Spend();
        if !alive {
          return Died;
        }
        db.SetStatus(run, ended);
        return Reported(ended);
      }
      if !Woken(events, IsTimed(db.View(), run, key, RetryTimer), key, wake) {
        return Reported(status);
      }
      var alive := db.Spend();
      if !alive {
        return Died;
      }
      db.SetStatus(run, Pending);
      alive := db.Spend();
      if !alive {
        return Died;
      }
      db.UpsertTaskQueue(run);
      return Reported(Pending);
    }

    /** The last terminal event wins, as in the fold. */
    method FindLastEnd(events: Log) returns (last: Option<Event>)
      ensures last == LastEnd(events)
    {
      var i := |events|;
      assert events[..i] == events;
      while i > 0
        invariant 0 <= i <= |events|
        invariant LastEnd(events) == LastEnd(events[..i])
      {
        assert Front(events[..i]) == events[..i - 1];
        i := i - 1;
        if Overrules(events[i]) {
          return Some(events[i]);
        }
      }
      return None;
    }

    // ----- the pass -----

    /** One pass; `before` and `after` are the states of the run's transition system around it. */
    method ExecuteRun(run: RunId, definition: Option<Body>, ghost before: Durable.Sys)
      returns (end: PassEnd, ghost parked: bool, ghost calls: seq<(Key, nat)>, ghost after: Durable.Sys)
      requires definition.Some? ==> forall h :: definition.value(h) != Await([])
      requires definition.Some? && IsOpen(db.View(), run) ==>
                 Sequential(definition.value) && Tidy(definition.value, db.View(), run)
      requires definition.Some? && IsOpen(db.View(), run) ==> Mirrors(before, db.View(), run) && before.pass.None?
      modifies db
      // nothing to do
      ensures run !in old(db.View()).rows <==> end.UnknownRun?
      ensures end.UnknownRun? || WasCancelled(old(db.View()).LogOf(run)) ==> db.View() == old(db.View()) && calls == []
      // a completed run
      ensures IsSealed(old(db.View()), run) && definition.Some? ==>
                SealedPass(definition.value, run, old(db.View()), db.View(), end) && calls == []
      // an open run
      ensures IsOpen(old(db.View()), run) && definition.Some? ==>
                OpenPass(definition.value, world, run, old(db.View()), db.View(), end, parked)
      ensures IsOpen(old(db.View()), run) && definition.Some? ==>
                Refined(definition.value, before, after, db.View(), run, CallKeys(calls))
                    && Hands(world, before, after, db.View().LogOf(run), end)
      // a run whose pinned version is not registered
      ensures (IsSealed(old(db.View()), run) || IsOpen(old(db.View()), run)) && definition.None? ==>
                (var e := Unregistered(old(db.View()).LogOf(run));
                 if end.Died? then EndedPartly(old(db.View()), db.View(), run, e)
                 else end == Reported(Failed) && db.View() == EndedTables(old(db.View()), run, e)
                          && NobodyWaits(db.View(), run))
    {
      hide EndedPartly;
      hide SealedPass, OpenPass, EndedTables, BodyEnded, SealedEnded, Results, Decisions, Opened, Failures;
      hide RowApplied, Sequential;
      hide Refined, Stands, Mirrors, Hands;
      parked, calls, after := false, [], before;
      if run !in db.rows {
        return UnknownRun, false, [], before;
      }
      var events := if run in db.logs then db.logs[run] else [];
      var prior := ProjectRun(events);
      if WasCancelled(events) {
        return Reported(RunStatus.Cancelled), false, [], before;
      }
      var sealed := prior.status.Completed?;
      var ctx := new WorkflowContext(run, db, world, sealed, events);
      if definition.None? {
        var alive := EndRun(ctx, Unregistered(events));
        end := if alive then Reported(Failed) else Died;
        return;
      }
      var body := definition.value;
      var s;
      ghost var reached;
      s, reached := ctx.RunBody(body, before);
      calls := ctx.calls;
      if sealed {
        end := ConcludeSealed(ctx, body, s);
      } else {
        end, after := Conclude(ctx, body, s, old(db.View()), before, reached);
        parked := s.Suspends?;
      }
    }

    /** Against a completed log only an exception of the body's own is recorded. */
    method ConcludeSealed(ctx: WorkflowContext, body: Body, s: Signal) returns (end: PassEnd)
      requires ctx.db == db && SealedEnded(body, db.View().LogOf(ctx.run), s)
      modifies db
      ensures SealedPass(body, ctx.run, old(db.View()), db.View(), end) && !end.UnknownRun?
    {
      hide EndedPartly;
      hide Replays, Settled, RowApplied, ReplayEnds.Returns, RaisesOn;
      forall output, error
        ensures !(ReplayEnds.Returns(body, db.View().LogOf(ctx.run), output)
                  && RaisesOn(body, db.View().LogOf(ctx.run), error))
      {
        ReturnsOrRaises(body, db.View().LogOf(ctx.run), output, error);
      }
      match s
      case Returned(_) =>
        return Reported(Completed);
      case Diverged(_) =>
        return Reraised;
      case Throws(error) =>
        var e := RunFailed(error, LastStep(ctx.lastStepKey));
        var alive := EndRun(ctx, e);
        end := if alive then Reported(Failed) else Died;
    }

    method Conclude(ctx: WorkflowContext, body: Body, s: Signal, ghost t0: Tables, ghost before: Durable.Sys,
        ghost reached: Durable.Sys)
      returns (end: PassEnd, ghost after: Durable.Sys)
      requires LeavesStuck(body, world, t0, db.View(), ctx.run, s) && !WasCancelled(t0.LogOf(ctx.run))
      requires Stands(body, before, reached, db.View(), ctx.run, CallKeys(ctx.calls), s)
      requires ctx.db == db && ctx.world == world && BodyEnded(body, ctx.run, t0, db.View(), s,
                 LastStep(ctx.lastStepKey))
      modifies db
      ensures OpenPass(body, world, ctx.run, t0, db.View(), end, s.Suspends?) && !end.UnknownRun?
      ensures Refined(body, before, after, db.View(), ctx.run, CallKeys(ctx.calls))
                && Hands(world, before, after, db.View().LogOf(ctx.run), end)
    {
      hide Settled, RowApplied, Tidy, Project, EndedTables, Parked, OpenPass, BodyEnded, Found, ParkedTables;
      hide ParkedPartly, IsDue, Fits;
      hide Stands, Refined, SameWaits, EndedPartly, Stuck, LeavesStuck;
      ghost var t := db.View();
      BodyLeaves(body, world, ctx.run, t0, t, s, LastStep(ctx.lastStepKey));
      TidyRow(body, t, ctx.run);
      ghost var last := LastStep(ctx.lastStepKey);
      match s
      case Returned(output) =>
        Completes(body, world, ctx.run, t0, t, output, RunCompleted(world.outputRef(output)));
        var alive := EndRun(ctx, RunCompleted(world.outputRef(output)));
        end := if alive then Reported(Completed) else Died;
        after := EndedRefines(body, world, before, reached, t, db.View(), ctx.run, CallKeys(ctx.calls), s, last, end);
      case Suspends(key, wake, status) =>
        ParksOpen(body, world, ctx.run, t0, t, key, wake, status);
        end := Park(ctx, key, wake, status);
        after := ParkedRefines(body, world, before, reached, t, db.View(), ctx.run, CallKeys(ctx.calls), s, end);
      case Diverged(key) =>
        Fails(body, world, ctx.run, t0, t, RunFailed(NONDETERMINISM, key), Reraised);
        var alive := EndRun(ctx, RunFailed(NONDETERMINISM, key));
        end := if alive then Reraised else Died;
        after := EndedRefines(body, world, before, reached, t, db.View(), ctx.run, CallKeys(ctx.calls), s, last, end);
      case Unavailable(error) =>
        Fails(body, world, ctx.run, t0, t, RunFailed(error, LastStep(ctx.lastStepKey)), Reraised);
        var alive := EndRun(ctx, RunFailed(error, LastStep(ctx.lastStepKey)));
        end := if alive then Reraised else Died;
        after := EndedRefines(body, world, before, reached, t, db.View(), ctx.run, CallKeys(ctx.calls), s, last, end);
      case Throws(error) =>
        Fails(body, world, ctx.run, t0, t, RunFailed(error, LastStep(ctx.lastStepKey)), Reported(Failed));
        var alive := EndRun(ctx, RunFailed(error, LastStep(ctx.lastStepKey)));
        end := if alive then Reported(Failed) else Died;
        after := EndedRefines(body, world, before, reached, t, db.View(), ctx.run, CallKeys(ctx.calls), s, last, end);
      case Killed =>
        end := Died;
        after := ParkedRefines(body, world, before, reached, t, t, ctx.run, CallKeys(ctx.calls), s, end);
    }
  }

  // ----- a pass as a run of the transition system -----

  /** The event that ends a pass by its signal. */
  function EndEvent(world: World, s: Signal, last: Key): Event
    requires s.Returned? || s.Throws? || s.Unavailable? || s.Diverged?
  {
    match s
    case Returned(output) => RunCompleted(world.outputRef(output))
    case Diverged(key) => RunFailed(NONDETERMINISM, key)
    case _ => RunFailed(s.error, last)
  }

  /** A pass that completes the run adds one value to those its passes returned: the one whose
      reference the log ends with. */
  ghost predicate Hands(world: World, before: Durable.Sys, after: Durable.Sys, log: Log, end: PassEnd) {
    && before.returned <= after.returned
    && (end == Reported(Completed) ==>
          log != [] && exists output ::
              Last(log) == RunCompleted(world.outputRef(output)) && after.returned == before.returned + [output])
    && (!end.Died? && end != Reported(Completed) ==> after.returned == before.returned)
  }

  lemma EndedWaits(t: Tables, t': Tables, run: RunId, e: Event)
    requires run in t.rows && t.rows[run].parent != Some(run)
    requires EndedPartly(t, t', run, e) || t' == EndedTables(t, run, e)
    ensures SameWaits(t, t')
    ensures t'.LogOf(run) == t.LogOf(run) || t'.LogOf(run) == t.LogOf(run) + [e]
    ensures t' == EndedTables(t, run, e) ==> t'.LogOf(run) == t.LogOf(run) + [e]
  {
    hide Settled, SettledPartly;
    AppliedLog(t, run, e);
    SettledElsewhere(Dequeued(Applied(t, run, e), run), run);
    forall t1 | SettledPartly(Dequeued(Applied(t, run, e), run), t1, run)
      ensures t1.LogOf(run) == t.LogOf(run) + [e] && SameWaits(t, t1)
    {
      PartlySettledElsewhere(Dequeued(Applied(t, run, e), run), t1, run);
    }
  }

  lemma EndedRefines(body: Body, world: World, before: Durable.Sys, reached: Durable.Sys, t: Tables,
      t': Tables, run: RunId,
      calls: multiset<Key>, s: Signal, last: Key, end: PassEnd)
      returns (after: Durable.Sys)
    requires s.Returned? || s.Throws? || s.Unavailable? || s.Diverged?
    requires Stands(body, before, reached, t, run, calls, s) && run in t.rows && t.rows[run].parent != Some(run)
    requires if end.Died? then EndedPartly(t, t', run, EndEvent(world, s, last))
             else t' == EndedTables(t, run, EndEvent(world, s, last)) && (end == Reported(Completed) <==> s.Returned?)
    ensures Refined(body, before, after, t', run, calls) && Hands(world, before, after, t'.LogOf(run), end)
  {
    hide Stands, Refined, SameWaits, EndedPartly, EndedTables, Tables.LogOf;
    var e := EndEvent(world, s, last);
    EndedWaits(t, t', run, e);
    if t'.LogOf(run) == t.LogOf(run) + [e] {
      after := EndRefines(body, before, reached, t, t', run, calls, s, e);
      assert Last(t'.LogOf(run)) == e;
    } else {
      after := CutRefines(body, before, reached, t, t', run, calls, s);
    }
  }

  lemma ParkedRefines(body: Body, world: World, before: Durable.Sys, reached: Durable.Sys, t: Tables,
      t': Tables, run: RunId,
      calls: multiset<Key>, s: Signal, end: PassEnd)
      returns (after: Durable.Sys)
    requires Stands(body, before, reached, t, run, calls, s) && run in t.rows
    requires t' == t || ParkedPartly(t, t', run) || exists found, status :: t' == ParkedTables(t, run, found, status)
    requires end != Reported(Completed)
    ensures Refined(body, before, after, t', run, calls) && Hands(world, before, after, t'.LogOf(run), end)
  {
    hide Stands, Refined, ParkedTables;
    if found, status :| t' == ParkedTables(t, run, found, status) {
      ParkedFrame(t, run, found, status);
    }
    after := CutRefines(body, before, reached, t, t', run, calls, s);
  }

  /** What a pass records of a run whose pinned version is gone. */
  function Unregistered(log: Log): Event {
    RunFailed(map["type" := "UnknownWorkflow"],
              match Project(log).currentStep case Some(key) => key case None => "<pinned-version>")
  }

  /** It blames the latest step that was started or failed the run, if any. */
  lemma UnregisteredBlames(log: Log) returns (i: int)
    ensures IsLatest(log, i, Step) && Unregistered(log).error == map["type" := "UnknownWorkflow"]
    ensures Unregistered(log).failedStep == if i < 0 then "<pinned-version>"
                                            else if log[i].StepStarted? then log[i].stepKey else log[i].failedStep
  {
    var output, error, start;
    i, output, error, start := ColumnsAreLatest(log);
  }

  predicate IsOpen(t: Tables, run: RunId) {
    run in t.rows && !WasCancelled(t.LogOf(run)) && !Project(t.LogOf(run)).status.Completed?
  }

  predicate IsSealed(t: Tables, run: RunId) {
    run in t.rows && !WasCancelled(t.LogOf(run)) && Project(t.LogOf(run)).status.Completed?
  }

  /** Replaying a completed run: unless the body raises by itself, no table changes, and the pass
      reports completion exactly when the log leads the body to its end. */
  ghost predicate SealedPass(body: Body, run: RunId, t0: Tables, t: Tables, end: PassEnd) {
    var log := t0.LogOf(run);
    && (end == Reported(Completed) <==> exists output :: ReplayEnds.Returns(body, log, output))
    && ((forall error :: !RaisesOn(body, log, error)) ==> t == t0 && (end == Reported(Completed) || end.Reraised?))
    && ((exists error :: RaisesOn(body, log, error)) ==>
          (end.Died? || (end == Reported(Failed) && NobodyWaits(t, run)))
          && exists error, failedStep :: RaisesOn(body, log, error)
               && if end.Died? then EndedPartly(t0, t, run, RunFailed(error, failedStep))
                  else t == EndedTables(t0, run, RunFailed(error, failedStep)))
  }

  /** What a pass over an open run promises, however it ends. */
  ghost predicate OpenPass(body: Body, world: World, run: RunId, t0: Tables, t: Tables, end: PassEnd, parked: bool) {
    && run in t.rows && t0.LogOf(run) <= t.LogOf(run)
    && StaysTidy(body, run, t0, t, end) && RowFollows(body, run, t0, t, end, parked)
    && QueueFollows(body, world, run, t0, t, end, parked)
    && (parked ==> GrewOpen(t0.LogOf(run), t.LogOf(run)))
    && (parked && !end.Died? ==> exists key, wake, kind :: RestsOn(body, run, t0, t, end, key, wake, kind))
    && (Stuck(body, world, t0, run) ==>
          parked && t.logs == t0.logs && t.timers == t0.timers && t.rows.Keys == t0.rows.Keys)
  }

  /** The run's frontier is a child step whose failure is on record already. */
  ghost predicate ChildFailed(body: Body, log: Log) {
    exists key :: AtFrontier(body, log, key, Child) && IsFailed(log, key)
  }

  /** Where a parked run rests: its status says failed if the run has failed before, pending if the
      child it waits for has failed already, and what it waits for otherwise, which is what the log
      folds to unless the pass has added nothing to a log that ends in a failure. */
  ghost predicate RestsOn(body: Body, run: RunId, t0: Tables, t: Tables, end: PassEnd, key: Key, wake: Wake,
      kind: StepKind)
    requires run in t.rows
  {
    var log := t.LogOf(run);
    && WakesOn(wake, kind) && AtFrontier(body, log, key, kind)
    && end == Reported(t.rows[run].status)
    && t.rows[run].status == (if Overruled(t0.LogOf(run)) then Failed
                              else if kind.Child? && IsFailed(log, key) then Pending
                              else StatusOf(wake))
    && (Project(log).status == StatusOf(wake) || (log == t0.LogOf(run) && log != [] && Last(log).RunFailed?))
  }

  predicate EndsWithRun(log: Log) {
    log != [] && (Last(log).RunFailed? || Last(log).RunCompleted?)
  }

  /** However the pass is cut the run stays tidy, or has completed; and its row's end columns keep
      up, unless the cut comes between the run's final event and the row update that follows it. */
  ghost predicate StaysTidy(body: Body, run: RunId, t0: Tables, t: Tables, end: PassEnd) {
    && (Tidy(body, t, run) || (end.Died? && t.LogOf(run) != [] && Last(t.LogOf(run)).RunCompleted?))
    && (EndInSync(t0, run) ==> EndInSync(t, run) || (end.Died? && EndsWithRun(t.LogOf(run))))
  }

  /** A pass that ends the run leaves the row equal to the fold of the log. One that parks it does if
      and only if no failure came before the pass and the awaited child has not failed yet, or the
      failure is still the latest event; a parked pass adds no end to the log. */
  ghost predicate RowFollows(body: Body, run: RunId, t0: Tables, t: Tables, end: PassEnd, parked: bool)
    requires run in t.rows
  {
    var log := t.LogOf(run);
    !end.Died? && EndInSync(t0, run) ==>
      if parked
      then Synced(t, run) <==>
             (!Overruled(t0.LogOf(run)) && !ChildFailed(body, log)) || (log != [] && Last(log).RunFailed?)
      else Synced(t, run)
  }

  /** A parked run is out of the queue unless the child it waits for had failed already and no
      failure of the run came before; an ended one always is, and its final event is the one the log
      before it calls for. */
  ghost predicate QueueFollows(body: Body, world: World, run: RunId, t0: Tables, t: Tables, end: PassEnd,
      parked: bool) {
    var log := t.LogOf(run);
    !end.Died? ==>
      if parked
      then run in t.queue <==> !Overruled(t0.LogOf(run)) && ChildFailed(body, log)
      else
        && run !in t.queue && NobodyWaits(t, run)
        && EndsWithRun(log) && IsDue(body, world, Front(log), Last(log)) && Fits(body, Front(log), Last(log), end)
        && (end == Reported(Completed) <==> Last(log).RunCompleted?)
  }

  /** What ends a run: its output when the body returns; the exception when the body raises; and a
      failure when its frontier step has failed or has no handler, or when body and log diverge. */
  ghost predicate IsDue(body: Body, world: World, log: Log, e: Event) {
    match e
    case RunCompleted(ref) => exists output :: ReplayEnds.Returns(body, log, output) && ref == world.outputRef(output)
    case RunFailed(error, step) =>
      || RaisesOn(body, log, error)
      || FailsAt(body, log, step)
      || LacksHandler(body, log, step, error)
      || (error == NONDETERMINISM && DivergesAt(body, log, step))
    case _ => false
  }

  /** What the pass reports: failed for an exception or a failed step; a body that has diverged or a
      step without a handler is raised to the caller. */
  ghost predicate Fits(body: Body, log: Log, e: Event, end: PassEnd) {
    match e
    case RunCompleted(_) => end == Reported(Completed)
    case RunFailed(error, step) =>
      || (end == Reported(Failed) && (RaisesOn(body, log, error) || FailsAt(body, log, step)))
      || (end.Reraised?
          && (LacksHandler(body, log, step, error) || (error == NONDETERMINISM && DivergesAt(body, log, step))))
    case _ => false
  }

  const NONDETERMINISM: Error := map["type" := "NonDeterminismError"]

  /** One log cannot lead a body both to a return and to an exception. */
  lemma ReturnsOrRaises(body: Body, log: Log, output: Value, error: Error)
    ensures !(ReplayEnds.Returns(body, log, output) && RaisesOn(body, log, error))
  {
    if ReplayEnds.Returns(body, log, output) && RaisesOn(body, log, error) {
      var h :| EndsAt(body, log, h, output);
      var h' :| Replays(body, log, h') && body(h') == Raise(error);
      OneEnd(body, log, h, h');
    }
  }

  /** A park cut by a crash changes a status and a queue row at most. */
  ghost predicate ParkedPartly(t: Tables, t': Tables, run: RunId) {
    && t'.logs == t.logs && t'.timers == t.timers && t'.rows.Keys == t.rows.Keys
    && (forall r :: r in t.rows && r != run ==> t'.rows[r] == t.rows[r])
    && (run in t.rows ==> t'.rows[run].(status := Pending) == t.rows[run].(status := Pending))
    && (t'.queue == t.queue || t'.queue == t.queue - {run})
  }

  lemma PartlyParked(t: Tables, run: RunId, status: RunStatus, pending: RunStatus)
    ensures var parked := Dequeued(StatusSet(t, run, status), run);
      && ParkedPartly(t, t, run) && ParkedPartly(t, StatusSet(t, run, status), run)
      && ParkedPartly(t, parked, run) && ParkedPartly(t, StatusSet(parked, run, pending), run)
  {
  }

  lemma StatusOfRow(t: Tables, run: RunId, status: RunStatus)
    ensures var t' := StatusSet(t, run, status);
            t'.rows.Keys == t.rows.Keys && (run in t.rows ==> t'.rows[run].status == status)
  {
  }

  lemma FoundAgain(t: Tables, run: RunId, key: Key, wake: Wake, status: RunStatus)
    ensures Found(Dequeued(StatusSet(t, run, status), run), run, key, wake, status) == Found(t, run, key, wake, status)
  {
    hide ParkedStatus;
  }

  lemma NeverCompleted(t: Tables, run: RunId, key: Key, wake: Wake, status: RunStatus)
    requires !status.IsTerminal()
    ensures !Found(t, run, key, wake, status).Completed?
  {
    hide Woken, LastEnd, IsTimed;
  }

  // ----- what the ends keep -----

  lemma BodyLeaves(body: Body, world: World, run: RunId, t0: Tables, t: Tables, s: Signal, last: Key)
    requires BodyEnded(body, run, t0, t, s, last) && LeavesStuck(body, world, t0, t, run, s)
    ensures Tidy(body, t, run) && Grown(t0, t, run) && run in t.rows && !s.Got?
    ensures Stuck(body, world, t0, run) ==> t == t0 && s.Suspends?
    ensures s.Suspends? ==> Parked(body, t, run, s.key, s.wake, s.status) && s.status == StatusOf(s.wake)
    ensures s.Returned? ==> IsDue(body, world, t.LogOf(run), RunCompleted(world.outputRef(s.output)))
    ensures s.Returned? ==> ReplayEnds.Returns(body, t.LogOf(run), s.output)
    ensures s.Throws? || s.Unavailable? ==> IsDue(body, world, t.LogOf(run), RunFailed(s.error, last))
    ensures s.Diverged? ==> IsDue(body, world, t.LogOf(run), RunFailed(NONDETERMINISM, s.key))
    ensures s.Diverged? ==> Fits(body, t.LogOf(run), RunFailed(NONDETERMINISM, s.key), Reraised)
    ensures s.Unavailable? ==> Fits(body, t.LogOf(run), RunFailed(s.error, last), Reraised)
    ensures s.Throws? ==> Fits(body, t.LogOf(run), RunFailed(s.error, last), Reported(Failed))
    ensures OpenPass(body, world, run, t0, t, Died, s.Suspends?)
  {
    hide Waits, Project, Stuck;
  }

  lemma SettledElsewhere(t: Tables, run: RunId)
    requires run in t.rows && t.rows[run].parent != Some(run)
    ensures var t' := Settled(t, run);
      && t'.LogOf(run) == t.LogOf(run) && run in t'.rows && t'.rows[run] == t.rows[run]
      && t'.rows.Keys == t.rows.Keys && t'.timers == t.timers && (run in t'.queue <==> run in t.queue)
  {
  }

  lemma NotSettledYet(t: Tables, child: RunId)
    ensures SettledPartly(t, t, child)
  {
  }

  lemma PartlySettledElsewhere(t: Tables, t': Tables, run: RunId)
    requires run in t.rows && t.rows[run].parent != Some(run) && SettledPartly(t, t', run)
    ensures t'.LogOf(run) == t.LogOf(run) && run in t'.rows && t'.rows[run] == t.rows[run]
    ensures t'.rows.Keys == t.rows.Keys && t'.timers == t.timers && t'.queue == t.queue
  {
  }

  lemma TidySettled(body: Body, t: Tables, t': Tables, run: RunId)
    requires Tidy(body, t, run) && run in t.rows
    requires run in t'.rows && t'.LogOf(run) == t.LogOf(run) && t'.rows.Keys == t.rows.Keys && t'.timers == t.timers
    requires t'.rows[run].parent == t.rows[run].parent && t'.rows[run].currentStep == t.rows[run].currentStep
    ensures Tidy(body, t', run) && StepInSync(t', run) == StepInSync(t, run)
  {
    hide RestsAs, StepInSync, Tidy;
    TidyElsewhere(body, t, t', run);
  }

  /** The cuts between a final event and the end of its clean-up. */
  lemma EndingOpen(body: Body, world: World, run: RunId, t0: Tables, t: Tables, e: Event)
    requires Tidy(body, t, run) && Grown(t0, t, run) && (e.RunFailed? || e.RunCompleted?)
    requires !Stuck(body, world, t0, run)
    requires Tidy(body, Applied(t, run, e), run) && (e.RunFailed? ==> Tidy(body, Appended(t, run, e), run))
    ensures forall t' :: EndedPartly(t, t', run, e) ==> OpenPass(body, world, run, t0, t', Died, false)
  {
    hide Tidy, Project, RowApplied, Tables.LogOf, SettledPartly, Stuck;
    TidyRow(body, t, run);
    AppliedSync(t, run, e);
    var t1 := Applied(t, run, e);
    TidyRow(body, t1, run);
    DequeuedLog(t1, run);
    forall t' | SettledPartly(Dequeued(t1, run), t', run) ensures OpenPass(body, world, run, t0, t', Died, false) {
      PartlySettledElsewhere(Dequeued(t1, run), t', run);
      TidySettled(body, t1, t', run);
    }
  }

  lemma DequeuedLog(t: Tables, run: RunId)
    ensures Dequeued(t, run).LogOf(run) == t.LogOf(run)
  {
  }

  lemma EndsOpen(body: Body, world: World, run: RunId, t0: Tables, t: Tables, e: Event, end: PassEnd)
    requires Tidy(body, t, run) && Grown(t0, t, run) && !Stuck(body, world, t0, run)
    requires e.RunFailed? || e.RunCompleted?
    requires Tidy(body, Applied(t, run, e), run) && (EndInSync(t, run) ==> Synced(Applied(t, run, e), run))
    requires !end.Died? && (end == Reported(Completed) <==> e.RunCompleted?)
    requires IsDue(body, world, t.LogOf(run), e) && Fits(body, t.LogOf(run), e, end)
    ensures OpenPass(body, world, run, t0, EndedTables(t, run, e), end, false)
  {
    hide Tidy, Project, EndedTables, RowApplied, IsDue, Fits, Stuck, Tables.LogOf, GrewOpen;
    hide NobodyWaits;
    EndTells(t, run, e);
    TidyRow(body, t, run);
    AppliedSync(t, run, e);
    var t1 := Applied(t, run, e);
    TidyRow(body, t1, run);
    assert Front(t.LogOf(run) + [e]) == t.LogOf(run);
    EndedFrame(t, run, e);
    GrewOpenEnds(t0.LogOf(run), t.LogOf(run));
    TidySettled(body, t1, EndedTables(t, run, e), run);
  }

  lemma EndedFrame(t: Tables, run: RunId, e: Event)
    requires run in t.rows && t.rows[run].parent != Some(run)
    ensures var t1, t' := Applied(t, run, e), EndedTables(t, run, e);
      && t'.LogOf(run) == t1.LogOf(run) && run in t1.rows && run in t'.rows && t'.rows[run] == t1.rows[run]
      && t'.rows.Keys == t1.rows.Keys && t'.timers == t1.timers && run !in t'.queue
  {
    hide Settled, Project;
    AppliedSync(t, run, e);
    SettledElsewhere(Dequeued(Applied(t, run, e), run), run);
  }

  lemma Fails(body: Body, world: World, run: RunId, t0: Tables, t: Tables, e: Event, end: PassEnd)
    requires Tidy(body, t, run) && Grown(t0, t, run) && e.RunFailed? && IsDue(body, world, t.LogOf(run), e)
    requires !Stuck(body, world, t0, run) && Fits(body, t.LogOf(run), e, end)
    ensures forall t' :: EndedPartly(t, t', run, e) ==> OpenPass(body, world, run, t0, t', Died, false)
    ensures OpenPass(body, world, run, t0, EndedTables(t, run, e), end, false)
  {
    hide Tidy, Grown, OpenPass, EndInSync, Synced, RowApplied, EndedPartly, Stuck;
    FailureTidy(body, t, run, e);
    EndingOpen(body, world, run, t0, t, e);
    EndsOpen(body, world, run, t0, t, e, end);
  }

  lemma Completes(body: Body, world: World, run: RunId, t0: Tables, t: Tables, output: Value, e: Event)
    requires Tidy(body, t, run) && Grown(t0, t, run) && e.RunCompleted?
               && ReplayEnds.Returns(body, t.LogOf(run), output)
    requires IsDue(body, world, t.LogOf(run), e) && !Stuck(body, world, t0, run)
    ensures forall t' :: EndedPartly(t, t', run, e) ==> OpenPass(body, world, run, t0, t', Died, false)
    ensures OpenPass(body, world, run, t0, EndedTables(t, run, e), Reported(Completed), false)
  {
    hide Tidy, Grown, OpenPass, EndInSync, Synced, RowApplied, Replays, EndedPartly, Stuck;
    var h :| EndsAt(body, t.LogOf(run), h, output);
    CompletionTidy(body, t, run, h, e);
    EndingOpen(body, world, run, t0, t, e);
    EndsOpen(body, world, run, t0, t, e, Reported(Completed));
  }

  lemma ParksOpen(body: Body, world: World, run: RunId, t0: Tables, t: Tables, key: Key, wake: Wake, status: RunStatus)
    requires Tidy(body, t, run) && Grown(t0, t, run) && run in t.rows && !WasCancelled(t0.LogOf(run))
    requires Parked(body, t, run, key, wake, status) && status == StatusOf(wake)
    requires Stuck(body, world, t0, run) ==> t == t0
    ensures forall t' :: ParkedPartly(t, t', run) ==> OpenPass(body, world, run, t0, t', Died, true)
    ensures var found := Found(t, run, key, wake, status);
            OpenPass(body, world, run, t0, ParkedTables(t, run, found, status), Reported(found), true)
  {
    hide OpenPass, Found, Stuck, Tidy, Grown, Parked, ParkedTables, ParkedPartly;
    forall t' | ParkedPartly(t, t', run) ensures OpenPass(body, world, run, t0, t', Died, true) {
      PartlyOpen(body, world, run, t0, t, t');
    }
    FullyParked(body, world, run, t0, t, key, wake, status);
  }

  lemma PartlyOpen(body: Body, world: World, run: RunId, t0: Tables, t: Tables, t': Tables)
    requires Tidy(body, t, run) && Grown(t0, t, run) && run in t.rows && ParkedPartly(t, t', run)
    requires Stuck(body, world, t0, run) ==> t == t0
    ensures OpenPass(body, world, run, t0, t', Died, true)
  {
    hide Tidy, Project, Stuck;
    assert t'.rows[run].(status := Pending).parent == t.rows[run].(status := Pending).parent;
    assert t'.rows[run].(status := Pending).currentStep == t.rows[run].(status := Pending).currentStep;
    TidySettled(body, t, t', run);
  }

  lemma FullyParked(body: Body, world: World, run: RunId, t0: Tables, t: Tables, key: Key, wake: Wake,
      status: RunStatus)
    requires Tidy(body, t, run) && Grown(t0, t, run) && run in t.rows && !WasCancelled(t0.LogOf(run))
    requires Parked(body, t, run, key, wake, status) && status == StatusOf(wake)
    requires Stuck(body, world, t0, run) ==> t == t0
    ensures var found := Found(t, run, key, wake, status);
            OpenPass(body, world, run, t0, ParkedTables(t, run, found, status), Reported(found), true)
  {
    hide Tidy, Project, Found, FrontierAt, ParkedTables, Overruled, Stuck, GrewOpen, WasCancelled;
    var found := Found(t, run, key, wake, status);
    var t' := ParkedTables(t, run, found, status);
    var h, kind :| WakesOn(wake, kind) && ParkedAt(body, t, run, h, key, kind, wake, status);
    ParkedFrame(t, run, found, status);
    GrewOpenEnds(t0.LogOf(run), t.LogOf(run));
    FoundStatus(body, t, run, h, key, kind, wake);
    TidySettled(body, t, t', run);
    FailedFolds(t.LogOf(run));
    assert RestsOn(body, run, t0, t', Reported(found), key, wake, kind);
  }

  lemma ParkedFrame(t: Tables, run: RunId, found: RunStatus, status: RunStatus)
    requires run in t.rows
    ensures var t' := ParkedTables(t, run, found, status);
      && t'.logs == t.logs && t'.LogOf(run) == t.LogOf(run) && t'.rows.Keys == t.rows.Keys && t'.timers == t.timers
      && t'.rows[run] == t.rows[run].(status := found)
      && (run in t'.queue <==> found.Pending? && found != status)
  {
  }

  /** The reconciling read finds a failure on record, or that of the awaited child; every other
      trace of a wake would be a record of the step. */
  lemma FoundStatus(body: Body, t: Tables, run: RunId, h: History, key: Key, kind: StepKind, wake: Wake)
    requires run in t.rows && WakesOn(wake, kind) && ParkedAt(body, t, run, h, key, kind, wake, StatusOf(wake))
    requires !WasCancelled(t.LogOf(run))
    ensures var log := t.LogOf(run);
      && (ChildFailed(body, log) <==> kind.Child? && IsFailed(log, key))
      && Found(t, run, key, wake, StatusOf(wake)) == (if Overruled(log) then Failed
                                                      else if kind.Child? && IsFailed(log, key) then Pending
                                                      else StatusOf(wake))
  {
    hide Project, IsTimed;
    var log := t.LogOf(run);
    LastEndFound(log);
    ChildFailedAt(body, log, h, key, kind);
    Unrecorded(body, log, h, key, kind);
  }

  lemma Unrecorded(body: Body, log: Log, h: History, key: Key, kind: StepKind)
    requires FrontierAt(body, log, h, key, kind)
    ensures if kind.Gate? then !IsResolved(log, key) else !IsCompleted(log, key)
  {
    hide Replays;
    CompletionsAreResults(log, key);
    ResolutionsAreDecisions(log, key);
  }

  lemma ChildFailedAt(body: Body, log: Log, h: History, key: Key, kind: StepKind)
    requires FrontierAt(body, log, h, key, kind)
    ensures ChildFailed(body, log) <==> kind.Child? && IsFailed(log, key)
  {
    hide FrontierAt;
    if kind.Child? && IsFailed(log, key) {
      assert AtFrontier(body, log, key, Child);
    }
    if ChildFailed(body, log) {
      var k, h' :| FrontierAt(body, log, h', k, Child) && IsFailed(log, k);
      FrontierUnique(body, log, h, key, kind, h', k, Child);
    }
  }

  lemma FailedFolds(log: Log)
    ensures log != [] && Last(log).RunFailed? ==> Project(log).status.Failed? && Overruled(log)
  {
    assert log != [] ==> Last(log) in log;
  }
}
