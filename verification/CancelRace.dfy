/** A child is cancelled while an executor still works on it: the commits of the two interleave, and
    the canceller's settle reads whatever status was written last. */
module CancelRace {
  import opened Prelude
  import opened Keys
  import opened Events
  import opened Tables
  import opened Settle

  datatype Canceller =
    | Checked                      // found the child live
    | Logged                       // run_cancelled is in the log
    | Marked                       // the row says cancelled
    | Cleaned                      // queue row and timers are gone
    | Saw(row: RunRow)             // the settle has read the child's row
    | Recorded                     // the verdict is in the parent's log
    | Repended                     // the parent's row says pending
    | Over

  datatype Executor =
    | Working
    | Logging(event: Event)        // an event is in the log, its row update is due
    | Parked                       // the suspend's status is written
    | Unqueued                     // the queue row is deleted; the log is not read again yet
    | Restoring                    // saw run_cancelled: the status write is due
    | Waking                       // saw its wake: the pending status is due
    | Gone

  /** The child and its parent are fixed; other runs take no part. */
  datatype Race = Race(parent: RunId, key: Key, actor: string, reason: string) {
    function Child(): RunId {
      ChildRunId(parent, key)
    }

    function Cancellation(): Event {
      RunCancelled(actor, reason)
    }
  }

  datatype State = State(t: Tables, canceller: Canceller, executor: Executor)

  datatype Step =
    | Log | Mark | CleanUp | See | Record | Repend | Wake                      // the canceller's
    | Checkpoint(event: Event) | Fold | Boundary | Park(status: RunStatus)     // the executor's
    | Unqueue | Reconcile(woken: bool) | Restore | Awaken | Crash

  predicate IsCanceller(step: Step) {
    step.Log? || step.Mark? || step.CleanUp? || step.See? || step.Record? || step.Repend? || step.Wake?
  }

  predicate Enabled(r: Race, s: State, step: Step) {
    match step
    case Log => s.canceller.Checked?
    case Mark => s.canceller.Logged?
    case CleanUp => s.canceller.Marked?
    case See => s.canceller.Cleaned? && r.Child() in s.t.rows
    case Record => s.canceller.Saw?
    case Repend => s.canceller.Recorded?
    case Wake => s.canceller.Repended?
    case Checkpoint(e) => s.executor.Working? && !e.EndsRun()
    case Fold => s.executor.Logging?
    case Boundary => s.executor.Working? && WasCancelled(s.t.LogOf(r.Child()))
    case Park(status) => s.executor.Working? && !status.IsTerminal()
    case Unqueue => s.executor.Parked?
    case Reconcile(_) => s.executor.Unqueued?
    case Restore => s.executor.Restoring?
    case Awaken => s.executor.Waking?
    case Crash => true
  }

  /** The settle goes by the row it has read. */
  function AsSeen(r: Race, t: Tables, row: RunRow): Tables {
    t.(rows := t.rows[r.Child() := row])
  }

  function Do(r: Race, s: State, step: Step): State
    requires Enabled(r, s, step)
  {
    var child := r.Child();
    match step
    case Log => s.(t := Appended(s.t, child, r.Cancellation()), canceller := Logged)
    case Mark => s.(t := RowApplied(s.t, child, r.Cancellation()), canceller := Marked)
    case CleanUp => s.(t := Untimed(Dequeued(s.t, child), child), canceller := Cleaned)
    case See => s.(canceller := Saw(s.t.rows[child]))
    case Record =>
      if Settles(AsSeen(r, s.t, s.canceller.row), child) then
        s.(t := Appended(s.t, r.parent, Verdict(s.t.LogOf(r.parent), child, s.canceller.row, r.key)),
            canceller := Recorded)
      else s.(canceller := Over)
    case Repend => s.(t := StatusSet(s.t, r.parent, Pending), canceller := Repended)
    case Wake => s.(t := Enqueued(s.t, r.parent), canceller := Over)
    case Checkpoint(e) => s.(t := Appended(s.t, child, e), executor := Logging(e))
    case Fold => s.(t := RowApplied(s.t, child, s.executor.event), executor := Working)
    case Boundary => s.(executor := Restoring)
    case Park(status) => s.(t := StatusSet(s.t, child, status), executor := Parked)
    case Unqueue => s.(t := Dequeued(s.t, child), executor := Unqueued)
    case Reconcile(woken) =>
      s.(executor := if WasCancelled(s.t.LogOf(child)) then Restoring else if woken then Waking else Gone)
    case Restore => s.(t := Dequeued(StatusSet(s.t, child, RunStatus.Cancelled), child), executor := Gone)
    case Awaken => s.(t := Enqueued(StatusSet(s.t, child, Pending), child), executor := Gone)
    case Crash => s.(executor := Gone)
  }

  ghost predicate Runs(r: Race, s: State, steps: seq<Step>)
    decreases |steps|, 0
  {
    steps == [] || (Runs(r, s, Front(steps)) && Enabled(r, After(r, s, Front(steps)), Last(steps)))
  }

  ghost function After(r: Race, s: State, steps: seq<Step>): State
    requires Runs(r, s, steps)
    decreases |steps|, 1
  {
    if steps == [] then s else Do(r, After(r, s, Front(steps)), Last(steps))
  }

  // ----- the schedule -----

  /** A status the executor writes that is not the cancelled one. */
  predicate Overwrites(step: Step) {
    step.Fold? || step.Park? || step.Awaken?
  }

  predicate Cancels(step: Step) {
    step.Mark? || step.Restore?
  }

  /** Of the steps that write the child's status, the last is an executor's overwrite. */
  ghost predicate Overwritten(steps: seq<Step>) {
    exists i :: StandsAt(steps, i)
  }

  ghost predicate StandsAt(steps: seq<Step>, i: nat) {
    i < |steps| && Overwrites(steps[i]) && forall j :: i < j < |steps| ==> !Cancels(steps[j])
  }

  /** The steps before the settle's read. */
  function BeforeRead(steps: seq<Step>): seq<Step> {
    if steps == [] then [] else if Last(steps).See? then Front(steps) else BeforeRead(Front(steps))
  }

  lemma OneMoreStep(steps: seq<Step>)
    requires steps != []
    ensures Overwritten(steps) <==> Overwrites(Last(steps)) || (!Cancels(Last(steps)) && Overwritten(Front(steps)))
  {
    var n := |steps| - 1;
    if Overwrites(steps[n]) {
      assert StandsAt(steps, n);
    } else if i: nat :| StandsAt(steps, i) {
      assert StandsAt(Front(steps), i);
    } else if !Cancels(steps[n]) {
      forall i: nat ensures !StandsAt(Front(steps), i) {
        assert !StandsAt(steps, i);
      }
    }
  }

  // ----- every interleaving -----

  /** The child is live and its parent waits for it. */
  ghost predicate Begins(r: Race, t: Tables) {
    && t.IsLive(r.Child()) && t.rows[r.Child()].parent == Some(r.parent)
    && t.IsLive(r.parent) && r.parent !in t.queue
    && IsStarted(t.LogOf(r.parent), r.key, Child) && !IsSettled(t.LogOf(r.parent), r.key)
  }

  function Start(t: Tables): State {
    State(t, Checked, Working)
  }

  ghost predicate ParentAsBefore(r: Race, t0: Tables, t: Tables)
    requires r.parent in t0.rows
  {
    r.parent in t.rows && t.rows[r.parent] == t0.rows[r.parent] && t.LogOf(r.parent) == t0.LogOf(r.parent)
        && r.parent !in t.queue
  }

  /** The child's step has failed on the parent's log. */
  ghost predicate HasVerdict(r: Race, t0: Tables, t: Tables) {
    exists error :: t.LogOf(r.parent) == t0.LogOf(r.parent) + [StepFailed(r.key, error, 1, false)]
  }

  /** ... and the parent has been woken. */
  ghost predicate IsTold(r: Race, t0: Tables, t: Tables) {
    HasVerdict(r, t0, t) && r.parent in t.rows && t.rows[r.parent].status.Pending? && r.parent in t.queue
  }

  ghost predicate Inv(r: Race, t0: Tables, s: State, steps: seq<Step>)
    requires r.parent in t0.rows
  {
    && r.Child() in s.t.rows && s.t.rows[r.Child()].parent == Some(r.parent) && r.parent in s.t.rows
    && (s.executor.Logging? ==> !s.executor.event.EndsRun())
    && match s.canceller
       case Checked => ParentAsBefore(r, t0, s.t)
       case Logged => ParentAsBefore(r, t0, s.t)
       case Marked => ParentAsBefore(r, t0, s.t) && StatusFits(r, s.t.rows[r.Child()], steps)
       case Cleaned => ParentAsBefore(r, t0, s.t) && StatusFits(r, s.t.rows[r.Child()], steps)
       case Saw(row) => ParentAsBefore(r, t0, s.t) && StatusFits(r, row, BeforeRead(steps))
       case Recorded => !Overwritten(BeforeRead(steps)) && HasVerdict(r, t0, s.t)
       case Repended => !Overwritten(BeforeRead(steps)) && HasVerdict(r, t0, s.t) && s.t.rows[r.parent].status.Pending?
       case Over => if Overwritten(BeforeRead(steps)) then ParentAsBefore(r, t0, s.t) else IsTold(r, t0, s.t)
  }

  ghost predicate StatusFits(r: Race, row: RunRow, steps: seq<Step>) {
    && row.parent == Some(r.parent)
    && (if Overwritten(steps) then !row.status.IsTerminal() else row.status == RunStatus.Cancelled)
  }

  lemma ChildIsNotParent(r: Race)
    ensures r.Child() != r.parent
  {
  }

  lemma StepKeeps(r: Race, t0: Tables, s: State, steps: seq<Step>)
    requires Begins(r, t0) && steps != [] && Enabled(r, s, Last(steps)) && Inv(r, t0, s, Front(steps))
    ensures Inv(r, t0, Do(r, s, Last(steps)), steps)
  {
    hide Inv, Do, Overwritten, Begins;
    var step := Last(steps);
    if step.Record? {
      RecordKeeps(r, t0, s, steps);
    } else if IsCanceller(step) {
      CancellerKeeps(r, t0, s, steps);
    } else {
      ExecutorKeeps(r, t0, s, steps);
    }
  }

  lemma CancellerKeeps(r: Race, t0: Tables, s: State, steps: seq<Step>)
    requires Begins(r, t0) && steps != [] && Enabled(r, s, Last(steps)) && Inv(r, t0, s, Front(steps))
    requires IsCanceller(Last(steps)) && !Last(steps).Record?
    ensures Inv(r, t0, Do(r, s, Last(steps)), steps)
  {
    hide Overwritten, Verdict, Settles, HasVerdict, IsSettled, IsStarted, WasCancelled;
    ChildIsNotParent(r);
    OneMoreStep(steps);
    SameVerdict(r, t0, s.t, Do(r, s, Last(steps)).t);
  }

  lemma ExecutorKeeps(r: Race, t0: Tables, s: State, steps: seq<Step>)
    requires Begins(r, t0) && steps != [] && Enabled(r, s, Last(steps)) && Inv(r, t0, s, Front(steps))
    requires !IsCanceller(Last(steps))
    ensures Inv(r, t0, Do(r, s, Last(steps)), steps)
  {
    hide Overwritten, Verdict, Settles, HasVerdict, IsTold, StatusFits, ParentAsBefore, IsSettled, IsStarted,
        WasCancelled, Do;
    var s' := Do(r, s, Last(steps));
    ExecutorTables(r, s, Last(steps));
    OneMoreStep(steps);
    SameVerdict(r, t0, s.t, s'.t);
    SameParent(r, t0, s.t, s'.t);
    if s.canceller.Marked? || s.canceller.Cleaned? {
      ExecutorStatus(r, s.t.rows[r.Child()], s'.t.rows[r.Child()], steps);
    }
  }

  /** The executor writes to the child only, and its status says which step it was. */
  lemma ExecutorTables(r: Race, s: State, step: Step)
    requires Enabled(r, s, step) && r.Child() in s.t.rows && r.parent in s.t.rows
    requires s.executor.Logging? ==> !s.executor.event.EndsRun()
    requires !IsCanceller(step)
    ensures var s' := Do(r, s, step); var child := r.Child();
      && s'.canceller == s.canceller && (s'.executor.Logging? ==> !s'.executor.event.EndsRun())
      && s'.t.LogOf(r.parent) == s.t.LogOf(r.parent) && (r.parent in s'.t.queue <==> r.parent in s.t.queue)
      && child in s'.t.rows && r.parent in s'.t.rows && s'.t.rows[r.parent] == s.t.rows[r.parent]
      && s'.t.rows[child].parent == s.t.rows[child].parent
      && (if Overwrites(step) then !s'.t.rows[child].status.IsTerminal()
          else if Cancels(step) then s'.t.rows[child].status == RunStatus.Cancelled
          else s'.t.rows[child].status == s.t.rows[child].status)
  {
    hide WasCancelled;
    ChildIsNotParent(r);
  }

  lemma ExecutorStatus(r: Race, row: RunRow, row': RunRow, steps: seq<Step>)
    requires steps != [] && StatusFits(r, row, Front(steps)) && row'.parent == row.parent
    requires if Overwrites(Last(steps)) then !row'.status.IsTerminal()
             else if Cancels(Last(steps)) then row'.status == RunStatus.Cancelled
             else row'.status == row.status
    ensures StatusFits(r, row', steps)
  {
    hide Overwritten;
    OneMoreStep(steps);
  }

  lemma SameParent(r: Race, t0: Tables, t: Tables, t': Tables)
    requires r.parent in t0.rows && r.parent in t.rows && r.parent in t'.rows && t'.rows[r.parent] == t.rows[r.parent]
    requires t'.LogOf(r.parent) == t.LogOf(r.parent) && (r.parent in t'.queue <==> r.parent in t.queue)
    ensures ParentAsBefore(r, t0, t) ==> ParentAsBefore(r, t0, t')
    ensures IsTold(r, t0, t) ==> IsTold(r, t0, t')
  {
    hide HasVerdict;
    SameVerdict(r, t0, t, t');
  }

  lemma SameVerdict(r: Race, t0: Tables, t: Tables, t': Tables)
    requires t'.LogOf(r.parent) == t.LogOf(r.parent)
    ensures HasVerdict(r, t0, t) ==> HasVerdict(r, t0, t')
  {
  }

  lemma RecordKeeps(r: Race, t0: Tables, s: State, steps: seq<Step>)
    requires Begins(r, t0) && steps != [] && Last(steps).Record? && s.canceller.Saw? && Inv(r, t0, s, Front(steps))
    ensures Inv(r, t0, Do(r, s, Last(steps)), steps)
  {
    hide Overwritten;
    ChildIsNotParent(r);
    var log := s.t.LogOf(r.parent);
    DispatchFound(log, r.parent, r.key);
    FailuresAreFailed(log, r.key);
    var seen := AsSeen(r, s.t, s.canceller.row);
    assert seen.LogOf(r.parent) == log && seen.rows[r.parent] == t0.rows[r.parent];
    if s.canceller.row.status == RunStatus.Cancelled {
      assert Verdict(log, r.Child(), s.canceller.row, r.key) == StepFailed(r.key,
          ChildError(r.Child(), s.canceller.row), 1, false);
    }
  }

  lemma {:induction false} RunKeeps(r: Race, t0: Tables, steps: seq<Step>)
    requires Begins(r, t0) && Runs(r, Start(t0), steps)
    ensures Inv(r, t0, After(r, Start(t0), steps), steps)
    decreases |steps|
  {
    hide Inv;
    if steps == [] {
      BeginsRight(r, t0);
    } else {
      RunKeeps(r, t0, Front(steps));
      StepKeeps(r, t0, After(r, Start(t0), Front(steps)), steps);
    }
  }

  lemma BeginsRight(r: Race, t0: Tables)
    requires Begins(r, t0)
    ensures Inv(r, t0, Start(t0), [])
  {
  }

  /** Over every interleaving: the cancelled child's parent is told if and only if no executor's
      status write falls between the cancellation's row update and the settle's read, unless the
      executor itself has restored the cancelled status by then; else the parent stays as it was. */
  lemma ParentToldIff(r: Race, t0: Tables, steps: seq<Step>)
    requires Begins(r, t0) && Runs(r, Start(t0), steps) && After(r, Start(t0), steps).canceller.Over?
    ensures var t := After(r, Start(t0), steps).t;
      && (IsTold(r, t0, t) <==> !Overwritten(BeforeRead(steps)))
      && (ParentAsBefore(r, t0, t) <==> Overwritten(BeforeRead(steps)))
  {
    hide Overwritten, Begins, Runs, After;
    RunKeeps(r, t0, steps);
  }

  lemma RunsOn(r: Race, s: State, steps: seq<Step>, step: Step)
    requires Runs(r, s, steps) && Enabled(r, After(r, s, steps), step)
    ensures Runs(r, s, steps + [step]) && After(r, s, steps + [step]) == Do(r, After(r, s, steps), step)
  {
    assert Front(steps + [step]) == steps;
  }

  /** The executor parks between the two, and restores the status too late: the child ends cancelled,
      everybody is done, and its parent waits for ever. */
  lemma CancelRaceLosesParent(r: Race, t0: Tables) returns (steps: seq<Step>)
    requires Begins(r, t0)
    ensures Runs(r, Start(t0), steps)
    ensures var s := After(r, Start(t0), steps);
      && s.canceller.Over? && s.executor.Gone?
      && r.Child() in s.t.rows && s.t.rows[r.Child()].status == RunStatus.Cancelled && ParentAsBefore(r, t0, s.t)
  {
    hide Overwritten, Runs, After, Begins, ParentAsBefore;
    steps := ParksTooEarly(r, t0);
    ChildIsNotParent(r);
    var s := After(r, Start(t0), steps);
    RunsOn(r, Start(t0), steps, Unqueue);
    RunsOn(r, Start(t0), steps + [Unqueue], Reconcile(false));
    RunsOn(r, Start(t0), steps + [Unqueue] + [Reconcile(false)], Restore);
    steps := steps + [Unqueue] + [Reconcile(false)] + [Restore];
    SameParent(r, t0, s.t, After(r, Start(t0), steps).t);
  }

  lemma ParksTooEarly(r: Race, t0: Tables) returns (steps: seq<Step>)
    requires Begins(r, t0)
    ensures Runs(r, Start(t0), steps)
    ensures var s := After(r, Start(t0), steps);
      && s.canceller.Over? && s.executor.Parked? && r.Child() in s.t.rows && r.parent in t0.rows && r.parent in s.t.rows
      && ParentAsBefore(r, t0, s.t) && WasCancelled(s.t.LogOf(r.Child()))
  {
    var s0 := Start(t0);
    assert Runs(r, s0, []) && After(r, s0, []) == s0;
    hide Overwritten, Runs, After, IsStarted, IsSettled, Verdict;
    ChildIsNotParent(r);
    RunsOn(r, s0, [], Log);
    assert r.Cancellation() in After(r, s0, [] + [Log]).t.LogOf(r.Child());
    RunsOn(r, s0, [] + [Log], Mark);
    RunsOn(r, s0, [] + [Log] + [Mark], Park(WaitingTimer));
    steps := [] + [Log] + [Mark] + [Park(WaitingTimer)];
    RunsOn(r, s0, steps, CleanUp);
    RunsOn(r, s0, steps + [CleanUp], See);
    RunsOn(r, s0, steps + [CleanUp] + [See], Record);
    steps := steps + [CleanUp] + [See] + [Record];
  }
}
