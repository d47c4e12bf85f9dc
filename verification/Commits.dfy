/** What each commit of a sequential pass keeps of its run: an append and the row update that
    follows it, a timer, a started child. */
module Commits {
  import opened Prelude
  import opened Keys
  import opened Events
  import opened Program
  import opened Tables
  import opened Frontier

  /** A tidy run whose frontier is the await after `h`. */
  ghost predicate Faces(body: Body, t: Tables, run: RunId, h: History, key: Key, kind: StepKind) {
    Tidy(body, t, run) && FrontierAt(body, t.LogOf(run), h, key, kind)
  }

  function Applied(t: Tables, run: RunId, e: Event): Tables {
    RowApplied(Appended(t, run, e), run, e)
  }

  lemma AppliedLog(t: Tables, run: RunId, e: Event)
    ensures Appended(t, run, e).LogOf(run) == Applied(t, run, e).LogOf(run) == t.LogOf(run) + [e]
  {
  }

  /** An append and the row update that follows it. */
  lemma AppliedSync(t: Tables, run: RunId, e: Event)
    requires run in t.rows
    ensures Appended(t, run, e).LogOf(run) == Applied(t, run, e).LogOf(run) == t.LogOf(run) + [e]
    ensures EndInSync(t, run) ==> EndInSync(Applied(t, run, e), run)
    ensures EndInSync(t, run) && !e.RunFailed? && !e.RunCompleted? ==> EndInSync(Appended(t, run, e), run)
    ensures StepInSync(t, run) || e.StepStarted? || e.RunFailed? ==> StepInSync(Applied(t, run, e), run)
    ensures (StepInSync(t, run) && !e.StepStarted?) || e.RunFailed? ==> StepInSync(Appended(t, run, e), run)
    ensures Applied(t, run, e).rows[run].status == Project(t.LogOf(run) + [e]).status == Fold(Project(t.LogOf(run)),
              e).status
    ensures Applied(t, run, e).rows[run].parent == t.rows[run].parent
    ensures Last(t.LogOf(run) + [e]) == e
    ensures SameRecords(t.LogOf(run), t.LogOf(run) + [e]) || e.StepCompleted? || e.GateResolved?
  {
    ProjectAppend(t.LogOf(run), e);
    AppendCounts(t.LogOf(run), e);
  }

  lemma AppliedWaits(t: Tables, run: RunId, e: Event, key: Key, kind: StepKind)
    requires run in t.rows
    ensures Waits(Applied(t, run, e), run, key, kind) <==> Waits(Appended(t, run, e), run, key, kind)
    ensures Waits(Appended(t, run, e), run, key, kind) ==>
              Waits(t, run, key, kind) || (e.GateOpened? && e.stepKey == key && kind.Gate?)
    ensures e.StepCompleted? && e.stepKey == key && !kind.Gate? ==> !Waits(Appended(t, run, e), run, key, kind)
    ensures e.GateResolved? && e.stepKey == key && kind.Gate? ==> !Waits(Appended(t, run, e), run, key, kind)
  {
    WaitsAppended(t, run, e, key, kind);
  }

  /** An event about the frontier step that records nothing for it. */
  lemma EventKeeps(body: Body, t: Tables, run: RunId, h: History, key: Key, kind: StepKind, e: Event)
    requires Faces(body, t, run, h, key, kind)
    requires e.StepStarted? || e.StepFailed? || e.GateOpened?
    requires e.stepKey == key && (e.StepStarted? ==> e.stepKind == kind) && (e.GateOpened? ==> kind.Gate?)
    requires StepInSync(t, run) || e.StepStarted?
    requires Waits(t, run, key, kind) ==> e.StepFailed? && !e.willRetry && kind.Child?
    ensures Faces(body, Appended(t, run, e), run, h, key, kind) && Faces(body, Applied(t, run, e), run, h, key, kind)
    ensures StepInSync(Applied(t, run, e), run)
    ensures e.GateOpened? ==> RestsAs(Applied(t, run, e), run, WaitingGate)
    ensures !e.GateOpened? && !Waits(t, run, key, kind) ==> !Waits(Applied(t, run, e), run, key, kind)
  {
    hide Waits, FrontierAt, SameRecords, Tidy;
    TidyRow(body, t, run);
    AppliedSync(t, run, e);
    ProjectAppend(t.LogOf(run), e);
    forall k, kd
      ensures Waits(Appended(t, run, e), run, k, kd) ==> Waits(t, run, k, kd) || (k == key && kd == kind)
      ensures Waits(Applied(t, run, e), run, k, kd) ==> Waits(t, run, k, kd) || (k == key && kd == kind)
      ensures !e.GateOpened? && !Waits(t, run, k, kd) ==>
                !Waits(Appended(t, run, e), run, k, kd) && !Waits(Applied(t, run, e), run, k, kd)
    {
      AppliedWaits(t, run, e, k, kd);
    }
    TidyKept(body, t, Appended(t, run, e), run, h, key, kind);
    TidyKept(body, t, Applied(t, run, e), run, h, key, kind);
  }

  lemma TidyRow(body: Body, t: Tables, run: RunId)
    requires Tidy(body, t, run)
    ensures run in t.rows && t.rows[run].parent != Some(run)
  {
  }

  lemma RecordFacts(log: Log, key: Key, kind: StepKind, e: Event, value: Value)
    requires Recorded(log, key, kind).None? && Records(e, key, kind, value)
    ensures Extends(log, log + [e]) && Recorded(log + [e], key, kind) == Some(value)
    ensures e.StepCompleted? || e.GateResolved?
  {
    AppendCounts(log, e);
  }

  /** The event that gives the step its value. */
  predicate Records(e: Event, key: Key, kind: StepKind, value: Value) {
    if kind.Gate? then e.GateResolved? && e.stepKey == key && value == DecisionValue(e.decision)
    else e == StepCompleted(key, value)
  }

  /** A recorded value moves the run past its frontier. */
  lemma RecordAdvances(body: Body, t: Tables, run: RunId, h: History, key: Key, kind: StepKind, e: Event, value: Value)
    requires Faces(body, t, run, h, key, kind) && run in t.rows && StepInSync(t, run)
    requires Records(e, key, kind, value)
    ensures Tidy(body, Appended(t, run, e), run) && Tidy(body, Applied(t, run, e), run)
    ensures StepInSync(Applied(t, run, e), run)
    ensures Replays(body, t.LogOf(run) + [e], h + [[value]])
  {
    hide Waits, Replays, Tidy, Results, Decisions, Recorded, Extends, Project, KeysAt, CallsAt;
    TidyRow(body, t, run);
    AppliedSync(t, run, e);
    RecordFacts(t.LogOf(run), key, kind, e, value);
    forall k, kd
      ensures Waits(Appended(t, run, e), run, k, kd) ==> Waits(t, run, k, kd)
      ensures Waits(Applied(t, run, e), run, k, kd) ==> Waits(t, run, k, kd)
      ensures k == key && kd == kind ==>
                !Waits(Appended(t, run, e), run, k, kd) && !Waits(Applied(t, run, e), run, k, kd)
    {
      AppliedWaits(t, run, e, k, kd);
    }
    TidyAdvanced(body, t, Appended(t, run, e), run, h, key, kind, value);
    TidyAdvanced(body, t, Applied(t, run, e), run, h, key, kind, value);
  }

  /** Changes that leave the run's log, row and wake sources alone. */
  lemma TidyElsewhere(body: Body, t: Tables, t': Tables, run: RunId)
    requires Tidy(body, t, run)
    requires run in t'.rows && t'.LogOf(run) == t.LogOf(run)
    requires t'.rows[run].parent == t.rows[run].parent && t'.rows[run].currentStep == t.rows[run].currentStep
    requires forall k, kd :: Waits(t', run, k, kd) ==> Waits(t, run, k, kd)
    ensures Tidy(body, t', run)
    ensures StepInSync(t', run) == StepInSync(t, run)
    ensures forall status :: RestsAs(t', run, status) == RestsAs(t, run, status)
  {
    hide Waits, RestartsStep;
  }

  /** A sleep timer for a step whose start is the latest event. */
  lemma ArmKeeps(body: Body, t: Tables, run: RunId, h: History, key: Key, id: nat)
    requires Faces(body, t, run, h, key, Sleep) && run in t.rows && StepInSync(t, run) && id !in t.timers
    requires t.LogOf(run) != [] && Last(t.LogOf(run)) == StepStarted(key, Sleep)
    ensures var t' := TimerAdded(t, id, TimerRow(run, key, SleepTimer));
            Faces(body, t', run, h, key, Sleep) && RestsAs(t', run, WaitingTimer)
  {
    hide FrontierAt;
    var t' := TimerAdded(t, id, TimerRow(run, key, SleepTimer));
    ProjectAppend(Front(t.LogOf(run)), Last(t.LogOf(run)));
    assert t.LogOf(run) == Front(t.LogOf(run)) + [Last(t.LogOf(run))];
    TidyKept(body, t, t', run, h, key, Sleep);
  }

  /** A timer no sleep waits for. */
  lemma OtherTimerKeeps(body: Body, t: Tables, run: RunId, timer: TimerRow, id: nat)
    requires Tidy(body, t, run) && id !in t.timers && !timer.kind.SleepTimer?
    ensures var t' := TimerAdded(t, id, timer);
      && Tidy(body, t', run) && t'.rows == t.rows && t'.LogOf(run) == t.LogOf(run)
      && (forall k, kd :: Waits(t', run, k, kd) ==> Waits(t, run, k, kd))
  {
    hide RestsAs, StepInSync, RestartsStep, Tidy;
    var t' := TimerAdded(t, id, timer);
    TidyRow(body, t, run);
    assert forall i :: i in t'.timers && i != id ==> i in t.timers && t'.timers[i] == t.timers[i];
    TidyElsewhere(body, t, t', run);
  }

  /** A child's row, after its parent's step_started. */
  lemma ChildKeeps(body: Body, t: Tables, run: RunId, h: History, key: Key)
    requires Faces(body, t, run, h, key, Child) && run in t.rows && StepInSync(t, run)
    requires ChildRunId(run, key) !in t.rows
    requires t.LogOf(run) != [] && Last(t.LogOf(run)) == StepStarted(key, Child)
    ensures var t' := RunInserted(t, ChildRunId(run, key), Some(run));
            Faces(body, t', run, h, key, Child) && RestsAs(t', run, Running)
  {
    hide FrontierAt;
    var t' := RunInserted(t, ChildRunId(run, key), Some(run));
    ProjectAppend(Front(t.LogOf(run)), Last(t.LogOf(run)));
    assert t.LogOf(run) == Front(t.LogOf(run)) + [Last(t.LogOf(run))];
    TidyKept(body, t, t', run, h, key, Child);
  }

  /** A run that fails is tidy and, if its end was in sync, equals its fold. */
  lemma FailureTidy(body: Body, t: Tables, run: RunId, e: Event)
    requires Tidy(body, t, run) && e.RunFailed?
    ensures Tidy(body, Appended(t, run, e), run) && Tidy(body, Applied(t, run, e), run)
    ensures EndInSync(t, run) ==> Synced(Applied(t, run, e), run)
  {
    hide Waits, FrontierAt;
    var t' := Applied(t, run, e);
    AppliedSync(t, run, e);
    forall k, kd ensures Waits(t', run, k, kd) <==> Waits(Appended(t, run, e), run, k, kd) {
      AppliedWaits(t, run, e, k, kd);
    }
    forall k, kd | Waits(t', run, k, kd) ensures AtFrontier(body, t'.LogOf(run), k, kd) {
      AppliedWaits(t, run, e, k, kd);
      var h :| FrontierAt(body, t.LogOf(run), h, k, kd);
      FrontierKept(body, t.LogOf(run), t'.LogOf(run), h, k, kd);
    }
  }

  /** A run that completes has nothing left to wait for. */
  lemma CompletionTidy(body: Body, t: Tables, run: RunId, h: History, e: Event)
    requires Tidy(body, t, run) && Replays(body, t.LogOf(run), h) && body(h).Return? && e.RunCompleted?
    ensures Tidy(body, Applied(t, run, e), run)
    ensures EndInSync(t, run) ==> Synced(Applied(t, run, e), run)
  {
    hide Waits, AtFrontier, Replays;
    var t' := Applied(t, run, e);
    AppliedSync(t, run, e);
    forall k, kd ensures !AtFrontier(body, t.LogOf(run), k, kd) {
      NoFrontierAtEnd(body, t.LogOf(run), h, k, kd);
    }
    forall k, kd ensures !Waits(t', run, k, kd) {
      AppliedWaits(t, run, e, k, kd);
    }
  }

  // ----- along one live step -----

  /** From `t0` the step has come to `t`, which still faces it. */
  ghost predicate Going(body: Body, t0: Tables, t: Tables, run: RunId, h: History, key: Key, kind: StepKind) {
    Faces(body, t, run, h, key, kind) && Grown(t0, t, run)
  }

  /** Events were only appended, none of them an end, and the row's end columns kept up. */
  ghost predicate Grown(t0: Tables, t: Tables, run: RunId) {
    GrewOpen(t0.LogOf(run), t.LogOf(run)) && (EndInSync(t0, run) ==> EndInSync(t, run))
  }

  ghost predicate GrewOpen(log: Log, log': Log) {
    log <= log' && forall i :: |log| <= i < |log'| ==> !log'[i].EndsRun()
  }

  /** What ended the run, or overruled its status, did so before. */
  lemma GrewOpenEnds(log: Log, log': Log)
    requires GrewOpen(log, log')
    ensures Overruled(log') <==> Overruled(log)
    ensures WasCancelled(log') <==> WasCancelled(log)
    ensures log <= log' && (log' != log ==> log' != [] && !Last(log').EndsRun())
  {
    forall e | e in log' ensures e in log || !e.EndsRun() {
      var i :| 0 <= i < |log'| && log'[i] == e;
      if i < |log| {
        assert log[i] == e;
      }
    }
    assert forall e :: e in log ==> e in log';
    if log' != log {
      assert |log| <= |log'| - 1;
    }
  }

  lemma GrownOn(t0: Tables, t: Tables, run: RunId, e: Event)
    requires Grown(t0, t, run) && run in t.rows
    ensures !e.EndsRun() ==> Grown(t0, Appended(t, run, e), run) && Grown(t0, Applied(t, run, e), run)
  {
    hide Project, EndInSync;
    AppliedSync(t, run, e);
  }

  lemma StartGoes(body: Body, t0: Tables, t: Tables, run: RunId, h: History, key: Key, kind: StepKind)
    requires Going(body, t0, t, run, h, key, kind) && !Waits(t, run, key, kind)
    ensures var e := StepStarted(key, kind);
      && Going(body, t0, Appended(t, run, e), run, h, key, kind)
          && Going(body, t0, Applied(t, run, e), run, h, key, kind)
      && run in Applied(t, run, e).rows && StepInSync(Applied(t, run, e), run)
      && !Waits(Applied(t, run, e), run, key, kind)
      && Applied(t, run, e).LogOf(run) != [] && Last(Applied(t, run, e).LogOf(run)) == e
  {
    hide Project, EndInSync, Waits, FrontierAt, Tidy, Grown;
    TidyRow(body, t, run);
    EventKeeps(body, t, run, h, key, kind, StepStarted(key, kind));
    GrownOn(t0, t, run, StepStarted(key, kind));
  }

  lemma FailGoes(body: Body, t0: Tables, t: Tables, run: RunId, h: History, key: Key, kind: StepKind, e: Event)
    requires Going(body, t0, t, run, h, key, kind) && e.StepFailed? && e.stepKey == key && run in t.rows
               && StepInSync(t, run)
    requires Waits(t, run, key, kind) ==> !e.willRetry && kind.Child?
    ensures Going(body, t0, Appended(t, run, e), run, h, key, kind)
              && Going(body, t0, Applied(t, run, e), run, h, key, kind)
    ensures run in Applied(t, run, e).rows && StepInSync(Applied(t, run, e), run)
    ensures RestsAs(Applied(t, run, e), run, if e.willRetry then WaitingTimer else Running)
    ensures !Waits(t, run, key, kind) ==> !Waits(Applied(t, run, e), run, key, kind)
  {
    hide Project, EndInSync, Waits, FrontierAt, Tidy, Grown;
    EventKeeps(body, t, run, h, key, kind, e);
    GrownOn(t0, t, run, e);
    AppliedSync(t, run, e);
  }

  lemma RecordGoes(body: Body, t0: Tables, t: Tables, run: RunId, h: History, key: Key, kind: StepKind, e: Event,
      value: Value)
    requires Going(body, t0, t, run, h, key, kind) && run in t.rows && StepInSync(t, run)
               && Records(e, key, kind, value)
    ensures Tidy(body, Appended(t, run, e), run) && Grown(t0, Appended(t, run, e), run)
    ensures Tidy(body, Applied(t, run, e), run) && Grown(t0, Applied(t, run, e), run)
    ensures Replays(body, Applied(t, run, e).LogOf(run), h + [[value]])
  {
    hide Project, EndInSync, Waits, FrontierAt, Tidy, Grown, Replays;
    RecordAdvances(body, t, run, h, key, kind, e, value);
    GrownOn(t0, t, run, e);
    AppliedSync(t, run, e);
  }

  lemma TimerGoes(body: Body, t0: Tables, t: Tables, run: RunId, h: History, key: Key, kind: StepKind,
      timer: TimerRow, id: nat)
    requires Going(body, t0, t, run, h, key, kind) && run in t.rows && StepInSync(t, run) && id !in t.timers
               && timer.run == run
    requires timer.kind.SleepTimer? ==>
               timer.stepKey == key && kind.Sleep? && t.LogOf(run) != []
                   && Last(t.LogOf(run)) == StepStarted(key, Sleep)
    ensures var t' := TimerAdded(t, id, timer);
      && Going(body, t0, t', run, h, key, kind) && run in t'.rows && StepInSync(t', run)
      && (timer.kind.SleepTimer? ==> RestsAs(t', run, WaitingTimer))
      && (forall status :: RestsAs(t, run, status) ==> RestsAs(t', run, status))
      && IsTimed(t', run, timer.stepKey, timer.kind)
  {
    hide Project, FrontierAt, Tidy;
    var t' := TimerAdded(t, id, timer);
    if timer.kind.SleepTimer? {
      ArmKeeps(body, t, run, h, key, id);
    } else {
      OtherTimerKeeps(body, t, run, timer, id);
    }
    assert t'.timers[id] == timer;
  }

  lemma ElsewhereGoes(body: Body, t0: Tables, t: Tables, run: RunId, h: History, key: Key, other: RunId, e: Event)
    requires Going(body, t0, t, run, h, key, Child) && run in t.rows && StepInSync(t, run) && other != run
    ensures var t' := Appended(t, other, e);
      && Going(body, t0, t', run, h, key, Child) && run in t'.rows && StepInSync(t', run)
          && t'.LogOf(run) == t.LogOf(run)
  {
    hide Project, FrontierAt, Tidy, RestsAs;
    TidyRow(body, t, run);
    TidyElsewhere(body, t, Appended(t, other, e), run);
  }

  lemma ChildGoes(body: Body, t0: Tables, t: Tables, run: RunId, h: History, key: Key)
    requires Going(body, t0, t, run, h, key, Child) && run in t.rows && StepInSync(t, run)
    requires ChildRunId(run, key) !in t.rows
    requires t.LogOf(run) != [] && Last(t.LogOf(run)) == StepStarted(key, Child)
    ensures var t' := RunInserted(t, ChildRunId(run, key), Some(run));
      && Going(body, t0, t', run, h, key, Child) && run in t'.rows && RestsAs(t', run, Running)
  {
    hide Project, FrontierAt, Tidy, RestsAs;
    ChildKeeps(body, t, run, h, key);
    assert ChildRunId(run, key) != run;
  }
}
