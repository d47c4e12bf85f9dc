/** Where a sequential run stands between its commits: the one step its log leads it to, what
    that step may be waiting on, and how far its row has fallen behind its log. */
module Frontier {
  import opened Prelude
  import opened Keys
  import opened Events
  import opened Program
  import opened Tables

  /** A body that awaits one step at a time. */
  ghost predicate Sequential(body: Body) {
    forall h :: body(h).Await? ==> |body(h).calls| == 1
  }

  // ----- the frontier -----

  /** The log leads the body to the await after `h`, and records nothing for its one step. */
  ghost predicate FrontierAt(body: Body, log: Log, h: History, key: Key, kind: StepKind) {
    && Replays(body, log, h) && KeysAt(body, h).Allocated? && KeysAt(body, h).keys == [key]
    && CallsAt(body, h)[0].kind == kind && Recorded(log, key, kind).None?
  }

  ghost predicate AtFrontier(body: Body, log: Log, key: Key, kind: StepKind) {
    exists h :: FrontierAt(body, log, h, key, kind)
  }

  /** Nothing replays past a step without a record. */
  lemma NothingPast(body: Body, log: Log, h: History, h': History, i: nat)
    requires Replays(body, log, h) && Replays(body, log, h')
    requires KeysAt(body, h).Allocated? ==>
               i < |KeysAt(body, h).keys| && Recorded(log, KeysAt(body, h).keys[i], CallsAt(body, h)[i].kind).None?
    ensures |h'| <= |h|
  {
    if |h| < |h'| {
      ReplayReceives(body, log, h, h');
    }
  }

  lemma FrontierUnique(body: Body, log: Log, h: History, key: Key, kind: StepKind, h': History, key': Key,
      kind': StepKind)
    requires FrontierAt(body, log, h, key, kind) && FrontierAt(body, log, h', key', kind')
    ensures h == h' && key == key' && kind == kind'
  {
    NothingPast(body, log, h, h', 0);
    NothingPast(body, log, h', h, 0);
    ReplayUnique(body, log, h, h');
  }

  /** A replay that has stopped has no frontier. */
  lemma NoFrontierAtEnd(body: Body, log: Log, h: History, key: Key, kind: StepKind)
    requires Replays(body, log, h) && !body(h).Await?
    ensures !AtFrontier(body, log, key, kind)
  {
    if AtFrontier(body, log, key, kind) {
      var h' :| FrontierAt(body, log, h', key, kind);
      NothingPast(body, log, h', h, 0);
      Stops(body, log, log, h, h');
      ReplayUnique(body, log, h, h');
    }
  }

  ghost predicate SameRecords(log: Log, log': Log) {
    Results(log) == Results(log') && Decisions(log) == Decisions(log')
  }

  lemma FrontierKept(body: Body, log: Log, log': Log, h: History, key: Key, kind: StepKind)
    requires SameRecords(log, log') && FrontierAt(body, log, h, key, kind)
    ensures FrontierAt(body, log', h, key, kind)
  {
    ReplayGrows(body, log, log', h);
  }

  // ----- waiting -----

  /** A durable wake source of the step exists and has not done its work. */
  ghost predicate Waits(t: Tables, run: RunId, key: Key, kind: StepKind) {
    match kind
    case Gate => IsOpened(t.LogOf(run), key) && !IsResolved(t.LogOf(run), key)
    case Sleep => IsTimed(t, run, key, SleepTimer) && !IsCompleted(t.LogOf(run), key)
    case Child => ChildRunId(run, key) in t.rows && !IsCompleted(t.LogOf(run), key)
    case _ => false
  }

  predicate IsTimed(t: Tables, run: RunId, key: Key, kind: TimerKind) {
    exists id | id in t.timers :: t.timers[id] == TimerRow(run, key, kind)
  }

  /** The status a run is parked with. */
  function RestStatus(kind: StepKind): RunStatus {
    match kind
    case Gate => WaitingGate
    case Sleep => WaitingTimer
    case _ => Running
  }

  /** A run_failed came after the latest step_started. */
  predicate FailedSince(log: Log) {
    log != [] && !Last(log).StepStarted? && (Last(log).RunFailed? || FailedSince(Front(log)))
  }

  /** The row names the step the fold does, unless a failure whose row update may be lost wrote it. */
  predicate StepInSync(t: Tables, run: RunId)
    requires run in t.rows
  {
    t.rows[run].currentStep == Project(t.LogOf(run)).currentStep || FailedSince(t.LogOf(run))
  }

  /** The log folds to the parked status, or the run failed since. */
  ghost predicate RestsAs(t: Tables, run: RunId, status: RunStatus)
    requires run in t.rows
  {
    && StepInSync(t, run)
    && (Project(t.LogOf(run)).status == status || (t.LogOf(run) != [] && Last(t.LogOf(run)).RunFailed?))
  }

  /** What holds of a sequential run between any two commits: only its frontier step can be
      waiting, and its row lags by at most a step_started that will be repeated. */
  ghost predicate Tidy(body: Body, t: Tables, run: RunId) {
    && run in t.rows && t.rows[run].parent != Some(run)
    && (forall key, kind :: Waits(t, run, key, kind) ==>
          AtFrontier(body, t.LogOf(run), key, kind) && RestsAs(t, run, RestStatus(kind)))
    && (StepInSync(t, run) || RestartsStep(body, t.LogOf(run)))
  }

  ghost predicate RestartsStep(body: Body, log: Log) {
    log != [] && Last(log).StepStarted? && AtFrontier(body, log, Last(log).stepKey, Last(log).stepKind)
  }

  // ----- the row -----

  /** The columns a run's end wrote equal the fold of its log. */
  predicate EndInSync(t: Tables, run: RunId) {
    && run in t.rows
    && var row, p := t.rows[run], Project(t.LogOf(run));
      && row.error == p.error && row.outputRef == p.outputRef
      && (FailedSince(t.LogOf(run)) ==> row.currentStep == p.currentStep)
  }

  /** The row equals the fold of its log. */
  predicate Synced(t: Tables, run: RunId) {
    EndInSync(t, run) && StepInSync(t, run) && t.rows[run].status == Project(t.LogOf(run)).status
  }

  predicate EverFailed(log: Log) {
    exists e | e in log :: e.RunFailed?
  }

  // ----- what one commit keeps -----

  lemma WaitsAppended(t: Tables, run: RunId, e: Event, key: Key, kind: StepKind)
    ensures Waits(Appended(t, run, e), run, key, kind) ==>
              Waits(t, run, key, kind) || (e.GateOpened? && e.stepKey == key && kind.Gate?)
    ensures e.StepCompleted? && e.stepKey == key && !kind.Gate? ==> !Waits(Appended(t, run, e), run, key, kind)
    ensures e.GateResolved? && e.stepKey == key && kind.Gate? ==> !Waits(Appended(t, run, e), run, key, kind)
  {
    var log, log' := t.LogOf(run), Appended(t, run, e).LogOf(run);
    assert forall x :: x in log' <==> x in log || x == e;
  }

  /** A commit that records nothing for the frontier step. */
  lemma TidyKept(body: Body, t: Tables, t': Tables, run: RunId, h: History, key: Key, kind: StepKind)
    requires Tidy(body, t, run) && FrontierAt(body, t.LogOf(run), h, key, kind)
    requires run in t'.rows && t'.rows[run].parent == t.rows[run].parent
    requires SameRecords(t.LogOf(run), t'.LogOf(run))
    requires forall k, kd :: Waits(t', run, k, kd) ==> Waits(t, run, k, kd) || (k == key && kd == kind)
    requires Waits(t', run, key, kind) ==> RestsAs(t', run, RestStatus(kind))
    requires StepInSync(t', run) || (t'.LogOf(run) != [] && Last(t'.LogOf(run)) == StepStarted(key, kind))
    ensures Tidy(body, t', run) && FrontierAt(body, t'.LogOf(run), h, key, kind)
  {
    hide Waits, RestsAs, FrontierAt, SameRecords, StepInSync;
    FrontierKept(body, t.LogOf(run), t'.LogOf(run), h, key, kind);
    forall k, kd | Waits(t', run, k, kd) ensures k == key && kd == kind {
      if Waits(t, run, k, kd) {
        var h' :| FrontierAt(body, t.LogOf(run), h', k, kd);
        FrontierUnique(body, t.LogOf(run), h, key, kind, h', k, kd);
      }
    }
  }

  /** A commit that records the frontier step's value. */
  lemma TidyAdvanced(body: Body, t: Tables, t': Tables, run: RunId, h: History, key: Key, kind: StepKind, value: Value)
    requires Tidy(body, t, run) && FrontierAt(body, t.LogOf(run), h, key, kind)
    requires run in t'.rows && t'.rows[run].parent == t.rows[run].parent
    requires Extends(t.LogOf(run), t'.LogOf(run)) && Recorded(t'.LogOf(run), key, kind) == Some(value)
    requires forall k, kd :: Waits(t', run, k, kd) ==> Waits(t, run, k, kd)
    requires !Waits(t', run, key, kind)
    requires StepInSync(t', run)
    ensures Tidy(body, t', run) && Replays(body, t'.LogOf(run), h + [[value]])
  {
    hide Waits, RestsAs, StepInSync, Extends, Recorded;
    forall k, kd ensures !Waits(t', run, k, kd) {
      if Waits(t', run, k, kd) {
        var h' :| FrontierAt(body, t.LogOf(run), h', k, kd);
        FrontierUnique(body, t.LogOf(run), h, key, kind, h', k, kd);
      }
    }
    ReplayGrows(body, t.LogOf(run), t'.LogOf(run), h);
    var h' := h + [[value]];
    assert Front(h') == h && Last(h') == [value];
  }
}
