/** A worker's loop of clearing its wake flag, draining the queue and waiting: no notification is
    lost, whenever it arrives. */
module WorkerLoop {
  import opened Prelude
  import opened Tables

  datatype Phase = Clearing | Draining | Waiting

  /** `due`: queued runs nobody has claimed; `unsent`: those whose notification is still to come;
      `silent`: runs made due without one since the latest drain that found nothing; `broke`: the
      latest drain ended in an exception, so only the poll timeout helps. */
  datatype State = State(phase: Phase, flag: bool, broke: bool, due: set<RunId>, unsent: set<RunId>, silent: set<RunId>)

  const STARTED: State := State(Clearing, false, false, {}, {}, {})

  /** `Reap` frees a stale claim and tells nobody; `NotifierDies` is a crash between an enqueue and
      its notification; `Taken`: claimed by another worker, or the row is gone. */
  datatype Step =
    | Enqueue(run: RunId) | Notify(run: RunId) | NotifierDies(run: RunId) | Reap(run: RunId) | Taken(run: RunId)
    | Clear | ClaimAndExecute(run: RunId) | DrainFails | NothingDue
    | Wake

  predicate Enabled(s: State, step: Step) {
    match step
    case Enqueue(_) => true
    case Notify(run) => run in s.unsent
    case NotifierDies(run) => run in s.unsent
    case Reap(run) => run !in s.due
    case Taken(run) => run in s.due
    case Clear => s.phase.Clearing?
    case ClaimAndExecute(run) => s.phase.Draining? && run in s.due
    case DrainFails => s.phase.Draining?
    case NothingDue => s.phase.Draining? && s.due == {}
    case Wake => s.phase.Waiting?
  }

  function Do(s: State, step: Step): State
    requires Enabled(s, step)
  {
    match step
    case Enqueue(run) => s.(due := s.due + {run}, unsent := s.unsent + {run})
    case Notify(run) => s.(flag := true, unsent := s.unsent - {run})
    case NotifierDies(run) => s.(unsent := s.unsent - {run}, silent := s.silent + {run})
    case Reap(run) => s.(due := s.due + {run}, silent := s.silent + {run})
    case Taken(run) => s.(due := s.due - {run})
    case Clear => s.(phase := Draining, flag := false, broke := false)
    case ClaimAndExecute(run) => s.(due := s.due - {run})
    case DrainFails => s.(phase := Waiting, broke := true)
    case NothingDue => s.(phase := Waiting, silent := {})
    case Wake => s.(phase := Clearing)
  }

  /** Only the poll timeout would get this worker to look at the queue. */
  predicate Sleeps(s: State) {
    s.phase.Waiting? && !s.flag && !s.broke
  }

  /** The run is due, and no notification for it is to come. */
  predicate Missed(s: State, run: RunId) {
    run in s.due && run !in s.unsent
  }

  /** Nothing is due to a sleeping worker but what will still be notified or came silently. */
  ghost predicate Covered(s: State) {
    Sleeps(s) ==> s.due <= s.unsent + s.silent
  }

  ghost predicate Runs(s: State, steps: seq<Step>)
    decreases |steps|
  {
    steps == [] || (Enabled(s, steps[0]) && Runs(Do(s, steps[0]), steps[1..]))
  }

  function After(s: State, steps: seq<Step>): State
    requires Runs(s, steps)
    decreases |steps|
  {
    if steps == [] then s else After(Do(s, steps[0]), steps[1..])
  }

  lemma {:induction false} AlwaysCovered(s: State, steps: seq<Step>)
    requires Covered(s) && Runs(s, steps)
    ensures Covered(After(s, steps))
    decreases |steps|
  {
    if steps != [] {
      AlwaysCovered(Do(s, steps[0]), steps[1..]);
    }
  }

  /** The runs freed silently in `steps`, since the latest drain that found nothing. */
  function FreedSince(steps: seq<Step>): set<RunId> {
    if steps == [] then {}
    else match Last(steps)
      case Reap(run) => FreedSince(Front(steps)) + {run}
      case NotifierDies(run) => FreedSince(Front(steps)) + {run}
      case NothingDue => {}
      case _ => FreedSince(Front(steps))
  }

  lemma {:induction false} AfterLast(s: State, steps: seq<Step>)
    requires steps != [] && Runs(s, steps)
    ensures Runs(s, Front(steps)) && Enabled(After(s, Front(steps)), Last(steps))
    ensures After(s, steps) == Do(After(s, Front(steps)), Last(steps))
    decreases |steps|
  {
    if |steps| > 1 {
      AfterLast(Do(s, steps[0]), steps[1..]);
      assert Front(steps)[0] == steps[0] && Front(steps)[1..] == Front(steps[1..]);
    } else {
      assert Front(steps) == [] && steps[1..] == [];
    }
  }

  lemma {:induction false} SilentIsFreed(steps: seq<Step>)
    requires Runs(STARTED, steps)
    ensures After(STARTED, steps).silent == FreedSince(steps)
    decreases |steps|
  {
    if steps != [] {
      AfterLast(STARTED, steps);
      SilentIsFreed(Front(steps));
    }
  }

  /** Over every schedule, a sleeping worker has missed exactly those due runs that were reaped, or
      whose notifier died, since its latest drain, and that no later enqueue will announce. */
  lemma NoLostWakeup(steps: seq<Step>, run: RunId)
    requires Runs(STARTED, steps) && Sleeps(After(STARTED, steps))
    ensures Missed(After(STARTED, steps), run) ==> run in FreedSince(steps)
    ensures (forall r :: !Missed(After(STARTED, steps), r)) <==>
            FreedSince(steps) * After(STARTED, steps).due <= After(STARTED, steps).unsent
  {
    AlwaysCovered(STARTED, steps);
    SilentIsFreed(steps);
    var s := After(STARTED, steps);
    assert forall r :: Missed(s, r) ==> r in FreedSince(steps);
    if forall r :: !Missed(s, r) {
      forall r | r in FreedSince(steps) * s.due ensures r in s.unsent {
        assert !Missed(s, r);
      }
    }
  }

  /** Without reaps and dying notifiers nothing is ever missed. */
  lemma NothingMissed(steps: seq<Step>, run: RunId)
    requires Runs(STARTED, steps) && Sleeps(After(STARTED, steps))
    requires forall i :: 0 <= i < |steps| ==> !steps[i].Reap? && !steps[i].NotifierDies?
    ensures !Missed(After(STARTED, steps), run)
  {
    NoLostWakeup(steps, run);
    NothingFreed(steps);
  }

  lemma {:induction false} NothingFreed(steps: seq<Step>)
    requires forall i :: 0 <= i < |steps| ==> !steps[i].Reap? && !steps[i].NotifierDies?
    ensures FreedSince(steps) == {}
  {
    if steps != [] {
      NothingFreed(Front(steps));
    }
  }

  /** A stale claim freed while the worker sleeps: the run is due and nobody will say so. */
  lemma ReapedUnnoticed(run: RunId) returns (steps: seq<Step>)
    ensures Runs(STARTED, steps) && Sleeps(After(STARTED, steps)) && Missed(After(STARTED, steps), run)
  {
    steps := [Clear, NothingDue, Reap(run)];
    var drained := Do(Do(STARTED, Clear), NothingDue);
    assert steps[1..] == [NothingDue, Reap(run)] && steps[1..][1..] == [Reap(run)] && steps[1..][1..][1..] == [];
    assert Runs(drained, [Reap(run)]) && After(drained, [Reap(run)]) == Do(drained, Reap(run)) by {
      assert Runs(Do(drained, Reap(run)), []) && [Reap(run)][1..] == [];
    }
  }

  /** Clearing the flag only after the drain, instead of before, would lose the notification of a
      run enqueued in between. */
  lemma ClearingLateMisses(run: RunId)
    ensures var drained := Do(Do(STARTED, Clear), NothingDue);
            var notified := Do(Do(drained, Enqueue(run)), Notify(run));
            var cleared := notified.(flag := false);
            Covered(notified) && Sleeps(cleared) && Missed(cleared, run) && run !in cleared.silent
  {
    var drained := Do(Do(STARTED, Clear), NothingDue);
    var notified := Do(Do(drained, Enqueue(run)), Notify(run));
    assert run in notified.due && run !in notified.unsent;
  }
}
