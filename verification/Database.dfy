/** The run tables as the engine updates them: one commit after another on a shared session. */
module Database {
  import opened Prelude
  import opened Keys
  import opened Events
  import opened Tables
  import opened Settle
  import opened Cancel

  class Session {
    var logs: map<RunId, Log>
    var rows: map<RunId, RunRow>
    var queue: set<RunId>
    var timers: map<nat, TimerRow>
    /** Commits left before the process behind this session dies. */
    var budget: nat

    function View(): Tables
      reads this
    {
      Tables(logs, rows, queue, timers)
    }

    // ----- single commits -----

    /** The process lives to make one more commit. */
    method Spend() returns (alive: bool)
      modifies this`budget
      ensures alive ==> budget + 1 == old(budget)
      ensures !alive ==> budget == old(budget) == 0
    {
      if budget == 0 {
        return false;
      }
      budget := budget - 1;
      return true;
    }

    /** An event and the row update that follows it, in two commits. */
    method Record(run: RunId, e: Event) returns (alive: bool)
      modifies this`budget, this`logs, this`rows
      ensures alive ==> budget + 2 == old(budget) && View() == RowApplied(Appended(old(View()), run, e), run, e)
      ensures !alive ==> budget == 0 && (View() == old(View()) || View() == Appended(old(View()), run, e))
    {
      alive := Spend();
      if !alive {
        return;
      }
      Append(run, e);
      alive := Spend();
      if !alive {
        return;
      }
      ApplyEventToRunRow(run, e);
    }

    method Append(run: RunId, e: Event)
      modifies this`logs
      ensures View() == Appended(old(View()), run, e)
    {
      var events := if run in logs then logs[run] else [];
      logs := logs[run := events + [e]];
    }

    /** The targeted update that follows every append. */
    method ApplyEventToRunRow(run: RunId, e: Event)
      modifies this`rows
      ensures View() == RowApplied(old(View()), run, e)
    {
      if run !in rows {
        return;
      }
      var row := rows[run];
      match e {
      case RunStarted(_, _, _, _) =>
        row := row.(status := Pending);
      case StepStarted(key, kind) =>
        row := row.(status := if kind.Sleep? then WaitingTimer else Running);
        row := row.(currentStep := Some(key));
      case StepCompleted(_, _) =>
        row := row.(status := Running);
      case StepFailed(_, _, _, willRetry) =>
        row := row.(status := if willRetry then WaitingTimer else Running);
      case GateOpened(_, _, _) =>
        row := row.(status := WaitingGate);
      case GateResolved(_, _, _, _) =>
        row := row.(status := Pending);
      case RunCompleted(ref) =>
        row := row.(status := Completed, outputRef := ref);
      case RunFailed(error, failedStep) =>
        row := row.(status := Failed, error := Some(error), currentStep := Some(failedStep));
      case RunCancelled(_, _) =>
        row := row.(status := RunStatus.Cancelled);
      }
      rows := rows[run := row];
    }

    method SetStatus(run: RunId, status: RunStatus)
      modifies this`rows
      ensures View() == StatusSet(old(View()), run, status)
    {
      if run in rows {
        rows := rows[run := rows[run].(status := status)];
      }
    }

    method UpsertTaskQueue(run: RunId)
      modifies this`queue
      ensures View() == Enqueued(old(View()), run)
    {
      queue := queue + {run};
    }

    method DeleteQueueRowAndTimers(run: RunId)
      modifies this`queue, this`timers
      ensures View() == Untimed(Dequeued(old(View()), run), run)
    {
      queue := queue - {run};
      timers := map i | i in timers && timers[i].run != run :: timers[i];
    }

    method DeleteQueueRow(run: RunId)
      modifies this`queue
      ensures View() == Dequeued(old(View()), run)
    {
      queue := queue - {run};
    }

    /** A run's row and its queue row, in one transaction. */
    method InsertRun(run: RunId, parent: Option<RunId>)
      modifies this`rows, this`queue
      ensures View() == RunInserted(old(View()), run, parent)
    {
      rows := rows[run := RunRow(Pending, None, None, None, parent)];
      queue := queue + {run};
    }

    /** A timer under a new id, none of the `used` ones. */
    method InsertTimer(timer: TimerRow, used: set<nat>) returns (id: nat)
      modifies this`timers
      ensures id !in old(timers) && id !in used && View() == TimerAdded(old(View()), id, timer)
    {
      id := 0;
      var taken := timers.Keys + used;
      var others := taken;
      while others != {}
        invariant others <= taken
        invariant forall t :: t in taken && t !in others ==> t < id
      {
        var other :| other in others;
        if other >= id {
          id := other + 1;
        }
        others := others - {other};
      }
      timers := timers[id := timer];
    }

    method DeleteTimer(id: nat)
      modifies this`timers
      ensures View() == TimerDeleted(old(View()), id)
    {
      timers := timers - {id};
    }

    // ----- reading a log -----

    /** The first recorded dispatch of `child`. */
    method FindDispatch(events: Log, parent: RunId, child: RunId) returns (key: Option<Key>)
      ensures key == DispatchKey(events, parent, child)
    {
      key := None;
      for i := 0 to |events|
        invariant key == DispatchKey(events[..i], parent, child)
      {
        assert Front(events[..i + 1]) == events[..i];
        var e := events[i];
        if key.None? && e.StepStarted? && e.stepKind.Child? && ChildRunId(parent, e.stepKey) == child {
          key := Some(e.stepKey);
        }
      }
      assert events[..|events|] == events;
    }

    /** Whether the step completed, and how often it failed. */
    method Outcomes(events: Log, key: Key) returns (completed: bool, failures: nat)
      ensures completed == IsCompleted(events, key)
      ensures failures == Failures(events)[key]
      ensures failures > 0 <==> IsFailed(events, key)
    {
      completed, failures := false, 0;
      for i := 0 to |events|
        invariant completed == IsCompleted(events[..i], key)
        invariant failures == Failures(events[..i])[key]
      {
        assert Front(events[..i + 1]) == events[..i];
        assert forall x :: x in events[..i + 1] <==> x in events[..i] || x == events[i];
        if events[i].StepCompleted? && events[i].stepKey == key {
          completed := true;
        } else if events[i].StepFailed? && events[i].stepKey == key {
          failures := failures + 1;
        }
      }
      assert events[..|events|] == events;
      FailuresAreFailed(events, key);
    }

    // ----- child settles -----

    /** Commit by commit; `mayDie` says whether the process may die in between. */
    method SettleParentOnChildTerminal(child: RunId, mayDie: bool) returns (alive: bool)
      modifies this`logs, this`rows, this`queue, this`budget
      ensures alive ==> View() == Settled(old(View()), child) && budget <= old(budget)
      ensures alive && child.ChildOf? ==> Told(old(View()), View(), child.parent, child.stepKey)
      ensures !alive ==> mayDie && budget == 0 && SettledPartly(old(View()), View(), child)
    {
      hide Settles, Verdict, DispatchKey, Told;
      if child.ChildOf? {
        SettleTells(View(), child.parent, child.stepKey);
      }
      var due := DueVerdict(child);
      if due.None? {
        return true;
      }
      var (parent, e) := due.value;
      alive := Survives(mayDie);
      if !alive {
        return;
      }
      Append(parent, e);
      alive := Survives(mayDie);
      if !alive {
        return;
      }
      SetStatus(parent, Pending);
      alive := Survives(mayDie);
      if !alive {
        return;
      }
      UpsertTaskQueue(parent);
    }

    /** The parent that waits for a terminal child, and the verdict it has not got yet. */
    method DueVerdict(child: RunId) returns (due: Option<(RunId, Event)>)
      ensures due.Some? <==> Settles(View(), child)
      ensures due.Some? ==>
                var parent := rows[child].parent.value; var log := View().LogOf(parent);
                due.value == (parent, Verdict(log, child, rows[child], DispatchKey(log, parent, child).value))
    {
      hide IsCompleted, IsFailed, Failures, DispatchKey, ChildResult, ChildError;
      if child !in rows || rows[child].parent.None? || !rows[child].status.IsTerminal() {
        return None;
      }
      var parent := rows[child].parent.value;
      if parent !in rows || rows[parent].status.IsTerminal() {
        return None;
      }
      var events := if parent in logs then logs[parent] else [];
      var key := FindDispatch(events, parent, child);
      if key.None? {
        return None;  // the parent never recorded this dispatch
      }
      var completed, failures := Outcomes(events, key.value);
      if completed || failures > 0 {
        return None;  // settled already
      }
      if rows[child].status.Completed? {
        return Some((parent, StepCompleted(key.value, ChildResult(child, rows[child].outputRef))));
      }
      return Some((parent, StepFailed(key.value, ChildError(child, rows[child]), failures + 1, false)));
    }

    method Survives(mayDie: bool) returns (alive: bool)
      modifies this`budget
      ensures alive ==> budget <= old(budget)
      ensures !alive ==> mayDie && budget == old(budget) == 0
    {
      alive := true;
      if mayDie {
        alive := Spend();
      }
    }

    // ----- cancellation -----

    /** Cancels the run and, recursively, its live descendants, then tells a waiting parent.
        `cascaded` is the state between the two. */
    method CancelOnSession(run: RunId, actor: string, reason: string)
      returns (result: CancelResult, ghost cascaded: Tables)
      modifies this
      decreases |View().Live()|, 1
      ensures result == if run !in old(rows) then UnknownRun
                        else if old(rows)[run].status.IsTerminal() then InvalidCancellation(old(rows)[run].status)
                        else Done
      ensures !result.Done? ==> View() == old(View())
      ensures result.Done? ==> Cascaded(old(View()), cascaded, run, actor, reason) && View() == Settled(cascaded, run)
      ensures result.Done? ==> NobodyWaits(View(), run)
    {
      cascaded := View();
      if run !in rows {
        return UnknownRun, cascaded;
      }
      if rows[run].status.IsTerminal() {
        return InvalidCancellation(rows[run].status), cascaded;
      }
      hide Cascaded, IsCancelledRun, Settled, Waiting;
      ghost var before := View();
      var e := RunCancelled(actor, reason);
      Append(run, e);
      ApplyEventToRunRow(run, e);
      DeleteQueueRowAndTimers(run);
      AloneCascading(before, run, actor, reason);
      var children := set c | c in rows && rows[c].parent == Some(run) && !rows[c].status.IsTerminal();
      CancelChildren(run, actor, reason, children, before);
      cascaded := View();
      var alive := SettleParentOnChildTerminal(run, false);
      result := Done;
    }

    /** Cancels the children that were live when the run had been cancelled, in any order. */
    method CancelChildren(run: RunId, actor: string, reason: string, children: set<RunId>, ghost before: Tables)
      requires before.IsLive(run) && Cascading(before, View(), run, actor, reason, children)
      requires IsCancelledRun(before, View(), run, actor, reason)
      requires forall c :: c in children ==> c in rows && rows[c].parent == Some(run)
      modifies this
      decreases |before.Live()|, 0
      ensures Cascaded(before, View(), run, actor, reason)
    {
      hide Cascading, Cascaded, IsCancelledRun, Settled, CascadeReason;
      var todo := children;
      while todo != {}
        invariant Cascading(before, View(), run, actor, reason, todo)
        invariant IsCancelledRun(before, View(), run, actor, reason)
        invariant forall c :: c in todo ==> c in View().rows && View().rows[c].parent == Some(run)
        decreases |todo|
      {
        ghost var sofar := View();
        var child :| child in todo;
        FewerLive(before, sofar, run, actor, reason, todo);
        var r, childCascaded := CancelOnSession(child, actor, CascadeReason(run, reason));
        if r.Done? {
          OneChildDone(before, sofar, childCascaded, run, child, actor, reason, todo);
        } else {
          OneChildEnded(before, sofar, run, child, actor, reason, todo);
        }
        todo := todo - {child};
      }
      AllChildrenDone(before, View(), run, actor, reason);
    }
  }

  lemma AllChildrenDone(before: Tables, t: Tables, root: RunId, actor: string, reason: string)
    requires Cascading(before, t, root, actor, reason, {})
    ensures Cascaded(before, t, root, actor, reason)
  {
  }

  /** Each cancelled run leaves fewer live ones for the recursion. */
  lemma FewerLive(before: Tables, t: Tables, root: RunId, actor: string, reason: string, todo: set<RunId>)
    requires before.IsLive(root) && Cascading(before, t, root, actor, reason, todo)
    ensures |t.Live()| < |before.Live()|
  {
    forall x | x in t.Live() ensures x in before.Live() - {root} {
      StillLive(before, t, root, actor, reason, todo, x);
    }
    ProperSubset(t.Live(), before.Live(), root);
  }

  lemma OneChildDone(before: Tables, t: Tables, t': Tables, root: RunId, child: RunId, actor: string,
      reason: string, todo: set<RunId>)
    requires before.IsLive(root) && Cascading(before, t, root, actor, reason, todo)
    requires t.IsLive(child) && t.rows[child].parent == Some(root)
    requires IsCancelledRun(before, t, root, actor, reason)
    requires Cascaded(t, t', child, actor, CascadeReason(root, reason))
    requires forall c :: c in todo ==> c in t.rows && t.rows[c].parent == Some(root)
    ensures Settled(t', child) == t'
    ensures Cascading(before, t', root, actor, reason, todo - {child})
    ensures IsCancelledRun(before, t', root, actor, reason)
    ensures forall c :: c in todo ==> c in t'.rows && t'.rows[c].parent == Some(root)
  {
    SettleOfCancelled(t, t', child, root, actor, CascadeReason(root, reason));
    CascadeChild(before, t, t', root, child, actor, reason, todo);
    forall c | c in todo ensures c in t'.rows && t'.rows[c].parent == Some(root) {
      ParentsKept(t, t', child, actor, CascadeReason(root, reason), c);
    }
  }

  /** A child that an earlier child's cascade has cancelled, or that ended by itself, is skipped. */
  lemma OneChildEnded(before: Tables, t: Tables, root: RunId, child: RunId, actor: string, reason: string,
      todo: set<RunId>)
    requires Cascading(before, t, root, actor, reason, todo) && !t.IsLive(child)
    ensures Cascading(before, t, root, actor, reason, todo - {child})
  {
  }

  lemma ParentsKept(before: Tables, after: Tables, root: RunId, actor: string, reason: string, c: RunId)
    requires Cascaded(before, after, root, actor, reason) && c in before.rows
    ensures c in after.rows && after.rows[c].parent == before.rows[c].parent
  {
    if c in NewlyCancelled(before, after) {
      assert Reasoned(before, after, root, c, actor, reason);
    } else {
      assert IsUntouched(before, after, c);
    }
  }

  /** A cascaded child finds its parent cancelled already: it has nobody to tell. */
  lemma SettleOfCancelled(before: Tables, after: Tables, child: RunId, parent: RunId, actor: string, reason: string)
    requires Cascaded(before, after, child, actor, reason)
    requires child in before.rows && before.rows[child].parent == Some(parent)
    requires parent in before.rows && before.rows[parent].status == RunStatus.Cancelled
    ensures Settled(after, child) == after
    ensures child in after.rows && after.rows[child].parent == Some(parent)
  {
    assert child in NewlyCancelled(before, after);
    assert parent !in NewlyCancelled(before, after) && IsUntouched(before, after, parent);
    assert Reasoned(before, after, child, child, actor, reason);
  }
}
