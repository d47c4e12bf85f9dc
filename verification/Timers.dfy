/** Firing due timers, and the gate timeouts among them: sequences of commits that a crash may cut
    anywhere and a later scheduler pass repeats. */
module Timers {
  import opened Prelude
  import opened Keys
  import opened Events
  import opened Durable
  import opened Tables
  import opened Settle
  import opened Database
  import opened Frontier
  import opened Commits
  import opened Gates
  import Artifacts
  import Store

  datatype TimeoutPolicy = FailOnTimeout | ApproveOnTimeout | EscalateOnTimeout

  /** The timeout policy each gate was opened with. */
  type Policies = Key -> TimeoutPolicy

  datatype Resolution = Resolved(key: Key) | NotOpen | Refused | Died

  // ----- what any firing, however cut, does to the tables -----

  /** From `t` to `t'` logs only grew, no step got a second completion, a sleep timer went only
      after its step's completion and with the run enqueued, and no failed-free run was dequeued. */
  ghost predicate Fires(t: Tables, t': Tables) {
    && (forall run :: t.LogOf(run) <= t'.LogOf(run))
    && (forall run, key :: CompletesOnce(t.LogOf(run), t'.LogOf(run), key))
    && (forall run, key :: IsTimed(t, run, key, SleepTimer) && !IsTimed(t', run, key, SleepTimer) ==>
          IsCompleted(t'.LogOf(run), key) && StaysAwake(t', run))
    && (forall run :: run in t.queue ==> StaysAwake(t', run))
  }

  /** At most one completion of the step came in, and only if there was none. */
  ghost predicate CompletesOnce(log: Log, log': Log, key: Key) {
    Completions(log')[key] == Completions(log)[key] || (Completions(log)[key] == 0 && Completions(log')[key] == 1)
  }

  ghost predicate StaysAwake(t: Tables, run: RunId) {
    run in t.queue || EverFailed(t.LogOf(run))
  }

  lemma LogsGrow(log: Log, log': Log, key: Key)
    requires log <= log'
    ensures IsCompleted(log, key) ==> IsCompleted(log', key)
    ensures IsOpened(log, key) ==> IsOpened(log', key)
    ensures IsResolved(log, key) ==> IsResolved(log', key)
    ensures EverFailed(log) ==> EverFailed(log')
  {
    assert forall e :: e in log ==> e in log';
  }

  lemma FiresThen(t0: Tables, t1: Tables, t2: Tables)
    requires Fires(t0, t1) && Fires(t1, t2)
    ensures Fires(t0, t2)
  {
    hide IsCompleted, EverFailed, IsTimed, Completions, Tables.LogOf;
    forall run ensures StaysAwake(t1, run) ==> StaysAwake(t2, run) {
      LogsGrow(t1.LogOf(run), t2.LogOf(run), "");
    }
    forall run, key
      ensures IsTimed(t0, run, key, SleepTimer) && !IsTimed(t2, run, key, SleepTimer) ==>
                IsCompleted(t2.LogOf(run), key) && StaysAwake(t2, run)
      ensures run in t0.queue ==> StaysAwake(t2, run)
    {
      LogsGrow(t1.LogOf(run), t2.LogOf(run), key);
    }
    forall run, key ensures CompletesOnce(t0.LogOf(run), t2.LogOf(run), key) {
      assert CompletesOnce(t0.LogOf(run), t1.LogOf(run), key) && CompletesOnce(t1.LogOf(run), t2.LogOf(run), key);
    }
  }

  lemma FiresNothing(t: Tables)
    ensures Fires(t, t)
  {
  }

  // ----- single commits -----

  lemma AppendedLogs(t: Tables, run: RunId, e: Event, other: RunId)
    ensures Appended(t, run, e).LogOf(other) == if other == run then t.LogOf(run) + [e] else t.LogOf(other)
    ensures Applied(t, run, e).LogOf(other) == Appended(t, run, e).LogOf(other)
    ensures Applied(t, run, e).rows.Keys == t.rows.Keys
  {
    hide ApplyRow;
  }

  lemma OneMoreCompletes(log: Log, e: Event, key: Key)
    requires e.StepCompleted? ==> !IsCompleted(log, e.stepKey)
    ensures CompletesOnce(log, log + [e], key)
  {
    hide IsCompleted, Completions;
    AppendCounts(log, e);
    CompletionsAreResults(log, key);
  }

  lemma AppendFires(t: Tables, run: RunId, e: Event)
    requires e.StepCompleted? ==> !IsCompleted(t.LogOf(run), e.stepKey)
    ensures Fires(t, Appended(t, run, e)) && Fires(t, Applied(t, run, e))
  {
    hide IsCompleted, EverFailed, Completions, CompletesOnce, Tables.LogOf, ApplyRow;
    forall other
      ensures t.LogOf(other) <= Appended(t, run, e).LogOf(other) == Applied(t, run, e).LogOf(other)
    {
      AppendedLogs(t, run, e, other);
    }
    forall other, key
      ensures CompletesOnce(t.LogOf(other), Appended(t, run, e).LogOf(other), key)
    {
      AppendedLogs(t, run, e, other);
      if other == run {
        OneMoreCompletes(t.LogOf(run), e, key);
      } else {
        SameCompletions(t.LogOf(other), key);
      }
    }
  }

  lemma SameCompletions(log: Log, key: Key)
    ensures CompletesOnce(log, log, key)
  {
  }

  lemma EnqueueFires(t: Tables, run: RunId)
    ensures Fires(t, Enqueued(t, run))
  {
    hide IsCompleted, EverFailed, Completions;
  }

  lemma StillTimed(t: Tables, id: nat, i: nat)
    requires i in t.timers && i != id
    ensures IsTimed(TimerDeleted(t, id), t.timers[i].run, t.timers[i].stepKey, t.timers[i].kind)
  {
    assert i in TimerDeleted(t, id).timers;
  }

  /** A fired sleep's timer may go: the completion is logged and the run enqueued. */
  lemma DeleteFires(t: Tables, id: nat)
    requires id in t.timers && t.timers[id].kind.SleepTimer? ==>
               IsCompleted(t.LogOf(t.timers[id].run), t.timers[id].stepKey) && t.timers[id].run in t.queue
    ensures Fires(t, TimerDeleted(t, id))
  {
    hide IsCompleted, EverFailed, Completions;
    var t' := TimerDeleted(t, id);
    forall run, key | IsTimed(t, run, key, SleepTimer) && !IsTimed(t', run, key, SleepTimer)
      ensures IsCompleted(t'.LogOf(run), key) && StaysAwake(t', run)
    {
      var i :| i in t.timers && t.timers[i] == TimerRow(run, key, SleepTimer);
      if i != id {
        StillTimed(t, id, i);
      }
    }
  }

  lemma FailedDequeueFires(t: Tables, run: RunId)
    requires EverFailed(t.LogOf(run))
    ensures Fires(t, Dequeued(t, run))
  {
    hide IsCompleted, Completions;
  }

  lemma SettleFires(t: Tables, child: RunId)
    ensures Fires(t, Settled(t, child))
  {
    if Settles(t, child) {
      var parent := t.rows[child].parent.value;
      var key := DispatchKey(t.LogOf(parent), parent, child).value;
      var e := Verdict(t.LogOf(parent), child, t.rows[child], key);
      hide IsFailed, EverFailed, Completions, DispatchKey, Fires, Verdict, Settles;
      VerdictKey(t.LogOf(parent), child, t.rows[child], key);
      AppendFires(t, parent, e);
      StatusFires(Appended(t, parent, e), parent, Pending);
      EnqueueFires(StatusSet(Appended(t, parent, e), parent, Pending), parent);
      FiresThen(t, Appended(t, parent, e), StatusSet(Appended(t, parent, e), parent, Pending));
      FiresThen(t, StatusSet(Appended(t, parent, e), parent, Pending), Settled(t, child));
    } else {
      FiresNothing(t);
    }
  }

  lemma PartlyFires(t: Tables, t': Tables, child: RunId)
    requires SettledPartly(t, t', child)
    ensures Fires(t, t')
  {
    hide IsFailed, EverFailed, Completions, DispatchKey, Fires, Verdict;
    FiresNothing(t);
    if Settles(t, child) {
      var parent := t.rows[child].parent.value;
      var key := DispatchKey(t.LogOf(parent), parent, child).value;
      var e := Verdict(t.LogOf(parent), child, t.rows[child], key);
      VerdictKey(t.LogOf(parent), child, t.rows[child], key);
      AppendFires(t, parent, e);
      StatusFires(Appended(t, parent, e), parent, Pending);
      FiresThen(t, Appended(t, parent, e), StatusSet(Appended(t, parent, e), parent, Pending));
    }
  }

  lemma VerdictKey(log: Log, child: RunId, row: RunRow, key: Key)
    ensures var e := Verdict(log, child, row, key); e.StepCompleted? || e.StepFailed?
    ensures var e := Verdict(log, child, row, key); e.stepKey == key
  {
  }

  lemma StatusFires(t: Tables, run: RunId, status: RunStatus)
    ensures Fires(t, StatusSet(t, run, status))
  {
    hide IsCompleted, EverFailed, Completions;
  }

  class Scheduler {
    const db: Session
    const store: Store.ArtifactStore
    const policy: Policies

    constructor (db: Session, store: Store.ArtifactStore, policy: Policies)
      ensures this.db == db && this.store == store && this.policy == policy
    {
      this.db, this.store, this.policy := db, store, policy;
    }

    ghost predicate StoreIsConsistent()
      reads this, store
    {
      Artifacts.Consistent(store.rows, store.edges)
    }

    /** Completes the step unless it is, wakes the run, and only then deletes the timer. */
    method FireSleep(id: nat, timer: TimerRow) returns (alive: bool)
      requires timer.kind.SleepTimer? && (id in db.timers ==> db.timers[id] == timer)
      modifies db
      ensures Fires(old(db.View()), db.View())
      ensures var t, t' := old(db.View()), db.View(); var run, key := timer.run, timer.stepKey;
        && t'.LogOf(run) <= t.LogOf(run) + (if IsCompleted(t.LogOf(run), key) then [] else [StepCompleted(key, SLEPT)])
        && (t'.timers == t.timers || t'.timers == t.timers - {id}) && t'.rows.Keys == t.rows.Keys
        && (alive ==> id !in t'.timers && IsCompleted(t'.LogOf(run), key) && run in t'.queue)
        && (id in t.timers && id !in t'.timers ==> IsCompleted(t'.LogOf(run), key) && run in t'.queue)
      ensures var t, t' := old(db.View()), db.View(); var run := timer.run;
        alive && run in t.rows ==>
          run in t'.rows && t'.rows[run] == if IsCompleted(t.LogOf(run), timer.stepKey) then t.rows[run]
                                            else t.rows[run].(status := Running)
    {
      hide IsCompleted, EverFailed, Completions, IsTimed, RowApplied, Fires;
      var run, key := timer.run, timer.stepKey;
      ghost var t := db.View();
      FiresNothing(t);
      var events := db.View().LogOf(run);
      if !IsCompleted(events, key) {
        var e := StepCompleted(key, SLEPT);
        AppendedLogs(t, run, e, run);
        AppendFires(t, run, e);
        CompletedRow(t, run, e);
        alive := db.Record(run, e);
        if !alive {
          return;
        }
        CompletedNow(t, run, e);
      }
      ghost var t1 := db.View();
      alive := db.Spend();
      if !alive {
        return;
      }
      db.UpsertTaskQueue(run);
      EnqueueFires(t1, run);
      ghost var t2 := db.View();
      FiresThen(t, t1, t2);
      alive := db.Spend();
      if !alive {
        return;
      }
      DeleteFires(t2, id);
      db.DeleteTimer(id);
      FiresThen(t, t2, db.View());
    }

    /** A retry leaves no trace but its timer's absence. */
    method FireRetry(id: nat, timer: TimerRow) returns (alive: bool)
      requires timer.kind.RetryTimer? && (id in db.timers ==> db.timers[id] == timer)
      modifies db
      ensures Fires(old(db.View()), db.View()) && db.logs == old(db.logs) && db.rows == old(db.rows)
      ensures db.timers == old(db.timers) || db.timers == old(db.timers) - {id}
      ensures alive ==> id !in db.timers && timer.run in db.queue
      ensures id in old(db.timers) && id !in db.timers ==> timer.run in db.queue
    {
      hide Fires;
      ghost var t := db.View();
      FiresNothing(t);
      alive := db.Spend();
      if !alive {
        return;
      }
      db.UpsertTaskQueue(timer.run);
      EnqueueFires(t, timer.run);
      ghost var t1 := db.View();
      alive := db.Spend();
      if !alive {
        return;
      }
      DeleteFires(t1, id);
      db.DeleteTimer(id);
      FiresThen(t, t1, db.View());
    }

    /** Resolves the open gate a label names; the artifact's status is mirrored first. */
    method ResolveGate(run: RunId, gateKey: string, decision: Decision, actor: string) returns (r: Resolution)
      requires StoreIsConsistent()
      modifies db, store`rows
      ensures StoreIsConsistent() && Fires(old(db.View()), db.View()) && db.timers == old(db.timers)
      ensures var log, rows := old(db.View()).LogOf(run), old(store.rows);
        match r
        case NotOpen => OpenOrder(log, gateKey) == []
        case Refused =>
          OpenOrder(log, gateKey) != [] && !TakesDecision(rows,
              ArtifactOf(log, gateKey, Last(OpenOrder(log, gateKey))), decision)
        case Resolved(key) =>
          && OpenOrder(log, gateKey) != [] && key == Last(OpenOrder(log, gateKey))
          && TakesDecision(rows, ArtifactOf(log, gateKey, key), decision)
          && store.rows == Artifacts.StatusChanged(rows, ArtifactOf(log, gateKey, key), StatusOf(decision))
          && db.View() == GateTables(old(db.View()), run, GateResolved(key, gateKey, decision, actor))
        case Died => ResolvingCut(old(db.View()), db.View(), rows, store.rows, run, gateKey, decision, actor)
      ensures r.Resolved? ==> IsAnswered(old(db.View()), db.View(), run, r.key, gateKey, decision, actor)
      ensures r.Resolved? ==> TakesStatus(old(store.rows), store.rows,
                ArtifactOf(old(db.View()).LogOf(run), gateKey, r.key), decision)
      ensures r.NotOpen? ==> forall key :: !IsOpenGate(old(db.View()).LogOf(run), gateKey, key)
      ensures r.NotOpen? || r.Refused? ==> db.View() == old(db.View()) && store.rows == old(store.rows)
      ensures r.Resolved? ==> (IsOpenGate(old(db.View()).LogOf(run), gateKey, r.key)
                && !IsOpenGate(db.View().LogOf(run), gateKey, r.key))
      ensures r.Resolved? && NeverReopened(old(db.View()).LogOf(run), gateKey) ==>
                forall key :: IsOpenGate(old(db.View()).LogOf(run), gateKey, key) && key != r.key ==>
                  OpenedBefore(old(db.View()).LogOf(run), gateKey, key, r.key)
    {
      hide IsCompleted, EverFailed, Completions, IsTimed, RowApplied, Fires, OpenedBefore, NeverReopened;
      hide Artifacts.Consistent, Artifacts.Evolves, Artifacts.StatusChanged, OpenOrder, IsOpenGate, LatestOpening;
      hide IsAnswered, TakesStatus;
      ghost var t, rowsBefore := db.View(), store.rows;
      FiresNothing(t);
      var found := OpenGate(db.View().LogOf(run), gateKey);
      if found.None? {
        return NotOpen;
      }
      var key := found.value.stepKey;
      var alive := db.Spend();
      if !alive {
        return Died;
      }
      var accepted := store.MirrorDecision(found.value.artifact, StatusOf(decision));
      if !accepted {
        return Refused;
      }
      var e := GateResolved(key, gateKey, decision, actor);
      AppendFires(t, run, e);
      alive := db.Record(run, e);
      if !alive {
        return Died;
      }
      ghost var t1 := db.View();
      alive := db.Spend();
      if !alive {
        return Died;
      }
      db.UpsertTaskQueue(run);
      EnqueueFires(t1, run);
      FiresThen(t, t1, db.View());
      OneMore(t.LogOf(run), e, gateKey, key);
      AppliedLog(t, run, e);
      Answered(t, run, key, gateKey, decision, actor);
      DecisionTaken(rowsBefore, ArtifactOf(t.LogOf(run), gateKey, key), decision);
      return Resolved(key);
    }

    /** The first opening of the step, and whether it was ever resolved. */
    method FindGate(events: Log, key: Key) returns (gateKey: Option<string>, resolved: bool)
      ensures gateKey == FirstLabel(events, key) && (gateKey.Some? <==> IsOpened(events, key))
      ensures resolved <==> IsResolved(events, key)
    {
      gateKey, resolved := None, false;
      for i := 0 to |events|
        invariant gateKey == FirstLabel(events[..i], key) && (gateKey.Some? <==> IsOpened(events[..i], key))
        invariant resolved <==> IsResolved(events[..i], key)
      {
        assert forall e :: e in events[..i + 1] <==> e in events[..i] || e == events[i];
        assert Front(events[..i + 1]) == events[..i];
        if gateKey.None? && events[i].GateOpened? && events[i].stepKey == key {
          gateKey := Some(events[i].gateKey);
        }
        if events[i].GateResolved? && events[i].stepKey == key {
          resolved := true;
        }
      }
      assert events[..|events|] == events;
    }

    /** The policy of a gate whose timeout has come; a stale timer changes nothing. An approval goes
        by the label the step was first opened under, to the last open step of that label. */
    method HandleGateTimeout(run: RunId, key: Key, used: set<nat>)
      returns (alive: bool, raised: bool, ghost resolved: Option<Key>)
      requires StoreIsConsistent()
      modifies db, store`rows
      ensures StoreIsConsistent() && Fires(old(db.View()), db.View())
      ensures !OpenedUnresolved(old(db.View()).LogOf(run), key) ==>
                alive && !raised && db.View() == old(db.View()) && store.rows == old(store.rows)
      ensures OpenedUnresolved(old(db.View()).LogOf(run), key) && alive ==> (
        var t, t' := old(db.View()), db.View();
        match policy(key)
        case ApproveOnTimeout =>
          && (raised <==> !TakesDecision(old(store.rows), ApprovedArtifact(t.LogOf(run), key), Approved))
          && (raised ==> t' == t && store.rows == old(store.rows))
          && (!raised ==>
                && resolved == Some(ApprovedStep(t.LogOf(run), key)) && FirstLabel(t.LogOf(run), key).Some?
                && t' == GateTables(t, run, GateResolved(resolved.value, FirstLabel(t.LogOf(run), key).value,
                    Approved, "timeout"))
                && store.rows == Artifacts.StatusChanged(old(store.rows), ApprovedArtifact(t.LogOf(run), key),
                    Artifacts.Approved)
                && IsAnswered(t, t', run, resolved.value, FirstLabel(t.LogOf(run), key).value, Approved, "timeout"))
        case EscalateOnTimeout => !raised && exists id ::
            id !in t.timers && t' == TimerAdded(t, id, TimerRow(run, key, GateTimeout))
        case FailOnTimeout => !raised && t' == TimedOutTables(t, run, key) && IsTimedOut(t, t', run, key))
      ensures OpenedUnresolved(old(db.View()).LogOf(run), key) && !alive ==> (
        var t, t' := old(db.View()), db.View();
        match policy(key)
        case ApproveOnTimeout => FirstLabel(t.LogOf(run), key).Some? && ResolvingCut(t, t', old(store.rows), store.rows,
            run, FirstLabel(t.LogOf(run), key).value, Approved, "timeout")
        case EscalateOnTimeout => t' == t
        case FailOnTimeout => TimingOutCut(t, t', run, key))
      ensures forall id :: id in used ==>
                (id in db.timers <==> id in old(db.timers)) && (id in db.timers ==> db.timers[id] == old(db.timers[id]))
    {
      hide IsCompleted, EverFailed, Completions, IsTimed, RowApplied, Fires, OpenedBefore, NeverReopened, Settled;
      hide Artifacts.Consistent, Artifacts.StatusChanged, OpenOrder, ArtifactOf, IsOpenGate, TakesDecision, FirstLabel;
      hide IsAnswered, IsTimedOut, TakesStatus, ResolvingCut, TimingOutCut;
      alive, raised, resolved := true, false, None;
      ghost var t := db.View();
      FiresNothing(t);
      var gateKey, done := FindGate(db.View().LogOf(run), key);
      if gateKey.None? || done {
        return;
      }
      OwnLabelOpen(t.LogOf(run), key);
      match policy(key)
      case ApproveOnTimeout =>
        var r := ResolveGate(run, gateKey.value, Approved, "timeout");
        alive := !r.Died?;
        raised := r.Refused? || r.NotOpen?;
        if r.Resolved? {
          resolved := Some(r.key);
        }
      case EscalateOnTimeout =>
        alive := db.Spend();
        if alive {
          var id := db.InsertTimer(TimerRow(run, key, GateTimeout), used);
          InsertFires(t, id, TimerRow(run, key, GateTimeout));
        }
      case FailOnTimeout =>
        alive := FailOnGate(run, key);
    }

    method FailOnGate(run: RunId, key: Key) returns (alive: bool)
      modifies db
      ensures Fires(old(db.View()), db.View()) && db.timers == old(db.timers)
      ensures alive ==> db.View() == TimedOutTables(old(db.View()), run, key)
      ensures alive ==> IsTimedOut(old(db.View()), db.View(), run, key)
      ensures !alive ==> TimingOutCut(old(db.View()), db.View(), run, key)
    {
      hide IsCompleted, EverFailed, Completions, IsTimed, RowApplied, Fires, Settled, IsTimedOut, Settles;
      hide Verdict, DispatchKey;
      ghost var t := db.View();
      TimesOut(t, run, key);
      FiresNothing(t);
      var e := TimedOut(key);
      AppendFires(t, run, e);
      alive := db.Record(run, e);
      if !alive {
        return;
      }
      ghost var t1 := db.View();
      FailedNow(t, run, e);
      alive := db.Spend();
      if !alive {
        return;
      }
      db.DeleteQueueRow(run);
      FailedDequeueFires(t1, run);
      ghost var t2 := db.View();
      FiresThen(t, t1, t2);
      alive := db.Spend();
      if !alive {
        return;
      }
      alive := db.SettleParentOnChildTerminal(run, true);
      SettleFires(t2, run);
      if !alive {
        PartlyFires(t2, db.View(), run);
      }
      FiresThen(t, t2, db.View());
    }

    /** Fires every due timer in order; an artifact that refuses its mirrored status stops the pass. */
    method FireDueTimers(due: seq<(nat, TimerRow)>) returns (alive: bool, raised: bool, fired: nat)
      requires forall i :: 0 <= i < |due| ==> due[i].0 in db.timers && db.timers[due[i].0] == due[i].1
      requires StoreIsConsistent()
      modifies db, store`rows
      ensures StoreIsConsistent()
      ensures Fires(old(db.View()), db.View())
      ensures fired <= |due| && (alive && !raised ==> fired == |due|)
      ensures forall i :: 0 <= i < fired ==>
                IsOver(old(db.View()), db.View(), due[i].1, policy(due[i].1.stepKey)) && due[i].0 !in db.timers
    {
      hide Fires, Artifacts.Consistent, IsOver;
      alive, raised, fired := true, false, 0;
      FiresNothing(db.View());
      var used := set i | 0 <= i < |due| :: due[i].0;
      while fired < |due|
        invariant fired <= |due| && alive && !raised && StoreIsConsistent()
        invariant Fires(old(db.View()), db.View())
        invariant forall i :: 0 <= i < |due| && due[i].0 in db.timers ==> db.timers[due[i].0] == due[i].1
        invariant forall i :: 0 <= i < fired ==>
                    IsOver(old(db.View()), db.View(), due[i].1, policy(due[i].1.stepKey)) && due[i].0 !in db.timers
      {
        ghost var t := db.View();
        assert due[fired].0 in used;
        alive, raised := FireOne(due[fired].0, due[fired].1, used);
        FiresThen(old(db.View()), t, db.View());
        forall i | 0 <= i < fired
          ensures IsOver(old(db.View()), db.View(), due[i].1, policy(due[i].1.stepKey)) && due[i].0 !in db.timers
        {
          assert due[i].0 in used;
          StaysOver(old(db.View()), t, db.View(), due[i].1, policy(due[i].1.stepKey));
        }
        if !alive || raised {
          return;
        }
        OverSince(old(db.View()), t, db.View(), due[fired].1, policy(due[fired].1.stepKey));
        fired := fired + 1;
      }
    }

    method FireOne(id: nat, timer: TimerRow, used: set<nat>) returns (alive: bool, raised: bool)
      requires id in used && (id in db.timers ==> db.timers[id] == timer)
      requires StoreIsConsistent()
      modifies db, store`rows
      ensures StoreIsConsistent()
      ensures Fires(old(db.View()), db.View())
      ensures alive && !raised ==> id !in db.timers
      ensures alive && !raised ==> IsOver(old(db.View()), db.View(), timer, policy(timer.stepKey))
      ensures forall i :: i in used && i in db.timers ==> i in old(db.timers) && db.timers[i] == old(db.timers[i])
    {
      hide Fires, Artifacts.Consistent, IsTimedOut;
      raised := false;
      match timer.kind
      case SleepTimer =>
        alive := FireSleep(id, timer);
      case RetryTimer =>
        alive := FireRetry(id, timer);
      case GateTimeout =>
        ghost var t := db.View();
        ghost var resolved;
        alive, raised, resolved := HandleGateTimeout(timer.run, timer.stepKey, used);
        if !alive || raised {
          return;
        }
        ghost var t1 := db.View();
        alive := db.Spend();
        if !alive {
          return;
        }
        DeleteFires(t1, id);
        db.DeleteTimer(id);
        FiresThen(t, t1, db.View());
        TimeoutIsOver(t, t1, db.View(), timer, policy(timer.stepKey));
    }
  }

  /** What a timer is for has been done. A fired sleep has completed its step; after a sleep or a
      retry the run is enqueued or has failed; a gate that was open and fails on timeout is resolved
      or has failed the run. */
  ghost predicate IsOver(t0: Tables, t: Tables, timer: TimerRow, policy: TimeoutPolicy) {
    match timer.kind
    case SleepTimer => IsCompleted(t.LogOf(timer.run), timer.stepKey) && StaysAwake(t, timer.run)
    case RetryTimer => StaysAwake(t, timer.run)
    case GateTimeout =>
      policy.FailOnTimeout? && IsOpened(t0.LogOf(timer.run), timer.stepKey) ==>
        IsResolved(t.LogOf(timer.run), timer.stepKey) || EverFailed(t.LogOf(timer.run))
  }

  lemma StaysOver(t0: Tables, t: Tables, t': Tables, timer: TimerRow, policy: TimeoutPolicy)
    requires Fires(t, t') && IsOver(t0, t, timer, policy)
    ensures IsOver(t0, t', timer, policy)
  {
    hide IsCompleted, EverFailed, IsOpened, IsResolved, Completions;
    LogsGrow(t.LogOf(timer.run), t'.LogOf(timer.run), timer.stepKey);
  }

  lemma OverSince(t0: Tables, t: Tables, t': Tables, timer: TimerRow, policy: TimeoutPolicy)
    requires Fires(t0, t) && IsOver(t, t', timer, policy)
    ensures IsOver(t0, t', timer, policy)
  {
    hide IsCompleted, EverFailed, IsOpened, IsResolved, Completions;
    LogsGrow(t0.LogOf(timer.run), t.LogOf(timer.run), timer.stepKey);
  }

  lemma TimeoutIsOver(t: Tables, t1: Tables, t': Tables, timer: TimerRow, policy: TimeoutPolicy)
    requires timer.kind.GateTimeout? && t'.LogOf(timer.run) == t1.LogOf(timer.run)
    requires !OpenedUnresolved(t.LogOf(timer.run), timer.stepKey) ==> t1 == t
    requires policy.FailOnTimeout? && OpenedUnresolved(t.LogOf(timer.run), timer.stepKey) ==>
               IsTimedOut(t, t1, timer.run, timer.stepKey)
    ensures IsOver(t, t', timer, policy)
  {
    if policy.FailOnTimeout? && OpenedUnresolved(t.LogOf(timer.run), timer.stepKey) {
      var error :| t1.LogOf(timer.run) == t.LogOf(timer.run) + [RunFailed(error, timer.stepKey)];
      assert RunFailed(error, timer.stepKey) in t1.LogOf(timer.run);
    }
  }

  // ----- which gate a timeout approves -----

  function StatusOf(decision: Decision): Artifacts.Status {
    match decision
    case Approved => Artifacts.Approved
    case Rejected => Artifacts.Rejected
  }

  /** The artifact can take the status of the decision, or has it. */
  predicate TakesDecision(rows: seq<Artifacts.Row>, artifact: Uuid, decision: Decision) {
    artifact < |rows| && rows[artifact].status in {Artifacts.Proposed, StatusOf(decision)}
  }

  /** The artifact named by the step's latest opening under the label. */
  function ArtifactOf(log: Log, gateKey: string, key: Key): Uuid {
    match LatestOpening(log, gateKey, key)
    case Some(i) => if i < |log| && log[i].GateOpened? then log[i].artifact else 0
    case None => 0
  }

  ghost predicate OpenedUnresolved(log: Log, key: Key) {
    IsOpened(log, key) && !IsResolved(log, key)
  }

  /** The step whose gate a timeout of `key` approves: the last open one of its first label. */
  ghost function ApprovedStep(log: Log, key: Key): Key {
    match FirstLabel(log, key)
    case Some(gateKey) => if OpenOrder(log, gateKey) != [] then Last(OpenOrder(log, gateKey)) else key
    case None => key
  }

  ghost function ApprovedArtifact(log: Log, key: Key): Uuid {
    match FirstLabel(log, key)
    case Some(gateKey) => ArtifactOf(log, gateKey, ApprovedStep(log, key))
    case None => 0
  }

  lemma {:induction false} HasFirstLabel(log: Log, key: Key)
    ensures FirstLabel(log, key).Some? <==> IsOpened(log, key)
  {
    if log != [] {
      HasFirstLabel(Front(log), key);
      assert forall e :: e in log <==> e in Front(log) || e == Last(log);
    }
  }

  lemma OwnLabelOpen(log: Log, key: Key)
    requires OpenedUnresolved(log, key)
    ensures FirstLabel(log, key).Some? && IsOpenGate(log, FirstLabel(log, key).value, key)
    ensures key in OpenOrder(log, FirstLabel(log, key).value)
  {
    hide FirstLabel, OpenOrder, IsOpenGate;
    HasFirstLabel(log, key);
    FirstLabelOpen(log, key);
    var openings := OrderIsOpen(log, FirstLabel(log, key).value);
  }

  /** A timeout that approves resolves the gate that timed out exactly when that gate was opened
      last among the open ones of its label; otherwise it resolves another step. */
  lemma TimeoutResolvesOwnGate(log: Log, key: Key)
    requires OpenedUnresolved(log, key)
    ensures FirstLabel(log, key).Some? && IsOpenGate(log, FirstLabel(log, key).value, ApprovedStep(log, key))
    ensures var gateKey := FirstLabel(log, key).value;
      NeverReopened(log, gateKey) ==>
        (ApprovedStep(log, key) == key <==>
           forall k :: IsOpenGate(log, gateKey, k) && k != key ==> OpenedBefore(log, gateKey, k, key))
  {
    hide FirstLabel, OpenOrder, IsOpenGate, LatestOpening, NeverReopened;
    OwnLabelOpen(log, key);
    var gateKey := FirstLabel(log, key).value;
    var order := OpenOrder(log, gateKey);
    var openings := OrderIsOpen(log, gateKey);
    assert Last(order) in order;
    if NeverReopened(log, gateKey) {
      assert forall k :: k in order ==> k in Front(order) || k == Last(order);
      assert !(OpenedBefore(log, gateKey, Last(order), key) && OpenedBefore(log, gateKey, key, Last(order)));
    }
  }

  /** A parallel list of two gates under one label, both open. */
  function TwoGates(started: Event): Log {
    [started, StepStarted("review", Gate), StepStarted("review#2", Gate),
     GateOpened("review", "review", 0), GateOpened("review#2", "review", 1)]
  }

  lemma TwoGatesOpen(started: Event)
    requires started.RunStarted?
    ensures var log := TwoGates(started);
      && OpenedUnresolved(log, "review") && FirstLabel(log, "review") == Some("review")
      && ApprovedStep(log, "review") == "review#2" && ApprovedArtifact(log, "review") == 1
  {
    var log := TwoGates(started);
    assert log[3] in log;
    assert log[..0] == [] && log[..5] == log;
    var n := 0;
    while n < 5
      invariant n <= 5
      invariant OpenOrder(log[..n], "review") == if n < 4 then [] else if n < 5 then ["review"]
                  else ["review", "review#2"]
      invariant FirstLabel(log[..n], "review") == if n < 4 then None else Some("review")
    {
      assert Front(log[..n + 1]) == log[..n] && Last(log[..n + 1]) == log[n];
      n := n + 1;
    }
    assert Last(log) == log[4];
  }

  /** The first gate's timeout approves the second one, and the second one's artifact. */
  method TimeoutResolvesAnother(scheduler: Scheduler, run: RunId, ghost started: Event) returns (alive: bool)
    requires started.RunStarted? && scheduler.db.View().LogOf(run) == TwoGates(started)
    requires scheduler.policy("review").ApproveOnTimeout?
    requires scheduler.StoreIsConsistent() && |scheduler.store.rows| > 1 && scheduler.store.rows[1].status.Proposed?
    modifies scheduler.db, scheduler.store`rows
    ensures alive ==> scheduler.db.View().LogOf(run) == TwoGates(started) + [GateResolved("review#2", "review",
              Approved, "timeout")]
    ensures alive ==> |scheduler.store.rows| > 1 && scheduler.store.rows[1].status.Approved?
    ensures alive ==> scheduler.store.rows[0] == old(scheduler.store.rows[0])
  {
    TwoGatesOpen(started);
    hide TwoGates, Fires, Artifacts.Consistent, FirstLabel, ApprovedStep, ApprovedArtifact, RowApplied;
    ghost var t := scheduler.db.View();
    var raised;
    ghost var resolved;
    alive, raised, resolved := scheduler.HandleGateTimeout(run, "review", {});
    AppliedLog(t, run, GateResolved("review#2", "review", Approved, "timeout"));
  }

  /** A resolution took its effect: the decision is in the log, where a replay finds it for the step,
      and the run is pending and enqueued; nothing else happened to the tables. */
  ghost predicate IsAnswered(t: Tables, t': Tables, run: RunId, key: Key, gateKey: string, decision: Decision,
      actor: string) {
    && t'.LogOf(run) == t.LogOf(run) + [GateResolved(key, gateKey, decision, actor)]
    && key in Decisions(t'.LogOf(run))
    && Decisions(t'.LogOf(run))[key] == (if decision.Approved? then "approved" else "rejected")
    && t'.queue == t.queue + {run} && t'.timers == t.timers && t'.rows.Keys == t.rows.Keys
    && (run in t.rows ==> t'.rows[run] == t.rows[run].(status := Pending))
    && (forall r :: r != run ==> t'.LogOf(r) == t.LogOf(r) && (r in t.rows ==> t'.rows[r] == t.rows[r]))
  }

  lemma Answered(t: Tables, run: RunId, key: Key, gateKey: string, decision: Decision, actor: string)
    ensures IsAnswered(t, GateTables(t, run, GateResolved(key, gateKey, decision, actor)), run, key, gateKey,
              decision, actor)
  {
    hide Decisions, Tables.LogOf, Completions, Failures, Results, Resolutions, Opened;
    var e := GateResolved(key, gateKey, decision, actor);
    AppendCounts(t.LogOf(run), e);
    forall r
      ensures GateTables(t, run, e).LogOf(r) == Appended(t, run, e).LogOf(r)
      ensures GateTables(t, run, e).LogOf(r) == if r == run then t.LogOf(run) + [e] else t.LogOf(r)
    {
      AppendedLogs(t, run, e, r);
      SameLogs(GateTables(t, run, e), Applied(t, run, e), r);
    }
  }

  lemma SameLogs(t: Tables, t': Tables, run: RunId)
    requires t.logs == t'.logs
    ensures t.LogOf(run) == t'.LogOf(run)
  {
  }

  /** The artifact has the decision's status, and no other row changed. */
  ghost predicate TakesStatus(rows: seq<Artifacts.Row>, rows': seq<Artifacts.Row>, artifact: Uuid, decision: Decision) {
    && |rows'| == |rows| && artifact < |rows|
    && rows'[artifact] == rows[artifact].(status := if decision.Approved? then Artifacts.Approved
                                                    else Artifacts.Rejected)
    && forall i :: 0 <= i < |rows| && i != artifact ==> rows'[i] == rows[i]
  }

  lemma DecisionTaken(rows: seq<Artifacts.Row>, artifact: Uuid, decision: Decision)
    requires artifact < |rows|
    ensures TakesStatus(rows, Artifacts.StatusChanged(rows, artifact, StatusOf(decision)), artifact, decision)
  {
  }

  /** A gate's timeout has failed the run: its log and row say so, it is out of the queue, and a
      parent that waited for it has been told. */
  ghost predicate IsTimedOut(t: Tables, t': Tables, run: RunId, key: Key) {
    && (exists error :: "type" in error && error["type"] == "GateTimeout"
                        && t'.LogOf(run) == t.LogOf(run) + [RunFailed(error, key)]
                        && (run in t.rows ==>
                              run in t'.rows && t'.rows[run] == t.rows[run].(status := Failed, error := Some(error),
                                                                             currentStep := Some(key))))
    && run !in t'.queue && NobodyWaits(t', run)
  }

  /** A timeout that fails its run, cut short: the event, the row, the queue row, the parent's settle. */
  predicate TimingOutCut(t: Tables, t': Tables, run: RunId, key: Key) {
    var ended := Applied(t, run, TimedOut(key));
    t' == t || t' == Appended(t, run, TimedOut(key)) || t' == ended || SettledPartly(Dequeued(ended, run), t', run)
  }

  lemma TimesOut(t: Tables, run: RunId, key: Key)
    ensures IsTimedOut(t, TimedOutTables(t, run, key), run, key)
  {
    var e := TimedOut(key);
    var t1 := Dequeued(Applied(t, run, e), run);
    AppliedLog(t, run, e);
    if run.ChildOf? {
      SettleTells(t1, run.parent, run.stepKey);
    }
    SettledSelf(t1, run);
    assert e.error["type"] == "GateTimeout";
  }

  /** A settle touches neither the child nor its place in the queue. */
  lemma SettledSelf(t: Tables, child: RunId)
    ensures var t' := Settled(t, child);
      && t'.LogOf(child) == t.LogOf(child) && (child in t'.queue <==> child in t.queue)
      && (child in t.rows ==> child in t'.rows && t'.rows[child] == t.rows[child])
  {
    if Settles(t, child) {
      DispatchedByParent(t.LogOf(t.rows[child].parent.value), t.rows[child].parent.value, child);
    }
  }

  lemma CompletedRow(t: Tables, run: RunId, e: Event)
    requires e.StepCompleted?
    ensures var t' := Applied(t, run, e);
      run in t.rows ==> run in t'.rows && t'.rows[run] == t.rows[run].(status := Running)
  {
  }

  /** The tables after a gate's resolution. */
  function GateTables(t: Tables, run: RunId, e: Event): Tables {
    Enqueued(Applied(t, run, e), run)
  }

  function TimedOut(key: Key): Event {
    RunFailed(map["type" := "GateTimeout"], key)
  }

  /** The tables after a gate's timeout has failed its run. */
  function TimedOutTables(t: Tables, run: RunId, key: Key): Tables {
    Settled(Dequeued(Applied(t, run, TimedOut(key)), run), run)
  }

  /** What a resolution cut short leaves: nothing; the artifact's status while the gate is still open;
      or that and the event, with the run's row updated or not, and the run not enqueued. */
  predicate ResolvingCut(t: Tables, t': Tables, rows: seq<Artifacts.Row>, rows': seq<Artifacts.Row>, run: RunId,
      gateKey: string, decision: Decision, actor: string) {
    var log := t.LogOf(run);
    && OpenOrder(log, gateKey) != []
    && var key := Last(OpenOrder(log, gateKey));
       var artifact, e := ArtifactOf(log, gateKey, key), GateResolved(key, gateKey, decision, actor);
       || (t' == t && rows' == rows)
       || (TakesDecision(rows, artifact, decision)
           && rows' == Artifacts.StatusChanged(rows, artifact, StatusOf(decision))
           && (t' == t || t' == Appended(t, run, e) || t' == Applied(t, run, e)))
  }

  /** Until its event is on record a resolution that was cut can be repeated: it is accepted if and
      only if the first one was, and then leaves the artifacts as one resolution does. */
  lemma ResolvesAgain(t: Tables, t': Tables, rows: seq<Artifacts.Row>, rows': seq<Artifacts.Row>, run: RunId,
      gateKey: string, decision: Decision, actor: string)
    requires ResolvingCut(t, t', rows, rows', run, gateKey, decision, actor)
    requires t'.LogOf(run) == t.LogOf(run)
    ensures t' == t
    ensures var artifact := ArtifactOf(t.LogOf(run), gateKey, Last(OpenOrder(t.LogOf(run), gateKey)));
      && (TakesDecision(rows', artifact, decision) <==> TakesDecision(rows, artifact, decision))
      && (TakesDecision(rows, artifact, decision) ==>
            Artifacts.StatusChanged(rows', artifact, StatusOf(decision))
            == Artifacts.StatusChanged(rows, artifact, StatusOf(decision)))
  {
    hide OpenOrder, ArtifactOf, RowApplied;
    var key := Last(OpenOrder(t.LogOf(run), gateKey));
    AppliedLog(t, run, GateResolved(key, gateKey, decision, actor));
  }

  lemma FailedNow(t: Tables, run: RunId, e: Event)
    requires e.RunFailed?
    ensures EverFailed(Applied(t, run, e).LogOf(run))
  {
    assert e in t.LogOf(run) + [e];
  }

  lemma InsertFires(t: Tables, id: nat, timer: TimerRow)
    requires id !in t.timers
    ensures Fires(t, TimerAdded(t, id, timer))
  {
    hide IsCompleted, EverFailed, Completions;
    var t' := TimerAdded(t, id, timer);
    forall run, key | IsTimed(t, run, key, SleepTimer) ensures IsTimed(t', run, key, SleepTimer) {
      var i :| i in t.timers && t.timers[i] == TimerRow(run, key, SleepTimer);
      assert i in t'.timers && t'.timers[i] == t.timers[i];
    }
  }

  lemma CompletedNow(t: Tables, run: RunId, e: Event)
    requires e.StepCompleted?
    ensures IsCompleted(Applied(t, run, e).LogOf(run), e.stepKey)
    ensures Applied(t, run, e).LogOf(run) == t.LogOf(run) + [e] && Applied(t, run, e).timers == t.timers
  {
    assert e in t.LogOf(run) + [e];
  }
}
