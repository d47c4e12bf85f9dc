/** The tables of a run, between passes, against its transition system: a start, every pass of the
    engine and every waker keep the two in step, so what holds of all runs of the system holds of
    the tables. */
module Simulation {
  import opened Prelude
  import opened Keys
  import opened Events
  import opened Program
  import opened Durable
  import opened DurableInvariant
  import opened DurableTheorems
  import opened Tables
  import opened Settle
  import opened Frontier
  import opened Commits
  import opened LiveSteps
  import opened Refinement
  import Cancel
  import Engine
  import EngineTheorems
  import Gates
  import Timers

  /** No pass is under way, and the system's state, reached by its own steps, is that of the tables. */
  ghost predicate Simulated(body: Body, s: Sys, t: Tables, run: RunId) {
    Reachable(body, s) && Mirrors(s, t, run) && s.pass.None?
  }

  // ----- what keeps them in step -----

  /** A run that has just been started. */
  lemma StartSimulated(body: Body, t: Tables, run: RunId)
    requires AllStarts(t.LogOf(run))
    requires !t.HasTimers(run) && (forall key :: ChildRunId(run, key) !in t.rows)
    ensures Simulated(body, Initial(t.LogOf(run)), t, run)
  {
    assert Runs(body, Initial(t.LogOf(run)), []) && After(body, Initial(t.LogOf(run)), []) == Initial(t.LogOf(run));
    forall key ensures !IsTimed(t, run, key, SleepTimer) {
      assert forall id :: id in t.timers ==> t.timers[id].run != run;
    }
  }

  /** A pass of the engine, wherever it was cut. */
  lemma PassSimulated(body: Body, s: Sys, s': Sys, t: Tables, t': Tables, run: RunId, calls: multiset<Key>)
    requires Simulated(body, s, t, run) && Refined(body, s, s', t', run, calls)
    ensures Simulated(body, s', t', run) && s'.invoked == s.invoked + calls
  {
    hide Reachable, Leads, Mirrors;
    LeadsReachable(body, s, s');
  }

  /** What somebody other than the executor may record: a sleep that is over, a decision on an open
      gate or its timeout, the verdict on a child. */
  ghost predicate IsOutside(t: Tables, run: RunId, e: Event) {
    match e
    case StepCompleted(key, value) => Waits(t, run, key, Child) || (value == SLEPT && Waits(t, run, key, Sleep))
    case StepFailed(key, _, attempt, willRetry) =>
      Waits(t, run, key, Child) && !IsFailed(t.LogOf(run), key) && attempt == Failures(t.LogOf(run))[key] + 1
          && !willRetry
    case GateResolved(key, _, _, _) => Waits(t, run, key, Gate)
    case RunFailed(_, key) => Waits(t, run, key, Gate)
    case _ => false
  }

  function OutsideStep(t: Tables, run: RunId, e: Event): Step
    requires e.StepCompleted? || e.StepFailed? || e.GateResolved? || e.RunFailed?
  {
    match e
    case StepCompleted(key, value) => if ChildRunId(run, key) in t.rows then SettleDone(key, value) else Fire(key)
    case StepFailed(key, error, _, _) => SettleFailed(key, error)
    case GateResolved(key, gateKey, decision, actor) => Resolve(key, gateKey, decision, actor)
    case RunFailed(error, key) => Expire(key, error)
  }

  lemma OutsideStepTaken(body: Body, s: Sys, t: Tables, run: RunId, e: Event)
    requires Mirrors(s, t, run) && IsOutside(t, run, e)
    ensures Enabled(body, s, OutsideStep(t, run, e))
    ensures var s' := Do(body, s, OutsideStep(t, run, e));
      && s'.log == s.log + [e] && s'.pass == s.pass && s'.returned == s.returned && s'.invoked == s.invoked
      && s'.children == s.children && (forall key :: !IsCompleted(s'.log, key) ==>
          (key in s'.armed <==> key in s.armed))
  {
    hide Results, Decisions, Failures, Project;
    var s' := Do(body, s, OutsideStep(t, run, e));
    if e.StepCompleted? {
      assert e in s'.log;
    }
  }

  /** A waker's event, and what it does to the row, the queue and the timers that are spent. */
  lemma WakeSimulated(body: Body, s: Sys, t: Tables, t': Tables, run: RunId, e: Event) returns (s': Sys)
    requires Simulated(body, s, t, run) && IsOutside(t, run, e)
    requires t'.LogOf(run) == t.LogOf(run) + [e] && SameSources(t, t', run)
    ensures Simulated(body, s', t', run) && s'.returned == s.returned && s'.invoked == s.invoked
  {
    hide Reachable, Enabled, Do, IsTimed, Waits, IsFailed, Failures, Tables.LogOf;
    OutsideStepTaken(body, s, t, run, e);
    s' := Do(body, s, OutsideStep(t, run, e));
    ReachableNext(body, s, OutsideStep(t, run, e));
    assert forall x :: x in s.log ==> x in s'.log;
  }

  /** Commits that leave the run's log alone, and the timers and children of its open steps. */
  lemma QuietSimulated(body: Body, s: Sys, t: Tables, t': Tables, run: RunId)
    requires Simulated(body, s, t, run) && t'.LogOf(run) == t.LogOf(run)
    requires forall key :: !IsCompleted(t.LogOf(run), key) ==>
               && (IsTimed(t', run, key, SleepTimer) <==> IsTimed(t, run, key, SleepTimer))
               && (ChildRunId(run, key) in t'.rows <==> ChildRunId(run, key) in t.rows)
    ensures Simulated(body, s, t', run)
  {
    hide Reachable, IsTimed;
  }

  // ----- the wakers -----

  /** A cancelled run keeps no timers, and no pass begins on it any more. */
  lemma CancelSimulated(body: Body, s: Sys, t: Tables, t': Tables, run: RunId, actor: string,
      reason: string) returns (s': Sys)
    requires Simulated(body, s, t, run)
    requires Cancel.IsCancelledRun(t, t', run, actor, reason) && t'.rows.Keys == t.rows.Keys
    ensures Simulated(body, s', t', run) && s'.returned == s.returned && s'.invoked == s.invoked && !CanBegin(s')
  {
    hide Reachable, Project;
    s' := Do(body, s, Step.Cancel(actor, reason));
    ReachableNext(body, s, Step.Cancel(actor, reason));
    assert RunCancelled(actor, reason) in s'.log;
    forall key
      ensures !IsTimed(t', run, key, SleepTimer)
      ensures IsCompleted(s.log, key) ==> IsCompleted(s'.log, key)
    {
      assert forall x :: x in s.log ==> x in s'.log;
    }
  }

  /** A child's end, told to its parent. */
  lemma SettleSimulated(body: Body, s: Sys, t: Tables, parent: RunId, key: Key) returns (s': Sys)
    requires Simulated(body, s, t, parent) && parent in t.rows
    requires ChildRunId(parent, key) in t.rows && t.rows[ChildRunId(parent, key)].parent == Some(parent)
    ensures Simulated(body, s', Settled(t, ChildRunId(parent, key)), parent)
    ensures s'.returned == s.returned && s'.invoked == s.invoked
  {
    hide Simulated, Results, Decisions, Failures, ChildResult, ChildError;
    var child := ChildRunId(parent, key);
    DispatchFound(t.LogOf(parent), parent, key);
    if Settle.Settles(t, child) {
      var e := Verdict(t.LogOf(parent), child, t.rows[child], key);
      s' := WakeSimulated(body, s, t, Settled(t, child), parent, e);
    } else {
      s' := s;
    }
  }

  /** In a log of gates opened once, the fold that looks for open gates is right: what it calls open
      is opened and unresolved, and nothing was opened again while it was open. */
  lemma {:induction false} OpenGatesWait(log: Log, gateKey: string, key: Key)
    requires GatesOnce(log)
    ensures Gates.IsOpenGate(log, gateKey, key) ==> IsOpened(log, key) && !IsResolved(log, key)
    ensures IsResolved(log, key) ==> IsOpened(log, key)
    ensures Gates.NeverReopened(log, gateKey)
  {
    if log != [] {
      OpenGatesWait(Front(log), gateKey, key);
      assert forall e :: e in log <==> e in Front(log) || e == Last(log);
      if Last(log).GateOpened? {
        OpenGatesWait(Front(log), gateKey, Last(log).stepKey);
      }
    }
  }

  /** A gate's decision, on the gate that resolving a label finds open. */
  lemma ResolveSimulated(body: Body, s: Sys, t: Tables, run: RunId, e: Event) returns (s': Sys)
    requires Simulated(body, s, t, run) && e.GateResolved? && Gates.IsOpenGate(t.LogOf(run), e.gateKey, e.stepKey)
    ensures Simulated(body, s', Timers.GateTables(t, run, e), run)
    ensures s'.returned == s.returned && s'.invoked == s.invoked
    ensures Gates.NeverReopened(t.LogOf(run), e.gateKey)
  {
    ReachableGates(body, s);
    OpenGatesWait(t.LogOf(run), e.gateKey, e.stepKey);
    hide Simulated;
    s' := WakeSimulated(body, s, t, Timers.GateTables(t, run, e), run, e);
  }

  /** A gate's timeout that fails its run. */
  lemma TimeoutSimulated(body: Body, s: Sys, t: Tables, run: RunId, key: Key) returns (s': Sys)
    requires Simulated(body, s, t, run) && Waits(t, run, key, Gate) && run in t.rows && t.rows[run].parent != Some(run)
    ensures Simulated(body, s', Timers.TimedOutTables(t, run, key), run)
    ensures s'.returned == s.returned && s'.invoked == s.invoked
  {
    hide Simulated, Waits, Settled;
    var t1 := Dequeued(Applied(t, run, Timers.TimedOut(key)), run);
    Engine.SettledElsewhere(t1, run);
    s' := WakeSimulated(body, s, t, Timers.TimedOutTables(t, run, key), run, Timers.TimedOut(key));
  }

  /** A sleep's firing, cut anywhere: the completion, if it is not there, and then perhaps the end
      of the timer. */
  lemma SleepSimulated(body: Body, s: Sys, t: Tables, t': Tables, run: RunId, key: Key, id: nat) returns (s': Sys)
    requires Simulated(body, s, t, run) && id in t.timers && t.timers[id] == TimerRow(run, key, SleepTimer)
    requires t'.rows.Keys == t.rows.Keys && t.LogOf(run) <= t'.LogOf(run)
    requires t'.LogOf(run) <= t.LogOf(run) + (if IsCompleted(t.LogOf(run), key) then []
               else [StepCompleted(key, SLEPT)])
    requires t'.timers == t.timers || (t'.timers == t.timers - {id} && IsCompleted(t'.LogOf(run), key))
    ensures Simulated(body, s', t', run) && s'.returned == s.returned && s'.invoked == s.invoked
  {
    hide Simulated, IsTimed, IsCompleted, Tables.LogOf;
    var t1 := t'.(timers := t.timers);
    SameTimers(t, t1, t', run);
    assert IsTimed(t, run, key, SleepTimer) by { TimerThere(t, run, key, id); }
    if t'.LogOf(run) == t.LogOf(run) {
      QuietSimulated(body, s, t, t1, run);
      s' := s;
    } else {
      s' := WakeSimulated(body, s, t, t1, run, StepCompleted(key, SLEPT));
    }
    forall k ensures !IsCompleted(t1.LogOf(run), k) ==>
                       (IsTimed(t', run, k, SleepTimer) <==> IsTimed(t1, run, k, SleepTimer)) {
      if t'.timers != t.timers && k != key {
        OtherTimers(t1, t', run, key, k, id);
      } else if t'.timers == t.timers {
        assert t' == t1;
      }
    }
    QuietSimulated(body, s', t1, t', run);
  }

  lemma SameTimers(t: Tables, t1: Tables, t': Tables, run: RunId)
    requires t1 == t'.(timers := t.timers) && t'.rows.Keys == t.rows.Keys
    ensures SameSources(t, t1, run) && t1.LogOf(run) == t'.LogOf(run)
  {
  }

  lemma TimerThere(t: Tables, run: RunId, key: Key, id: nat)
    requires id in t.timers && t.timers[id] == TimerRow(run, key, SleepTimer)
    ensures IsTimed(t, run, key, SleepTimer)
  {
  }

  lemma OtherTimers(t: Tables, t': Tables, run: RunId, key: Key, other: Key, id: nat)
    requires id in t.timers && t.timers[id] == TimerRow(run, key, SleepTimer) && t'.timers == t.timers - {id}
               && other != key
    ensures IsTimed(t', run, other, SleepTimer) <==> IsTimed(t, run, other, SleepTimer)
  {
    if i: nat :| i in t.timers && t.timers[i] == TimerRow(run, other, SleepTimer) {
      assert i != id && i in t'.timers;
    }
  }

  // ----- ready for the next pass -----

  /** All that a pass asks of the run: an open one is tidy. */
  ghost predicate Ready(body: Body, s: Sys, t: Tables, run: RunId) {
    Simulated(body, s, t, run) && (Engine.IsOpen(t, run) ==> Tidy(body, t, run))
  }

  lemma StartReady(body: Body, t: Tables, run: RunId)
    requires AllStarts(t.LogOf(run)) && run in t.rows && t.rows[run].parent != Some(run)
    requires t.rows[run].(parent := None) == RunRow(Pending, None, None, None, None)
    requires !t.HasTimers(run) && (forall key :: ChildRunId(run, key) !in t.rows)
    ensures Ready(body, Initial(t.LogOf(run)), t, run)
  {
    StartSimulated(body, t, run);
    EngineTheorems.StartsTidy(body, t, run);
  }

  /** A pass over an open run, cut after any commit, leaves it ready for the next one, or completed. */
  lemma PassReady(body: Body, world: World, s: Sys, s': Sys, t: Tables, t': Tables, run: RunId, calls: multiset<Key>,
      end: Engine.PassEnd, parked: bool)
    requires Ready(body, s, t, run) && Refined(body, s, s', t', run, calls)
    requires Engine.OpenPass(body, world, run, t, t', end, parked)
    ensures Ready(body, s', t', run)
  {
    hide Simulated, Refined, Tidy, Engine.RowFollows, Engine.QueueFollows, Engine.EndsWithRun, Engine.IsDue;
    PassSimulated(body, s, s', t, t', run, calls);
    var log := t'.LogOf(run);
    if log != [] && Last(log).RunCompleted? {
      ProjectAppend(Front(log), Last(log));
      assert log == Front(log) + [Last(log)];
    }
  }

  /** So does a waker's event, and the row update that follows it. */
  lemma WakeReady(body: Body, s: Sys, t: Tables, run: RunId, e: Event) returns (s': Sys)
    requires Ready(body, s, t, run) && Engine.IsOpen(t, run) && IsOutside(t, run, e)
    ensures Ready(body, s', Appended(t, run, e), run) && Ready(body, s', Applied(t, run, e), run)
  {
    hide Simulated, Tidy, Engine.IsOpen, Waits, SameSources;
    AppliedLog(t, run, e);
    AppendedSources(t, run, e);
    s' := WakeSimulated(body, s, t, Appended(t, run, e), run, e);
    QuietAppended(body, s', t, run, e);
    if e.RunFailed? {
      FailureTidy(body, t, run, e);
    } else {
      EngineTheorems.WakeKeepsTidy(body, t, run, e);
    }
  }

  lemma QuietAppended(body: Body, s: Sys, t: Tables, run: RunId, e: Event)
    requires Simulated(body, s, Appended(t, run, e), run)
    ensures Simulated(body, s, Applied(t, run, e), run)
  {
    hide Simulated, Results, Failures;
    QuietSimulated(body, s, Appended(t, run, e), Applied(t, run, e), run);
  }

  // ----- what the tables inherit -----

  /** When a pass over the tables completes its run, whatever crashes, retries and wakes came
      before: the log leads the body to exactly this output, any earlier completion handed over the
      same one, every step asked for completed exactly once, and each handler was called once for
      its completion, once per recorded failure, and once per call whose outcome was lost. */
  lemma CompletedPass(body: Body, world: World, s: Sys, s': Sys, t: Tables, t': Tables, run: RunId,
      calls: multiset<Key>,
      key: Key)
      returns (output: Value)
    requires Simulated(body, s, t, run) && Refined(body, s, s', t', run, calls)
    requires Engine.Hands(world, s, s', t'.LogOf(run), Engine.Reported(Completed))
    ensures var log := t'.LogOf(run);
      && log != [] && Last(log) == RunCompleted(world.outputRef(output)) && Yields(body, log, output)
      && (forall v :: v in s.returned ==> v == output)
      && (AskedCheckpoint(body, log, key) ==> Completions(log)[key] == 1)
      && (!AskedCheckpoint(body, log, key) ==> Completions(log)[key] == 0)
      && (forall call :: Asks(body, log, key, call) && IsHandled(call.kind) ==>
            s'.invoked[key] == s.invoked[key] + calls[key] == 1 + Failures(log)[key] + s'.lost[key])
  {
    hide Leads, Yields, Asks, Completions, Failures, Resolutions, Reachable, Mirrors, AskedCheckpoint, AskedAs;
    PassSimulated(body, s, s', t, t', run, calls);
    MirrorsLog(s', t', run);
    output :| Last(t'.LogOf(run)) == RunCompleted(world.outputRef(output)) && s'.returned == s.returned + [output];
    assert output in s'.returned;
    OneOutput(body, s', output, output);
    forall v | v in s.returned ensures v == output {
      assert v in s'.returned;
      OneOutput(body, s', v, output);
    }
    CompletedExactlyOnce(body, s', key);
    forall call | Asks(body, s'.log, key, call) && IsHandled(call.kind)
      ensures s'.invoked[key] == 1 + Failures(s'.log)[key] + s'.lost[key]
    {
      HandlerCalls(body, s', key, call);
    }
  }
}
