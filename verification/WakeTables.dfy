/** The methods that park and wake a run, as runs of the machine that loses no wake. */
module WakeTables {
  import opened Prelude
  import opened Keys
  import opened Events
  import opened Tables
  import opened LiveSteps
  import Durable
  import Engine
  import Settle
  import Timers
  import Wake
  import WakeSafety
  import WakeRetry

  /** The machine's state shows the run's log, queue row, and sleep and retry timers. */
  ghost predicate Watches(s: Wake.State, t: Tables, run: RunId) {
    && s.log == t.LogOf(run) && (s.queued <==> run in t.queue)
    && (forall id :: id in s.timers <==> IsWaker(t, run, id))
    && (forall id :: id in s.timers ==> s.timers[id] == Wake.Timer(t.timers[id].stepKey, t.timers[id].kind.RetryTimer?))
  }

  ghost predicate IsWaker(t: Tables, run: RunId, id: nat) {
    id in t.timers && t.timers[id].run == run && !t.timers[id].kind.GateTimeout?
  }

  function SourceOf(wake: LiveSteps.Wake, key: Key): Wake.Source {
    match wake
    case OnGate => Wake.GateOn(key)
    case OnSleep => Wake.SleepOn(key)
    case OnRetry => Wake.RetryOn(key)
    case OnChild => Wake.ChildOn(key)
  }

  // ----- the park -----

  /** The reconciling read of the engine is that of the machine. */
  lemma SameRead(s: Wake.State, t: Tables, run: RunId, key: Key, wake: LiveSteps.Wake, status: RunStatus)
    requires Watches(s, t, run) && status != Pending
    ensures Engine.Found(t, run, key, wake, status) == Pending <==>
            !Overruled(s.log) && Wake.WokenBy(s, SourceOf(wake, key))
  {
    hide IsCompleted, IsFailed, IsResolved;
    Engine.LastEndFound(s.log);
    if wake.OnRetry? {
      if id :| id in t.timers && t.timers[id] == TimerRow(run, key, RetryTimer) {
        assert id in s.timers && s.timers[id] == Wake.Timer(key, true);
      }
      if id :| id in s.timers && s.timers[id] == Wake.Timer(key, true) {
        assert t.timers[id] == TimerRow(run, key, RetryTimer);
      }
    }
  }

  function ParkSteps(x: nat, woken: bool): seq<Wake.Step> {
    [Wake.Delete(x), Wake.Reconcile(x)] + if woken then [Wake.Requeue(x)] else []
  }

  /** A park that is not cut deletes the queue row, reads, and writes the row again if the read found
      the wake. */
  lemma ParkRuns(s: Wake.State, x: nat, t: Tables, run: RunId, key: Key, wake: LiveSteps.Wake, status: RunStatus)
    requires Watches(s, t, run) && Wake.At(s, x, Wake.Parked(SourceOf(wake, key))) && status != Pending
    ensures var found := Engine.Found(t, run, key, wake, status); var steps := ParkSteps(x, found == Pending);
      && Wake.Runs(s, steps) && x !in Wake.After(s, steps).executors
      && Watches(Wake.After(s, steps), Engine.ParkedTables(t, run, found, status), run)
  {
    var found := Engine.Found(t, run, key, wake, status);
    var source := SourceOf(wake, key);
    SameRead(s, t, run, key, wake, status);
    Engine.ParkShows(t, run, found, status);
    Reads(s, x, source);
    hide Leads, Wake.Enabled, Wake.Do, Wake.WokenBy, Engine.Found, Overruled, Watches, Wake.At;
    var s1 := s.(queued := false, executors := s.executors[x := Wake.Executor(Wake.Deleted(source), true)]);
    var gone := s.(queued := false, executors := s.executors - {x});
    Starts(s);
    GoesOn(s, [], s, Wake.Delete(x), [Wake.Delete(x)]);
    if found == Pending {
      var s2 := s1.(executors := s.executors[x := Wake.Executor(Wake.Requeueing, true)]);
      GoesOn(s, [Wake.Delete(x)], s1, Wake.Reconcile(x), [Wake.Delete(x), Wake.Reconcile(x)]);
      GoesOn(s, [Wake.Delete(x), Wake.Reconcile(x)], s2, Wake.Requeue(x), ParkSteps(x, true));
      Arrives(s, ParkSteps(x, true), gone.(queued := true));
    } else {
      GoesOn(s, [Wake.Delete(x)], s1, Wake.Reconcile(x), ParkSteps(x, false));
      Arrives(s, ParkSteps(x, false), gone);
    }
    ParkWatched(s, t, run, x, found, status);
  }

  lemma Reads(s: Wake.State, x: nat, source: Wake.Source)
    requires Wake.At(s, x, Wake.Parked(source))
    ensures Wake.Enabled(s, Wake.Delete(x))
    ensures var s1 := s.(queued := false, executors := s.executors[x := Wake.Executor(Wake.Deleted(source), true)]);
            var gone := s.(queued := false, executors := s.executors - {x});
            var s2 := s1.(executors := s.executors[x := Wake.Executor(Wake.Requeueing, true)]);
      && Wake.Do(s, Wake.Delete(x)) == s1 && Wake.Enabled(s1, Wake.Reconcile(x))
      && Wake.Do(s1, Wake.Reconcile(x)) == (if Overruled(s.log) || !Wake.WokenBy(s, source) then gone else s2)
      && Wake.Enabled(s2, Wake.Requeue(x)) && Wake.Do(s2, Wake.Requeue(x)) == gone.(queued := true)
  {
    hide Overruled;
    var s1 := Wake.Do(s, Wake.Delete(x));
    ReadAfter(s, s1, source);
    hide Wake.WokenBy;
    assert s1.executors - {x} == s.executors - {x};
  }

  lemma ParkWatched(s: Wake.State, t: Tables, run: RunId, x: nat, found: RunStatus, status: RunStatus)
    requires Watches(s, t, run) && status != Pending
    ensures Watches(s.(queued := found == Pending, executors := s.executors - {x}),
              Engine.ParkedTables(t, run, found, status), run)
  {
    hide Engine.ParkedTables;
    Engine.ParkShows(t, run, found, status);
  }

  lemma ReadAfter(s: Wake.State, s': Wake.State, source: Wake.Source)
    requires s'.log == s.log && s'.timers == s.timers
    ensures Wake.WokenBy(s', source) == Wake.WokenBy(s, source)
  {
  }

  // ----- the wakers -----

  function WakerSteps(w: nat, job: Wake.Job, e: Event): seq<Wake.Step> {
    [Wake.Pick(w, job), Wake.Check(w), Wake.Trace(w, e), Wake.Upsert(w), Wake.Finish(w)]
  }

  /** What a waker leaves. */
  function Woken(s: Wake.State, job: Wake.Job, log: Log): Wake.State {
    s.(log := log, queued := true, timers := if job.Fire? then s.timers - {job.timer} else s.timers)
  }

  /** The machine's waker that meets nobody: its event, if it still needs one, and the queue row; its
      timer goes last. */
  lemma WakerRuns(s: Wake.State, w: nat, job: Wake.Job, e: Event)
    requires w !in s.wakers && Wake.CanPick(s, job) && (Wake.AlreadySettled(s.log, job) ==> job.Fire?)
    requires Wake.IsTrace(job, e) && (job.Fire? ==> !Wake.SettlesSource(s.log, e))
    ensures var steps := WakerSteps(w, job, e);
            var log := if Wake.AlreadySettled(s.log, job) || (job.Fire? && job.retry) then s.log else s.log + [e];
      && Wake.Runs(s, steps)
      && Wake.After(s, steps) == Woken(s, job, log)
  {
    var steps := WakerSteps(w, job, e);
    var settled := Wake.AlreadySettled(s.log, job);
    var log := if settled || (job.Fire? && job.retry) then s.log else s.log + [e];
    WakerTraces(s, w, job, e);
    Enqueues(s.(log := log), w, job);
    hide Leads, Wake.Enabled, Wake.Do, Waking, Wake.IsTrace, Wake.AlreadySettled, Wake.SettlesSource, Wake.CanPick;
    GoesOn(s, steps[..3], Waking(s.(log := log), w, job, Wake.Traced), steps[3], steps[..4]);
    GoesOn(s, steps[..4], Waking(s.(log := log, queued := true), w, job, Wake.Upserted), steps[4], steps);
    Arrives(s, steps, Woken(s, job, log));
  }

  lemma WakerTraces(s: Wake.State, w: nat, job: Wake.Job, e: Event)
    requires w !in s.wakers && Wake.CanPick(s, job) && (Wake.AlreadySettled(s.log, job) ==> job.Fire?)
    requires Wake.IsTrace(job, e) && (job.Fire? ==> !Wake.SettlesSource(s.log, e))
    ensures var log := if Wake.AlreadySettled(s.log, job) || (job.Fire? && job.retry) then s.log else s.log + [e];
            Leads(s, WakerSteps(w, job, e)[..3], Waking(s.(log := log), w, job, Wake.Traced))
  {
    var steps := WakerSteps(w, job, e);
    var settled := Wake.AlreadySettled(s.log, job);
    Looks(s, w, job);
    Leaves(s, w, job, settled, e);
    hide Leads, Wake.Enabled, Wake.Do, Waking, Wake.IsTrace, Wake.AlreadySettled, Wake.SettlesSource, Wake.CanPick;
    Starts(s);
    GoesOn(s, [], s, steps[0], steps[..1]);
    GoesOn(s, steps[..1], Waking(s, w, job, Wake.Chosen), steps[1], steps[..2]);
    GoesOn(s, steps[..2], Waking(s, w, job, Wake.Checked(settled)), steps[2], steps[..3]);
  }

  function Waking(s: Wake.State, w: nat, job: Wake.Job, stage: Wake.Stage): Wake.State {
    s.(wakers := s.wakers[w := Wake.Waker(job, stage)])
  }

  lemma Looks(s: Wake.State, w: nat, job: Wake.Job)
    requires w !in s.wakers && Wake.CanPick(s, job) && (Wake.AlreadySettled(s.log, job) ==> job.Fire?)
    ensures Wake.Enabled(s, Wake.Pick(w, job)) && Wake.Do(s, Wake.Pick(w, job)) == Waking(s, w, job, Wake.Chosen)
    ensures var s' := Waking(s, w, job, Wake.Chosen);
      && Wake.Enabled(s', Wake.Check(w))
      && Wake.Do(s', Wake.Check(w)) == Waking(s, w, job, Wake.Checked(Wake.AlreadySettled(s.log, job)))
  {
    hide Wake.AlreadySettled, Wake.CanPick;
  }

  lemma Leaves(s: Wake.State, w: nat, job: Wake.Job, settled: bool, e: Event)
    requires Wake.IsTrace(job, e) && (job.Fire? ==> !Wake.SettlesSource(s.log, e))
    ensures var s' := Waking(s, w, job, Wake.Checked(settled));
            var log := if settled || (job.Fire? && job.retry) then s.log else s.log + [e];
      && Wake.Enabled(s', Wake.Trace(w, e))
      && Wake.Do(s', Wake.Trace(w, e)) == Waking(s.(log := log), w, job, Wake.Traced)
  {
    hide Wake.IsTrace, Wake.SettlesSource;
  }

  lemma Enqueues(s: Wake.State, w: nat, job: Wake.Job)
    requires w !in s.wakers
    ensures var s' := Waking(s, w, job, Wake.Traced);
      && Wake.Enabled(s', Wake.Upsert(w))
      && Wake.Do(s', Wake.Upsert(w)) == Waking(s.(queued := true), w, job, Wake.Upserted)
    ensures var s' := Waking(s.(queued := true), w, job, Wake.Upserted);
      && Wake.Enabled(s', Wake.Finish(w))
      && Wake.Do(s', Wake.Finish(w)) ==
         Woken(s, job, s.log)
  {
    assert Waking(s.(queued := true), w, job, Wake.Upserted).wakers - {w} == s.wakers;
  }

  /** A resolution of a gate, as its contract describes it, is such a waker. */
  lemma ResolutionRuns(s: Wake.State, w: nat, t: Tables, t': Tables, run: RunId, key: Key, gateKey: string,
      decision: Decision, actor: string)
    requires Watches(s, t, run) && w !in s.wakers && IsOpened(s.log, key) && !IsResolved(s.log, key)
    requires Timers.IsAnswered(t, t', run, key, gateKey, decision, actor)
    ensures var steps := WakerSteps(w, Wake.Resolve(key), GateResolved(key, gateKey, decision, actor));
            Wake.Runs(s, steps) && Watches(Wake.After(s, steps), t', run)
  {
    hide IsOpened, IsResolved, Decisions, Wake.Runs, Wake.After;
    WakerRuns(s, w, Wake.Resolve(key), GateResolved(key, gateKey, decision, actor));
  }

  /** So is a child-side settle, for the parent it tells. */
  lemma SettleRuns(s: Wake.State, w: nat, t: Tables, t': Tables, parent: RunId, key: Key)
    requires Watches(s, t, parent) && w !in s.wakers && Settle.Waiting(t, parent, key)
    requires Settle.Told(t, t', parent, key)
    ensures var steps := WakerSteps(w, Wake.Settle(key), Last(t'.LogOf(parent)));
            Wake.Runs(s, steps) && Watches(Wake.After(s, steps), t', parent)
  {
    hide IsCompleted, IsFailed, Wake.Runs, Wake.After, Settle.ReadChildResult, Tables.LogOf;
    var log' := t'.LogOf(parent);
    assert log' == t.LogOf(parent) + [Last(log')];
    WakerRuns(s, w, Wake.Settle(key), Last(log'));
  }

  /** And the firing of a sleep, which enqueues the run even if the step has completed. */
  lemma SleepRuns(s: Wake.State, w: nat, t: Tables, t': Tables, run: RunId, key: Key, id: nat)
    requires Watches(s, t, run) && w !in s.wakers
    requires id in t.timers && t.timers[id] == TimerRow(run, key, SleepTimer) && !IsStarted(s.log, key, Child)
    requires t'.LogOf(run) == s.log + if IsCompleted(s.log, key) then [] else [StepCompleted(key, Durable.SLEPT)]
    requires t'.timers == t.timers - {id} && run in t'.queue
    ensures var steps := WakerSteps(w, Wake.Fire(id, key, false), StepCompleted(key, Durable.SLEPT));
            Wake.Runs(s, steps) && Watches(Wake.After(s, steps), t', run)
  {
    hide IsCompleted, IsFailed, Wake.Runs, Wake.After, Tables.LogOf;
    WakerRuns(s, w, Wake.Fire(id, key, false), StepCompleted(key, Durable.SLEPT));
  }

  /** And that of a retry. */
  lemma RetryRuns(s: Wake.State, w: nat, t: Tables, t': Tables, run: RunId, key: Key, id: nat)
    requires Watches(s, t, run) && w !in s.wakers && !IsStarted(s.log, key, Child)
    requires id in t.timers && t.timers[id] == TimerRow(run, key, RetryTimer)
    requires t'.LogOf(run) == s.log && t'.timers == t.timers - {id} && run in t'.queue
    ensures var steps := WakerSteps(w, Wake.Fire(id, key, true), StepCompleted(key, Durable.SLEPT));
            Wake.Runs(s, steps) && Watches(Wake.After(s, steps), t', run)
  {
    hide IsCompleted, IsFailed, Wake.Runs, Wake.After, Tables.LogOf;
    WakerRuns(s, w, Wake.Fire(id, key, true), StepCompleted(key, Durable.SLEPT));
  }

  /** So a park keeps an unfinished run awake: what the engine leaves in the tables is enqueued, or
      has a live source, or somebody else still owes it an enqueue. */
  lemma ParkKeepsAwake(s: Wake.State, x: nat, t: Tables, run: RunId, key: Key, wake: LiveSteps.Wake, status: RunStatus)
    requires Wake.Inv(s) && !HasEnded(s.log) && !wake.OnRetry?
    requires Watches(s, t, run) && Wake.At(s, x, Wake.Parked(SourceOf(wake, key))) && status != Pending
    ensures var found := Engine.Found(t, run, key, wake, status); var steps := ParkSteps(x, found == Pending);
      && Wake.Runs(s, steps) && Wake.Awake(Wake.After(s, steps))
      && Watches(Wake.After(s, steps), Engine.ParkedTables(t, run, found, status), run)
  {
    hide Engine.Found, Wake.WokenBy, Watches, Wake.Awake, Wake.Sound, Engine.ParkedTables;
    var found := Engine.Found(t, run, key, wake, status);
    var steps := ParkSteps(x, found == Pending);
    ParkRuns(s, x, t, run, key, wake, status);
    NoWindowHere(s, x, SourceOf(wake, key), found == Pending);
    WakeSafety.NoEatenWake(s, steps);
  }

  lemma NoWindowHere(s: Wake.State, x: nat, source: Wake.Source, woken: bool)
    requires Wake.At(s, x, Wake.Parked(source)) && !source.RetryOn? && Wake.Runs(s, ParkSteps(x, woken))
    ensures WakeSafety.NoWindow(s, ParkSteps(x, woken)) && Wake.After(s, ParkSteps(x, woken)).log == s.log
  {
    hide Wake.WokenBy, Overruled;
    var steps := ParkSteps(x, woken);
    var s1 := Wake.Do(s, steps[0]);
    var rest := steps[1..];
    assert rest[0] == Wake.Reconcile(x) && Wake.Runs(s1, rest);
    var s2 := Wake.Do(s1, rest[0]);
    var last := rest[1..];
    assert Wake.Runs(s2, last);
    if woken {
      var s3 := Wake.Do(s2, last[0]);
      assert last[0] == Wake.Requeue(x) && last[1..] == [];
      assert WakeSafety.NoWindow(s3, last[1..]) && Wake.After(s3, last[1..]) == s3;
      assert WakeSafety.NoWindow(s2, last);
      assert Wake.After(s2, last) == s3;
    } else {
      assert last == [];
    }
    assert WakeSafety.NoWindow(s1, rest) && Wake.After(s1, rest).log == s.log;
  }

  ghost predicate Leads(s: Wake.State, steps: seq<Wake.Step>, s': Wake.State) {
    Wake.Runs(s, steps) && Wake.After(s, steps) == s'
  }

  lemma Arrives(s: Wake.State, steps: seq<Wake.Step>, s': Wake.State)
    requires Leads(s, steps, s')
    ensures Wake.Runs(s, steps) && Wake.After(s, steps) == s'
  {
  }

  lemma Starts(s: Wake.State)
    ensures Leads(s, [], s)
  {
  }

  lemma GoesOn(s: Wake.State, steps: seq<Wake.Step>, at: Wake.State, step: Wake.Step, more: seq<Wake.Step>)
    requires Leads(s, steps, at) && Wake.Enabled(at, step) && more == steps + [step]
    ensures Leads(s, more, Wake.Do(at, step))
  {
    WakeRetry.RunsOn(s, steps, step);
  }
}
