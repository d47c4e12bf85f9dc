/** Every step of the wake protocol keeps the run awake, but for one window of retry wakes. */
module WakeSafety {
  import opened Keys
  import opened Events
  import opened Wake

  // ----- frames -----

  /** A source stays committed while timers only come, or go after their trace. */
  lemma CommittedKept(s: State, s': State, source: Source)
    requires SourceCommitted(s, source)
    requires forall e :: e in s.log ==> e in s'.log
    requires forall key :: HasTimer(s, key, false) ==> HasTimer(s', key, false) || IsCompleted(s'.log, key)
    ensures SourceCommitted(s', source)
  {
  }

  /** Executors and wakers stay sound under a longer log and more timers. */
  lemma SoundKept(s: State, s': State)
    requires Sound(s)
    requires forall e :: e in s.log ==> e in s'.log
    requires forall key :: HasTimer(s, key, false) ==> HasTimer(s', key, false) || IsCompleted(s'.log, key)
    requires forall x :: x in s'.executors ==>
               (x in s.executors && s'.executors[x] == s.executors[x]) || ExecutorSound(s', s'.executors[x])
    requires forall w :: w in s'.wakers ==>
               (w in s.wakers && s'.wakers[w] == s.wakers[w]) || WakerSound(s', s'.wakers[w])
    requires forall t, w :: t in s'.timers && w in s.wakers && s.wakers[w].job.Fire? && s.wakers[w].job.timer == t ==>
               t in s.timers && s'.timers[t] == s.timers[t]
    ensures Sound(s')
  {
    forall x | x in s'.executors ensures ExecutorSound(s', s'.executors[x]) {
      if x in s.executors && s'.executors[x] == s.executors[x] {
        ExecutorKept(s, s', s.executors[x]);
      }
    }
    forall w | w in s'.wakers ensures WakerSound(s', s'.wakers[w]) {
      if w in s.wakers && s'.wakers[w] == s.wakers[w] {
        WakerKept(s, s', s.wakers[w]);
      }
    }
  }

  lemma ExecutorKept(s: State, s': State, x: Executor)
    requires ExecutorSound(s, x)
    requires forall e :: e in s.log ==> e in s'.log
    requires forall key :: HasTimer(s, key, false) ==> HasTimer(s', key, false) || IsCompleted(s'.log, key)
    ensures ExecutorSound(s', x)
  {
    match x.phase
    case Parked(source) => CommittedKept(s, s', source);
    case Deleted(source) => CommittedKept(s, s', source);
    case _ =>
  }

  lemma WakerKept(s: State, s': State, w: Waker)
    requires WakerSound(s, w)
    requires forall e :: e in s.log ==> e in s'.log
    requires w.job.Fire? && w.job.timer in s'.timers ==>
               w.job.timer in s.timers && s'.timers[w.job.timer] == s.timers[w.job.timer]
    ensures WakerSound(s', w)
  {
  }

  // ----- executors -----

  /** Everybody stays sound, and the run awake. */
  ghost predicate Kept(s: State, s': State) {
    Sound(s') && (Awake(s) ==> Awake(s'))
  }

  lemma StartSafe(s: State, x: nat)
    requires Sound(s) && x !in s.executors
    ensures Kept(s, Go(s, x, Working, false))
  {
    var s' := Go(s, x, Working, false);
    SoundKept(s, s');
    AwakeKept(s, s');
  }

  /** What keeps the run awake is still there. */
  lemma AwakeKept(s: State, s': State)
    requires s.queued ==> s'.queued
    requires forall t :: t in s.timers && !Spent(s, t) ==> t in s'.timers && !Spent(s', t)
    requires forall key :: IsOpened(s.log, key) && !IsResolved(s.log, key) ==>
               IsOpened(s'.log, key) && !IsResolved(s'.log, key)
    requires forall key :: IsStarted(s.log, key, Child) && !Settled(s.log, key) ==>
               IsStarted(s'.log, key, Child) && !Settled(s'.log, key)
    requires forall w :: w in s.wakers && s.wakers[w].stage.Traced? && !s.wakers[w].job.Fire? ==>
               s'.queued || (w in s'.wakers && s'.wakers[w] == s.wakers[w])
    requires forall x :: x in s.executors && s.executors[x].owes ==>
               s'.queued || (x in s'.executors && s'.executors[x].owes)
    ensures Awake(s) ==> Awake(s')
  {
  }

  lemma WorkSafe(s: State, x: nat, e: Event)
    requires Sound(s) && At(s, x, Working) && !SettlesSource(s.log, e)
    ensures Kept(s, s.(log := s.log + [e]))
  {
    var s' := s.(log := s.log + [e]);
    Appended(s.log, e);
    SameTimers(s, s');
    SoundKept(s, s');
    AwakeKept(s, s');
  }

  lemma SameTimers(s: State, s': State)
    requires s'.timers == s.timers && s'.wakers == s.wakers
    ensures forall key, retry :: HasTimer(s, key, retry) <==> HasTimer(s', key, retry)
    ensures forall t :: Spent(s, t) <==> Spent(s', t)
  {
  }

  /** The same firings are about to delete the same timers. */
  lemma SameSpent(s: State, s': State)
    requires forall w :: w in s.wakers && s.wakers[w].stage.Upserted? ==> w in s'.wakers && s'.wakers[w] == s.wakers[w]
    requires forall w :: w in s'.wakers && s'.wakers[w].stage.Upserted? ==> w in s.wakers && s'.wakers[w] == s.wakers[w]
    ensures forall t :: Spent(s, t) <==> Spent(s', t)
  {
    forall t ensures Spent(s, t) <==> Spent(s', t) {
      if Spent(s, t) {
        var w :| w in s.wakers && s.wakers[w].stage.Upserted? && s.wakers[w].job.Fire? && s.wakers[w].job.timer == t;
        assert s'.wakers[w].stage.Upserted?;
      }
      if Spent(s', t) {
        var w :| w in s'.wakers && s'.wakers[w].stage.Upserted? && s'.wakers[w].job.Fire?
            && s'.wakers[w].job.timer == t;
        assert s.wakers[w].stage.Upserted?;
      }
    }
  }

  lemma SettleInlineSafe(s: State, x: nat, e: Event)
    requires Sound(s) && At(s, x, Working)
    ensures Kept(s, Go(s, x, Working, true).(log := s.log + [e]))
  {
    var s' := Go(s, x, Working, true).(log := s.log + [e]);
    Appended(s.log, e);
    SameTimers(s, s');
    SoundKept(s, s');
    assert s'.executors[x].owes;
  }

  lemma ParkSafe(s: State, x: nat, source: Source, timer: nat)
    requires Sound(s) && CanPark(s, x, source, timer)
    ensures Kept(s, DoPark(s, x, source, timer))
  {
    var s' := DoPark(s, x, source, timer);
    assert forall t :: t in s.timers ==> t in s'.timers && s'.timers[t] == s.timers[t];
    if source.SleepOn? && !HasTimer(s, source.key, false) {
      assert s'.timers[timer] == Timer(source.key, false);
      assert HasTimer(s', source.key, false);
    }
    assert SourceCommitted(s', source);
    SameSpent(s, s');
    SoundKept(s, s');
    AwakeKept(s, s');
  }

  lemma DeleteSafe(s: State, x: nat)
    requires Sound(s) && x in s.executors && s.executors[x].phase.Parked?
    ensures Kept(s, Go(s, x, Deleted(s.executors[x].phase.source), true).(queued := false))
  {
    var s' := Go(s, x, Deleted(s.executors[x].phase.source), true).(queued := false);
    SameTimers(s, s');
    CommittedKept(s, s', s.executors[x].phase.source);
    SoundKept(s, s');
    assert s'.executors[x].owes;
  }

  /** An executor that finds no wake leaves its wake source live behind it. */
  lemma SourceLive(s: State, x: nat)
    requires Sound(s) && !HasEnded(s.log) && x in s.executors && s.executors[x].phase.Deleted?
    requires !WokenBy(s, s.executors[x].phase.source) && !InWindow(s, Reconcile(x))
    ensures LiveTimer(s) || LiveGate(s) || LiveChild(s)
  {
    assert ExecutorSound(s, s.executors[x]);
    match s.executors[x].phase.source
    case SleepOn(key) =>
      var t :| t in s.timers && s.timers[t] == Timer(key, false);
      SleepNotSpent(s, t, key);
    case GateOn(key) =>
    case ChildOn(key) =>
    case RetryOn(key) =>
      var t :| t in s.timers && s.timers[t] == Timer(key, true) && !Spent(s, t);
  }

  /** No firing upserts for a sleep whose completion is not in the log. */
  lemma SleepNotSpent(s: State, t: nat, key: Key)
    requires Sound(s) && t in s.timers && s.timers[t] == Timer(key, false) && !IsCompleted(s.log, key)
    ensures !Spent(s, t)
  {
    forall w | w in s.wakers && s.wakers[w].stage.Upserted? && s.wakers[w].job.Fire?
      ensures s.wakers[w].job.timer != t
    {
      assert WakerSound(s, s.wakers[w]);
    }
  }

  lemma ReconcileSafe(s: State, x: nat)
    requires Sound(s) && x in s.executors && s.executors[x].phase.Deleted?
    ensures Sound(DoReconcile(s, x))
    ensures !HasEnded(s.log) && !InWindow(s, Reconcile(x)) ==> Awake(DoReconcile(s, x))
  {
    var s' := DoReconcile(s, x);
    SameTimers(s, s');
    SoundKept(s, s');
    if !HasEnded(s.log) && !InWindow(s, Reconcile(x)) {
      if WokenBy(s, s.executors[x].phase.source) {
        NotOverruled(s.log);
        assert s'.executors[x].owes;
      } else {
        SourceLive(s, x);
        SourcesKept(s, s');
      }
    }
  }

  lemma NotOverruled(log: Log)
    requires !HasEnded(log)
    ensures !Overruled(log) && !WasCancelled(log)
  {
  }

  /** A run that has ended may lose its queue row. */
  lemma DropSafe(s: State, s': State)
    requires Sound(s) && s'.log == s.log && s'.timers == s.timers && s'.wakers == s.wakers
    requires forall x :: x in s'.executors ==> x in s.executors && s'.executors[x] == s.executors[x]
    ensures Sound(s')
  {
    SameTimers(s, s');
    SoundKept(s, s');
  }

  lemma SourcesKept(s: State, s': State)
    requires s'.log == s.log && s'.timers == s.timers && s'.wakers == s.wakers
    ensures LiveTimer(s) ==> LiveTimer(s')
    ensures LiveGate(s) ==> LiveGate(s')
    ensures LiveChild(s) ==> LiveChild(s')
  {
    SameTimers(s, s');
  }

  lemma RequeueSafe(s: State, x: nat)
    requires Sound(s) && At(s, x, Requeueing)
    ensures Kept(s, Gone(s, x).(queued := true))
  {
    var s' := Gone(s, x).(queued := true);
    SameTimers(s, s');
    SoundKept(s, s');
  }

  lemma CrashSafe(s: State, x: nat)
    requires Sound(s) && x in s.executors && (!s.executors[x].owes || s.queued)
    ensures Kept(s, Gone(s, x))
  {
    var s' := Gone(s, x);
    SameTimers(s, s');
    SoundKept(s, s');
    AwakeKept(s, s');
  }

  // ----- wakers -----

  lemma PickSafe(s: State, w: nat, job: Job)
    requires Sound(s) && w !in s.wakers && CanPick(s, job)
    ensures Kept(s, s.(wakers := s.wakers[w := Waker(job, Chosen)]))
  {
    var s' := s.(wakers := s.wakers[w := Waker(job, Chosen)]);
    SameSpent(s, s');
    SoundKept(s, s');
    AwakeKept(s, s');
  }

  lemma CheckSafe(s: State, w: nat)
    requires Sound(s) && AtStage(s, w, Chosen)
    ensures Kept(s, DoCheck(s, w))
  {
    var s' := DoCheck(s, w);
    assert WakerSound(s, s.wakers[w]);
    SameSpent(s, s');
    SoundKept(s, s');
    AwakeKept(s, s');
  }

  lemma TraceSafe(s: State, w: nat, e: Event)
    requires Sound(s) && Enabled(s, Trace(w, e))
    ensures Kept(s, DoTrace(s, w, e))
  {
    var s' := DoTrace(s, w, e);
    Appended(s.log, e);
    assert WakerSound(s, s.wakers[w]);
    SameSpent(s, s');
    SoundKept(s, s');
    if s.wakers[w].job.Fire? {
      FireTraceAwake(s, w, e);
    } else {
      assert s'.wakers[w].stage.Traced?;
    }
  }

  /** A sleep's completion settles no gate and no child: sleeps and children have distinct keys. */
  lemma FireTraceAwake(s: State, w: nat, e: Event)
    requires Enabled(s, Trace(w, e)) && s.wakers[w].job.Fire?
    ensures Awake(s) ==> Awake(DoTrace(s, w, e))
  {
    var s' := DoTrace(s, w, e);
    Appended(s.log, e);
    SameSpent(s, s');
    AwakeKept(s, s');
  }

  lemma UpsertSafe(s: State, w: nat)
    requires Sound(s) && AtStage(s, w, Traced)
    ensures Kept(s, Move(s, w, Upserted).(queued := true))
  {
    var s' := Move(s, w, Upserted).(queued := true);
    assert WakerSound(s, s.wakers[w]);
    SoundKept(s, s');
  }

  lemma FinishSafe(s: State, w: nat)
    requires Sound(s) && AtStage(s, w, Upserted)
    ensures Kept(s, DoFinish(s, w))
  {
    var s' := DoFinish(s, w);
    assert WakerSound(s, s.wakers[w]);
    FinishTimers(s, w);
    SoundKept(s, s');
    AwakeKept(s, s');
  }

  lemma FinishTimers(s: State, w: nat)
    requires Sound(s) && AtStage(s, w, Upserted)
    ensures var s' := DoFinish(s, w);
      && (forall key :: HasTimer(s, key, false) ==> HasTimer(s', key, false) || IsCompleted(s'.log, key))
      && (forall t :: t in s.timers && !Spent(s, t) ==> t in s'.timers && !Spent(s', t))
  {
    var s' := DoFinish(s, w);
    assert WakerSound(s, s.wakers[w]);
    forall key | HasTimer(s, key, false) ensures HasTimer(s', key, false) || IsCompleted(s'.log, key) {
      var t :| t in s.timers && s.timers[t] == Timer(key, false);
      if t in s'.timers {
        assert s'.timers[t] == Timer(key, false);
      }
    }
  }

  lemma WakerCrashSafe(s: State, w: nat)
    requires Sound(s) && Enabled(s, WakerCrash(w))
    ensures Kept(s, s.(wakers := s.wakers - {w}))
  {
    var s' := s.(wakers := s.wakers - {w});
    assert forall t :: Spent(s', t) ==> Spent(s, t);
    SoundKept(s, s');
    AwakeKept(s, s');
  }

  // ----- every step, every run -----

  /** Every step but the clean-up of a cancelled run keeps everybody sound, ended or not; and, while
      the run has not ended and outside the window, the run awake. */
  lemma StepKept(s: State, step: Step)
    requires Sound(s) && Enabled(s, step) && !step.CleanUp?
    ensures Sound(Do(s, step))
    ensures Awake(s) && !HasEnded(Do(s, step).log) && !InWindow(s, step) ==> Awake(Do(s, step))
  {
    hide Sound, Awake, InWindow, SourceCommitted, WakerSound, ExecutorSound, WokenBy;
    LogGrows(s, step);
    match step
    case Start(x) => StartSafe(s, x);
    case Work(x, e) => WorkSafe(s, x, e);
    case SettleInline(x, e) => SettleInlineSafe(s, x, e);
    case Park(x, source, timer) => ParkSafe(s, x, source, timer);
    case Delete(x) => DeleteSafe(s, x);
    case Reconcile(x) => ReconcileSafe(s, x);
    case Requeue(x) => RequeueSafe(s, x);
    case Leave(x) => DropSafe(s, Do(s, step));
    case Crash(x) => CrashSafe(s, x);
    case Pick(w, job) => PickSafe(s, w, job);
    case Check(w) => CheckSafe(s, w);
    case Trace(w, e) => TraceSafe(s, w, e);
    case Upsert(w) => UpsertSafe(s, w);
    case Finish(w) => FinishSafe(s, w);
    case WakerCrash(w) => WakerCrashSafe(s, w);
    case CancelRun(e) => EndSafe(s, e);
    case DropRow => DropSafe(s, Do(s, step));
    case Resume => DropSafe(s, Do(s, step));
  }

  lemma EndSafe(s: State, e: Event)
    requires Sound(s) && (e.RunCancelled? || e.RunFailed?)
    ensures Sound(s.(log := s.log + [e])) && HasEnded(s.log + [e])
  {
    Appended(s.log, e);
    SameTimers(s, s.(log := s.log + [e]));
    SoundKept(s, s.(log := s.log + [e]));
  }

  lemma LogGrows(s: State, step: Step)
    requires Enabled(s, step)
    ensures s.log <= Do(s, step).log
    ensures HasEnded(s.log) ==> HasEnded(Do(s, step).log)
    ensures WasCancelled(s.log) ==> WasCancelled(Do(s, step).log)
  {
    hide Sound, Awake, InWindow, WokenBy, SettlesSource, AlreadySettled, IsTrace;
    var log' := Do(s, step).log;
    assert forall e :: e in s.log ==> e in log';
  }

  lemma StepSafe(s: State, step: Step)
    requires Inv(s) && Enabled(s, step) && !InWindow(s, step)
    ensures Inv(Do(s, step))
  {
    hide Do, Enabled, InWindow, Sound, Awake;
    LogGrows(s, step);
    if !HasEnded(Do(s, step).log) {
      NotOverruled(s.log);
      NotCleaning(s, step);
      StepKept(s, step);
    }
  }

  lemma NotCleaning(s: State, step: Step)
    requires Enabled(s, step) && !WasCancelled(s.log)
    ensures !step.CleanUp?
  {
  }

  /** Whatever has happened to a run that was not cancelled, its executors and wakers are sound. */
  lemma {:induction false} RunsSound(s: State, steps: seq<Step>)
    requires Sound(s) && Runs(s, steps) && !WasCancelled(After(s, steps).log)
    ensures Sound(After(s, steps))
    decreases |steps|
  {
    hide Do, Enabled, Sound, WasCancelled;
    if steps != [] {
      StaysCancelled(Do(s, steps[0]), steps[1..]);
      LogGrows(s, steps[0]);
      NotCleaning(s, steps[0]);
      StepKept(s, steps[0]);
      RunsSound(Do(s, steps[0]), steps[1..]);
    }
  }

  lemma {:induction false} StaysCancelled(s: State, steps: seq<Step>)
    requires Runs(s, steps)
    ensures WasCancelled(s.log) ==> WasCancelled(After(s, steps).log)
    decreases |steps|
  {
    if steps != [] {
      LogGrows(s, steps[0]);
      StaysCancelled(Do(s, steps[0]), steps[1..]);
    }
  }

  /** No step of the run reconciles a retry suspend inside the window. */
  ghost predicate NoWindow(s: State, steps: seq<Step>)
    requires Runs(s, steps)
    decreases |steps|
  {
    steps == [] || (!InWindow(s, steps[0]) && NoWindow(Do(s, steps[0]), steps[1..]))
  }

  /** No eaten wake: in every interleaving, a run without a terminal event has a queue row, a
      live wake source, or an actor that must enqueue it. */
  lemma {:induction false} NoEatenWake(s: State, steps: seq<Step>)
    requires Inv(s) && Runs(s, steps) && NoWindow(s, steps)
    ensures Inv(After(s, steps))
    decreases |steps|
  {
    if steps != [] {
      StepSafe(s, steps[0]);
      NoEatenWake(Do(s, steps[0]), steps[1..]);
    }
  }
}
