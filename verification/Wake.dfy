/** Suspending executors against wakers, commit by commit, for one run: no wake is eaten.
    Any number of executors, schedulers, gate resolvers, child settlers and cancellations
    interleave. */
module Wake {
  import opened Keys
  import opened Events

  /** What a suspended executor waits for. */
  datatype Source = SleepOn(key: Key) | GateOn(key: Key) | ChildOn(key: Key) | RetryOn(key: Key)

  datatype Phase =
    | Working
    | Parked(source: Source)       // the wake source is committed; the queue row is not deleted yet
    | Deleted(source: Source)      // the queue row is deleted; the log is not read again yet
    | Requeueing                   // a wake was found; the upsert is due

  /** `owes` marks an executor that may not vanish while the run has no queue row: it has deleted
      the row, or settled a wake source itself, and has not yet reconciled. */
  datatype Executor = Executor(phase: Phase, owes: bool)

  datatype Timer = Timer(key: Key, retry: bool)

  datatype Job = Fire(timer: nat, key: Key, retry: bool) | Resolve(key: Key) | Settle(key: Key)

  datatype Stage =
    | Chosen
    | Checked(settled: bool)       // what its read of the log found
    | Traced                       // its event is in the log
    | Upserted                     // the queue row is written

  datatype Waker = Waker(job: Job, stage: Stage)

  datatype State = State(
    log: Log, queued: bool, timers: map<nat, Timer>,
    executors: map<nat, Executor>, wakers: map<nat, Waker>)

  datatype Step =
    | Start(x: nat)
    | Work(x: nat, event: Event)
    | SettleInline(x: nat, event: Event)
    | Park(x: nat, source: Source, timer: nat)
    | Delete(x: nat) | Reconcile(x: nat) | Requeue(x: nat)
    | Leave(x: nat)
    | Crash(x: nat)
    | Pick(w: nat, job: Job)
    | Check(w: nat) | Trace(w: nat, event: Event) | Upsert(w: nat) | Finish(w: nat)
    | WakerCrash(w: nat)
    | CancelRun(event: Event) | CleanUp             // a cancelled run loses its timers
    | DropRow | Resume                              // an ended run loses its queue row; somebody enqueues it again

  // ----- sources and their traces -----

  predicate Settled(log: Log, key: Key) {
    IsCompleted(log, key) || IsFailed(log, key)
  }

  /** The durable trace a wake leaves, as the reconciling read looks for it. */
  predicate WokenBy(s: State, source: Source) {
    match source
    case SleepOn(key) => IsCompleted(s.log, key)
    case GateOn(key) => IsResolved(s.log, key)
    case ChildOn(key) => Settled(s.log, key)
    case RetryOn(key) => !exists t | t in s.timers :: s.timers[t] == Timer(key, true)
  }

  predicate HasTimer(s: State, key: Key, retry: bool) {
    exists t | t in s.timers :: s.timers[t] == Timer(key, retry)
  }

  /** `e` settles a gate or a child the run is waiting for. */
  predicate SettlesSource(log: Log, e: Event) {
    e.GateResolved? || ((e.StepCompleted? || e.StepFailed?) && IsStarted(log, e.stepKey, Child))
  }

  /** The event a waker commits as its trace. */
  predicate IsTrace(job: Job, e: Event) {
    match job
    case Fire(_, key, _) => e == StepCompleted(key, "{\"slept\": true}")
    case Resolve(key) => e.GateResolved? && e.stepKey == key
    case Settle(key) => (e.StepCompleted? || e.StepFailed?) && e.stepKey == key
  }

  /** Retry timers commit no event, and a sleep that is completed none again. */
  predicate NeedsEvent(w: Waker)
    requires w.stage.Checked?
  {
    !w.stage.settled && !(w.job.Fire? && w.job.retry)
  }

  predicate AlreadySettled(log: Log, job: Job) {
    match job
    case Fire(_, key, _) => IsCompleted(log, key)
    case Resolve(key) => IsResolved(log, key)
    case Settle(key) => Settled(log, key)
  }

  // ----- the steps -----

  predicate At(s: State, x: nat, phase: Phase) {
    x in s.executors && s.executors[x].phase == phase
  }

  predicate AtStage(s: State, w: nat, stage: Stage) {
    w in s.wakers && s.wakers[w].stage == stage
  }

  /** Timer ids are never reused. */
  predicate NewTimer(s: State, t: nat) {
    t !in s.timers && forall w | w in s.wakers :: s.wakers[w].job.Fire? ==> s.wakers[w].job.timer != t
  }

  predicate CanPark(s: State, x: nat, source: Source, timer: nat) {
    && At(s, x, Working)
    && match source
       case SleepOn(key) => HasTimer(s, key, false) || NewTimer(s, timer)
       case RetryOn(_) => NewTimer(s, timer)
       case GateOn(key) => IsOpened(s.log, key)
       case ChildOn(key) => IsStarted(s.log, key, Child)
  }

  predicate CanPick(s: State, job: Job) {
    match job
    case Fire(t, key, retry) => t in s.timers && s.timers[t] == Timer(key, retry)
    case Resolve(key) => IsOpened(s.log, key) && !IsResolved(s.log, key)
    case Settle(key) => IsStarted(s.log, key, Child)
  }

  predicate Enabled(s: State, step: Step) {
    match step
    case Start(x) => x !in s.executors
    case Work(x, e) => At(s, x, Working) && !SettlesSource(s.log, e)
    case SettleInline(x, e) => At(s, x, Working) && SettlesSource(s.log, e)
    case Park(x, source, timer) => CanPark(s, x, source, timer)
    case Delete(x) => x in s.executors && s.executors[x].phase.Parked?
    case Reconcile(x) => x in s.executors && s.executors[x].phase.Deleted?
    case Requeue(x) => At(s, x, Requeueing)
    case Leave(x) => x in s.executors && HasEnded(s.log)
    case Crash(x) => x in s.executors && (!s.executors[x].owes || s.queued)
    case Pick(w, job) => w !in s.wakers && CanPick(s, job)
    case Check(w) => AtStage(s, w, Chosen)
    case Trace(w, e) =>
      && w in s.wakers && s.wakers[w].stage.Checked?
      && (NeedsEvent(s.wakers[w]) ==> IsTrace(s.wakers[w].job, e))
      // a key is asked for as one kind of step: Program.AsksOnce
      && (s.wakers[w].job.Fire? ==> !SettlesSource(s.log, e))
    case Upsert(w) => AtStage(s, w, Traced)
    case Finish(w) => AtStage(s, w, Upserted)
    case WakerCrash(w) => w in s.wakers && (s.wakers[w].job.Fire? || !s.wakers[w].stage.Traced? || s.queued)
    case Resume => HasEnded(s.log)
    case CancelRun(e) => e.RunCancelled? || e.RunFailed?
    case CleanUp => WasCancelled(s.log)
    case DropRow => HasEnded(s.log)
  }

  function Go(s: State, x: nat, phase: Phase, owes: bool): State {
    s.(executors := s.executors[x := Executor(phase, owes)])
  }

  function Gone(s: State, x: nat): State {
    s.(executors := s.executors - {x})
  }

  function Owes(s: State, x: nat): bool {
    x in s.executors && s.executors[x].owes
  }

  function Move(s: State, w: nat, stage: Stage): State
    requires w in s.wakers
  {
    s.(wakers := s.wakers[w := s.wakers[w].(stage := stage)])
  }

  function DoPark(s: State, x: nat, source: Source, timer: nat): State
    requires CanPark(s, x, source, timer)
  {
    var parked := Go(s, x, Parked(source), Owes(s, x));
    match source
    case SleepOn(key) => if HasTimer(s, key, false) then parked
        else parked.(timers := s.timers[timer := Timer(key, false)])
    case RetryOn(key) => parked.(timers := s.timers[timer := Timer(key, true)])
    case _ => parked
  }

  function DoReconcile(s: State, x: nat): State
    requires x in s.executors && s.executors[x].phase.Deleted?
  {
    if Overruled(s.log) || !WokenBy(s, s.executors[x].phase.source) then Gone(s, x)
    else Go(s, x, Requeueing, true)
  }

  /** A gate resolver or child settler that finds the source settled stops; a timer that finds
      its sleep completed still re-enqueues. */
  function DoCheck(s: State, w: nat): State
    requires AtStage(s, w, Chosen)
  {
    var settled := AlreadySettled(s.log, s.wakers[w].job);
    if settled && !s.wakers[w].job.Fire? then s.(wakers := s.wakers - {w}) else Move(s, w, Checked(settled))
  }

  function DoTrace(s: State, w: nat, e: Event): State
    requires w in s.wakers && s.wakers[w].stage.Checked?
  {
    if NeedsEvent(s.wakers[w]) then Move(s, w, Traced).(log := s.log + [e]) else Move(s, w, Traced)
  }

  function DoFinish(s: State, w: nat): State
    requires w in s.wakers
  {
    var left := s.(wakers := s.wakers - {w});
    match s.wakers[w].job
    case Fire(t, _, _) => left.(timers := s.timers - {t})
    case _ => left
  }

  function Do(s: State, step: Step): State
    requires Enabled(s, step)
  {
    match step
    case Start(x) => Go(s, x, Working, false)
    case Work(x, e) => s.(log := s.log + [e])
    case SettleInline(x, e) => Go(s, x, Working, true).(log := s.log + [e])
    case Park(x, source, timer) => DoPark(s, x, source, timer)
    case Delete(x) => Go(s, x, Deleted(s.executors[x].phase.source), true).(queued := false)
    case Reconcile(x) => DoReconcile(s, x)
    case Requeue(x) => Gone(s, x).(queued := true)
    case Leave(x) => Gone(s, x).(queued := false)
    case Crash(x) => Gone(s, x)
    case Pick(w, job) => s.(wakers := s.wakers[w := Waker(job, Chosen)])
    case Check(w) => DoCheck(s, w)
    case Trace(w, e) => DoTrace(s, w, e)
    case Upsert(w) => Move(s, w, Upserted).(queued := true)
    case Finish(w) => DoFinish(s, w)
    case WakerCrash(w) => s.(wakers := s.wakers - {w})
    case CancelRun(e) => s.(log := s.log + [e])
    case CleanUp => s.(timers := map[])
    case DropRow => s.(queued := false)
    case Resume => s.(queued := true)
  }

  ghost predicate Runs(s: State, steps: seq<Step>)
    decreases |steps|
  {
    steps == [] || (Enabled(s, steps[0]) && Runs(Do(s, steps[0]), steps[1..]))
  }

  function After(s: State, steps: seq<Step>): State
    requires Runs(s, steps)
    decreases |steps|
  {
    if steps == [] then s else After(Do(s, steps[0]), steps[1..])
  }

  /** A fresh run: enqueued, nobody at work. */
  function Fresh(started: Event): State {
    State([started], true, map[], map[], map[])
  }

  // ----- no wake is eaten -----

  /** Some firing has written the queue row for timer `t` and is about to delete it. */
  ghost predicate Spent(s: State, t: nat) {
    exists w :: w in s.wakers && s.wakers[w].stage.Upserted? && s.wakers[w].job.Fire? && s.wakers[w].job.timer == t
  }

  ghost predicate LiveTimer(s: State) {
    exists t :: t in s.timers && !Spent(s, t)
  }

  ghost predicate LiveGate(s: State) {
    exists key :: IsOpened(s.log, key) && !IsResolved(s.log, key)
  }

  ghost predicate LiveChild(s: State) {
    exists key :: IsStarted(s.log, key, Child) && !Settled(s.log, key)
  }

  /** A waker whose trace is committed and whose upsert is due; unlike a scheduler, nothing
      would retry it. */
  ghost predicate WakerDue(s: State) {
    exists w :: w in s.wakers && s.wakers[w].stage.Traced? && !s.wakers[w].job.Fire?
  }

  ghost predicate ExecutorDue(s: State) {
    exists x :: x in s.executors && s.executors[x].owes
  }

  /** The run cannot be stranded. */
  ghost predicate Awake(s: State) {
    s.queued || LiveTimer(s) || LiveGate(s) || LiveChild(s) || WakerDue(s) || ExecutorDue(s)
  }

  /** A suspended executor's wake source is committed: live, or already traced. */
  ghost predicate SourceCommitted(s: State, source: Source) {
    match source
    case SleepOn(key) => HasTimer(s, key, false) || IsCompleted(s.log, key)
    case GateOn(key) => IsOpened(s.log, key)
    case ChildOn(key) => IsStarted(s.log, key, Child)
    case RetryOn(_) => true
  }

  ghost predicate ExecutorSound(s: State, x: Executor) {
    match x.phase
    case Parked(source) => SourceCommitted(s, source)
    case Deleted(source) => SourceCommitted(s, source) && x.owes
    case Requeueing => x.owes
    case Working => true
  }

  /** A sleep firing has its trace in the log before it upserts. */
  ghost predicate WakerSound(s: State, w: Waker) {
    match w.job
    case Fire(t, key, retry) =>
      && (t in s.timers ==> s.timers[t] == Timer(key, retry))
      && (!retry && (w.stage.Traced? || w.stage.Upserted? || (w.stage.Checked? && w.stage.settled)) ==>
          IsCompleted(s.log, key))
    case _ => w.stage.Checked? ==> !w.stage.settled
  }

  ghost predicate Sound(s: State) {
    && (forall x :: x in s.executors ==> ExecutorSound(s, s.executors[x]))
    && (forall w :: w in s.wakers ==> WakerSound(s, s.wakers[w]))
  }

  ghost predicate Inv(s: State) {
    HasEnded(s.log) || (Awake(s) && Sound(s))
  }

  // ----- every step keeps it -----

  /** The one unsafe step: a retry suspend reads its timer as pending when every firing that
      would wake it has upserted already, and only has the timer left to delete. */
  ghost predicate InWindow(s: State, step: Step) {
    && step.Reconcile? && step.x in s.executors && s.executors[step.x].phase.Deleted?
    && s.executors[step.x].phase.source.RetryOn? && !HasEnded(s.log)
    && var key := s.executors[step.x].phase.source.key;
      && HasTimer(s, key, true)
      && forall t :: t in s.timers && s.timers[t] == Timer(key, true) ==> Spent(s, t)
  }

  lemma Appended(log: Log, e: Event)
    ensures forall x :: x in log + [e] <==> x in log || x == e
    ensures HasEnded(log + [e]) <==> HasEnded(log) || e.EndsRun()
    ensures WasCancelled(log + [e]) <==> WasCancelled(log) || e.RunCancelled?
    ensures forall k :: IsCompleted(log + [e], k) <==> IsCompleted(log, k) || (e.StepCompleted? && e.stepKey == k)
    ensures forall k :: IsFailed(log + [e], k) <==> IsFailed(log, k) || (e.StepFailed? && e.stepKey == k)
    ensures forall k :: IsOpened(log + [e], k) <==> IsOpened(log, k) || (e.GateOpened? && e.stepKey == k)
    ensures forall k :: IsResolved(log + [e], k) <==> IsResolved(log, k) || (e.GateResolved? && e.stepKey == k)
    ensures forall k, kind :: IsStarted(log + [e], k, kind) <==> IsStarted(log, k, kind) || e == StepStarted(k, kind)
  {
  }
}
