/** One live step of a sequential pass: how it can end, what it has then written, and that the run
    stays tidy along the way. */
module LiveSteps {
  import opened Prelude
  import opened Keys
  import opened Events
  import opened Program
  import opened Tables
  import opened Settle
  import opened Frontier
  import opened Commits

  /** What a handler answers. */
  datatype Reply = Answers(value: Value) | Breaks(error: Error, retryable: bool)

  /** Everything a pass cannot see: registered handlers, engine options, and the answers of its
      handler calls, by call number. */
  datatype World = World(
    handlers: set<StepKind>, inProcessBackoff: bool, autoApprove: bool,
    reply: nat -> Reply, artifact: Key -> Uuid, hasTimeout: Key -> bool,
    outputRef: Value -> Option<Uuid>, childName: Key -> string, childVersion: Key -> string, childInput: Key -> Value)

  datatype Wake = OnGate | OnSleep | OnRetry | OnChild

  /** How an await, or the whole body, ends. */
  datatype Signal =
    | Got(values: seq<Value>)
    | Returned(output: Value)
    | Suspends(key: Key, wake: Wake, status: RunStatus)
    | Throws(error: Error)
    | Unavailable(error: Error)
    | Diverged(key: Key)
    | Killed

  predicate WakesOn(wake: Wake, kind: StepKind) {
    match wake
    case OnGate => kind.Gate?
    case OnSleep => kind.Sleep?
    case OnChild => kind.Child?
    case OnRetry => IsHandled(kind)
  }

  function StatusOf(wake: Wake): RunStatus {
    match wake
    case OnGate => WaitingGate
    case OnChild => Running
    case _ => WaitingTimer
  }

  /** A live step went from `t0` to `t`. */
  ghost predicate Stepped(body: Body, run: RunId, t0: Tables, t: Tables, h: History, key: Key, kind: StepKind,
      s: Signal) {
    && Tidy(body, t, run) && Grown(t0, t, run)
    && match s
       case Got(values) => Replays(body, t.LogOf(run), h + [values])
       case Suspends(k, wake, status) => k == key && WakesOn(wake, kind)
           && ParkedAt(body, t, run, h, key, kind, wake, status)
       case Throws(_) => FrontierAt(body, t.LogOf(run), h, key, kind) && IsFailed(t.LogOf(run), key)
       case Unavailable(error) => t == t0 && FrontierAt(body, t.LogOf(run), h, key, kind)
           && error == UnavailableError(kind)
       case Killed => true
       case _ => false
  }

  ghost predicate ParkedAt(body: Body, t: Tables, run: RunId, h: History, key: Key, kind: StepKind, wake: Wake,
      status: RunStatus)
    requires run in t.rows
  {
    && FrontierAt(body, t.LogOf(run), h, key, kind) && status == StatusOf(wake) && RestsAs(t, run, status)
    && (wake.OnRetry? ==> IsTimed(t, run, key, RetryTimer))
  }

  /** A step ended: a hit changes nothing, a miss on a sealed log is refused, and only a miss on
      an open log runs. */
  ghost predicate StepEnded(sealed: bool, body: Body, run: RunId, t0: Tables, t: Tables, h: History, key: Key,
      kind: StepKind, s: Signal) {
    match Recorded(t0.LogOf(run), key, kind)
    case Some(value) => s == Got([value]) && t == t0
    case None => if sealed then s == Diverged(key) && t == t0 else Stepped(body, run, t0, t, h, key, kind, s)
  }

  ghost predicate Remembers(log: Log, memoized: map<Key, Value>, resolved: map<Key, Value>, gates: map<Key, string>) {
    memoized == Results(log) && resolved == Decisions(log) && gates == Opened(log)
  }

  lemma NothingRecorded()
    ensures Results([]) == map[] && Decisions([]) == map[] && Opened([]) == map[] && Failures([]) == multiset{}
    ensures Project([]) == BLANK
  {
  }

  /** What the memory is after one more event. */
  lemma RemembersMore(t: Tables, run: RunId, e: Event, memoized: map<Key, Value>, resolved: map<Key, Value>,
      gates: map<Key, string>)
    requires Remembers(t.LogOf(run), memoized, resolved, gates)
    ensures Remembers(Applied(t, run, e).LogOf(run),
                      if e.StepCompleted? then memoized[e.stepKey := e.result] else memoized,
                      if e.GateResolved? then resolved[e.stepKey := DecisionValue(e.decision)] else resolved,
                      if e.GateOpened? then gates[e.stepKey := e.gateKey] else gates)
  {
    AppendCounts(t.LogOf(run), e);
    assert Applied(t, run, e).LogOf(run) == t.LogOf(run) + [e];
  }

  lemma GoesFrom(body: Body, t: Tables, run: RunId, h: History, key: Key, kind: StepKind)
    requires Faces(body, t, run, h, key, kind)
    ensures Going(body, t, t, run, h, key, kind)
  {
  }

  /** A live step may die wherever it stands. */
  lemma StopsGoing(body: Body, t0: Tables, t: Tables, run: RunId, h: History, key: Key, kind: StepKind)
    requires Going(body, t0, t, run, h, key, kind)
    ensures Stepped(body, run, t0, t, h, key, kind, Killed)
  {
  }

  /** It raises once its failure is on record. */
  lemma ThrowsGoing(body: Body, t0: Tables, t: Tables, run: RunId, h: History, key: Key, kind: StepKind, error: Error)
    requires Going(body, t0, t, run, h, key, kind) && IsFailed(t.LogOf(run), key)
    ensures Stepped(body, run, t0, t, h, key, kind, Throws(error))
  {
  }

  lemma LacksHandlerSteps(body: Body, run: RunId, t: Tables, h: History, key: Key, kind: StepKind)
    requires Faces(body, t, run, h, key, kind)
    ensures Stepped(body, run, t, t, h, key, kind, Unavailable(UnavailableError(kind)))
  {
  }

  lemma FailureRecorded(t: Tables, run: RunId, e: Event)
    requires e.StepFailed?
    ensures IsFailed(Applied(t, run, e).LogOf(run), e.stepKey)
  {
    assert e in t.LogOf(run) + [e];
  }

  lemma ParksGoing(body: Body, t0: Tables, t: Tables, run: RunId, h: History, key: Key, kind: StepKind, wake: Wake)
    requires Going(body, t0, t, run, h, key, kind) && run in t.rows && RestsAs(t, run, StatusOf(wake))
               && WakesOn(wake, kind)
    requires wake.OnRetry? ==> IsTimed(t, run, key, RetryTimer)
    ensures Stepped(body, run, t0, t, h, key, kind, Suspends(key, wake, StatusOf(wake)))
  {
  }

  lemma RecordSteps(body: Body, t0: Tables, t: Tables, run: RunId, h: History, key: Key, kind: StepKind, e: Event,
      value: Value)
    requires Going(body, t0, t, run, h, key, kind) && run in t.rows && StepInSync(t, run)
               && Records(e, key, kind, value)
    ensures Stepped(body, run, t0, Appended(t, run, e), h, key, kind, Killed)
    ensures Stepped(body, run, t0, Applied(t, run, e), h, key, kind, Got([value]))
  {
    RecordGoes(body, t0, t, run, h, key, kind, e, value);
  }

  /** The step waits, and a pass that comes to it can only suspend again. */
  ghost predicate Resting(world: World, t: Tables, run: RunId, key: Key, kind: StepKind) {
    Waits(t, run, key, kind) &&
    match kind
    case Gate => !world.autoApprove
    case Child => ChildRunId(run, key) in t.rows && !t.rows[ChildRunId(run, key)].status.IsTerminal()
    case _ => true
  }

  /** The step the log leads to is such a one. */
  ghost predicate Stuck(body: Body, world: World, t: Tables, run: RunId) {
    exists h, key, kind :: FrontierAt(body, t.LogOf(run), h, key, kind) && Resting(world, t, run, key, kind)
  }

  lemma StuckHere(body: Body, world: World, t: Tables, run: RunId, h: History, key: Key, kind: StepKind)
    requires Stuck(body, world, t, run) && FrontierAt(body, t.LogOf(run), h, key, kind)
    ensures Resting(world, t, run, key, kind)
  {
    hide FrontierAt, Resting;
    var h', key', kind' :| FrontierAt(body, t.LogOf(run), h', key', kind') && Resting(world, t, run, key', kind');
    FrontierUnique(body, t.LogOf(run), h, key, kind, h', key', kind');
  }

  /** A run whose body is over, or asks for a step twice, is not stuck. */
  lemma NotStuck(body: Body, world: World, t: Tables, run: RunId, h: History)
    requires Replays(body, t.LogOf(run), h) && (!body(h).Await? || KeysAt(body, h).Clash?)
    ensures !Stuck(body, world, t, run)
  {
    hide Resting;
    if Stuck(body, world, t, run) {
      var h', key, kind :| FrontierAt(body, t.LogOf(run), h', key, kind) && Resting(world, t, run, key, kind);
      if body(h).Await? {
        NothingPast(body, t.LogOf(run), h', h, 0);
        NothingPast(body, t.LogOf(run), h, h', 0);
        ReplayUnique(body, t.LogOf(run), h, h');
      } else {
        assert AtFrontier(body, t.LogOf(run), key, kind);
        NoFrontierAtEnd(body, t.LogOf(run), h, key, kind);
      }
    }
  }

  /** A stuck run is left alone: the pass only suspends. */
  ghost predicate LeavesStuck(body: Body, world: World, t0: Tables, t: Tables, run: RunId, s: Signal) {
    Stuck(body, world, t0, run) ==> t == t0 && (s.Got? || s.Suspends?)
  }

  lemma HandledNeverWaits(t: Tables, run: RunId, key: Key, kind: StepKind)
    requires IsHandled(kind)
    ensures !Waits(t, run, key, kind)
  {
  }

  /** The events of `rounds` tries that failed and were retried in process; `n` is the number of
      the first one's handler call. */
  ghost function Tries(world: World, key: Key, call: Call, attempt: nat, n: nat, rounds: nat): Log {
    if rounds == 0 || !world.reply(n + rounds - 1).Breaks? then []
    else Tries(world, key, call, attempt, n, rounds - 1)
         + [StepStarted(key, call.kind), StepFailed(key, world.reply(n + rounds - 1).error, attempt + rounds - 1, true)]
  }

  predicate Retries(world: World, call: Call, attempt: nat, n: nat) {
    world.reply(n).Breaks? && world.reply(n).retryable && attempt < call.maxAttempts
  }

  /** Every one of the first `rounds` tries was worth a retry, in process. */
  ghost predicate AllRetried(world: World, call: Call, attempt: nat, n: nat, rounds: nat) {
    rounds == 0 || (AllRetried(world, call, attempt, n, rounds - 1) && world.inProcessBackoff
                    && Retries(world, call, attempt + rounds - 1, n + rounds - 1))
  }

  ghost predicate SoFar(world: World, log: Log, log': Log, key: Key, call: Call, attempt: nat, n: nat, rounds: nat) {
    AllRetried(world, call, attempt, n, rounds) && log' == log + Tries(world, key, call, attempt, n, rounds)
  }

  /** How the try with handler call number `n` comes out. */
  function TryEvent(world: World, key: Key, call: Call, attempt: nat, n: nat): Event {
    match world.reply(n)
    case Answers(value) => StepCompleted(key, value)
    case Breaks(error, retryable) => StepFailed(key, error, attempt, attempt < call.maxAttempts && retryable)
  }

  /** What a checkpointed step wrote in how many handler calls, and why it ended as it did: every
      earlier try was retried in process, and the last one decided or was cut. */
  ghost predicate Tried(world: World, log: Log, log': Log, key: Key, call: Call, attempt: nat, n: nat, rounds: nat,
      made: nat, s: Signal) {
    var before := log + Tries(world, key, call, attempt, n, rounds);
    var started := before + [StepStarted(key, call.kind)];
    var e := TryEvent(world, key, call, attempt + rounds, n + rounds);
    && AllRetried(world, call, attempt, n, rounds)
    && if s.Killed? then
         || (made == rounds && (log' == before || log' == started))
         || (made == rounds + 1 && (log' == started || log' == started + [e]))
       else
         && made == rounds + 1 && log' == started + [e]
         && match s
            case Got(values) => e.StepCompleted? && values == [e.result]
            case Throws(error) => e.StepFailed? && error == e.error && !e.willRetry
            case Suspends(_, _, _) => e.StepFailed? && e.willRetry && !world.inProcessBackoff
            case _ => false
  }

  lemma TriedIsHandled(world: World, log: Log, log': Log, key: Key, call: Call, attempt: nat, n: nat, rounds: nat,
      made: nat, s: Signal)
    requires Tried(world, log, log', key, call, attempt, n, rounds, made, s)
    ensures !s.Unavailable?
  {
  }

  /** From call number `n` on, the handler of `key` was called once per attempt, counting up. */
  ghost predicate CallsAttempts(calls: seq<(Key, nat)>, n: nat, key: Key, first: nat) {
    forall i :: n <= i < |calls| ==> calls[i].0 == key && calls[i].1 == first + i - n
  }

  lemma NoTries(world: World, log: Log, key: Key, call: Call, attempt: nat, n: nat)
    ensures SoFar(world, log, log, key, call, attempt, n, 0)
  {
  }

  lemma OneMoreTry(world: World, log: Log, log': Log, key: Key, call: Call, attempt: nat, n: nat, rounds: nat)
    requires SoFar(world, log, log', key, call, attempt, n, rounds)
    requires world.inProcessBackoff && Retries(world, call, attempt + rounds, n + rounds)
    ensures SoFar(world, log, log' + [StepStarted(key, call.kind)] + [StepFailed(key, world.reply(n + rounds).error,
              attempt + rounds, true)],
                  key, call, attempt, n, rounds + 1)
  {
  }

  /** The last try, by the handler's reply. */
  lemma LastTry(world: World, log: Log, log': Log, key: Key, call: Call, attempt: nat, n: nat, rounds: nat, wake: Wake,
      status: RunStatus)
    requires SoFar(world, log, log', key, call, attempt, n, rounds)
    ensures var started := log' + [StepStarted(key, call.kind)];
            var e := TryEvent(world, key, call, attempt + rounds, n + rounds);
      && Tried(world, log, log', key, call, attempt, n, rounds, rounds, Killed)
      && Tried(world, log, started, key, call, attempt, n, rounds, rounds, Killed)
      && Tried(world, log, started, key, call, attempt, n, rounds, rounds + 1, Killed)
      && Tried(world, log, started + [e], key, call, attempt, n, rounds, rounds + 1, Killed)
      && match world.reply(n + rounds)
         case Answers(value) => Tried(world, log, started + [e], key, call, attempt, n, rounds, rounds + 1,
             Got([value]))
         case Breaks(error, _) =>
           if !e.willRetry then Tried(world, log, started + [e], key, call, attempt, n, rounds, rounds + 1,
               Throws(error))
           else !world.inProcessBackoff ==>
                  Tried(world, log, started + [e], key, call, attempt, n, rounds, rounds + 1,
                      Suspends(key, wake, status))
  {
  }

  // ----- wake sources -----

  /** The sleep timers and child rows a run may wait on are the same. */
  ghost predicate SameSources(t: Tables, t': Tables, run: RunId) {
    SourcesAnd(t, t', run, {}, {})
  }

  /** They are the same but for those of the steps named. */
  ghost predicate SourcesAnd(t: Tables, t': Tables, run: RunId, timed: set<Key>, started: set<Key>) {
    && (forall key :: IsTimed(t', run, key, SleepTimer) <==> IsTimed(t, run, key, SleepTimer) || key in timed)
    && (forall key :: ChildRunId(run, key) in t'.rows <==> ChildRunId(run, key) in t.rows || key in started)
  }

  lemma SourcesThen(t0: Tables, t1: Tables, t2: Tables, run: RunId)
    requires SameSources(t0, t1, run) && SameSources(t1, t2, run)
    ensures SameSources(t0, t2, run)
  {
    hide IsTimed;
  }

  lemma SourcesStay(t: Tables, run: RunId)
    ensures SameSources(t, t, run)
  {
    hide IsTimed;
  }

  lemma ChildSources(t0: Tables, t: Tables, run: RunId, key: Key, e: Event)
    requires SameSources(t0, t, run)
    ensures var child := ChildRunId(run, key); var t' := Appended(t, child, e);
      && SameSources(t0, t', run) && t'.LogOf(run) == t.LogOf(run)
      && SourcesAnd(t0, RunInserted(t', child, Some(run)), run, {}, {key})
      && RunInserted(t', child, Some(run)).LogOf(run) == t.LogOf(run)
  {
  }

  lemma AppendedSources(t: Tables, run: RunId, e: Event)
    ensures SameSources(t, t, run)
    ensures SameSources(t, Appended(t, run, e), run) && SameSources(t, Applied(t, run, e), run)
  {
  }

  lemma TimerSources(t: Tables, run: RunId, key: Key, kind: TimerKind)
    ensures SameSources(t, t, run)
    ensures forall id :: id !in t.timers ==>
              SourcesAnd(t, TimerAdded(t, id, TimerRow(run, key, kind)), run, if kind.SleepTimer? then {key}
                  else {}, {})
  {
    forall id | id !in t.timers
      ensures SourcesAnd(t, TimerAdded(t, id, TimerRow(run, key, kind)), run, if kind.SleepTimer? then {key}
                else {}, {})
    {
      OneTimerMore(t, run, key, kind, id);
    }
  }

  lemma OneTimerMore(t: Tables, run: RunId, key: Key, kind: TimerKind, id: nat)
    requires id !in t.timers
    ensures SourcesAnd(t, TimerAdded(t, id, TimerRow(run, key, kind)), run, if kind.SleepTimer? then {key} else {}, {})
  {
    var t' := TimerAdded(t, id, TimerRow(run, key, kind));
    assert t'.timers[id] == TimerRow(run, key, kind);
    forall k | IsTimed(t, run, k, SleepTimer) ensures IsTimed(t', run, k, SleepTimer) {
      var i :| i in t.timers && t.timers[i] == TimerRow(run, k, SleepTimer);
      assert t'.timers[i] == TimerRow(run, k, SleepTimer);
    }
  }

  // ----- what steps without a handler write -----

  lemma AppliedTimers(t: Tables, run: RunId, e: Event)
    ensures Applied(t, run, e).timers == t.timers
  {
  }

  function Announcement(world: World, key: Key, call: Call): Log {
    [StepStarted(key, Gate), GateOpened(key, call.name, world.artifact(key))]
  }

  /** Everything a pass writes for a gate without a decision: its announcement, if it is not open
      yet, and an approval when gates approve themselves. */
  function GateWrites(world: World, key: Key, call: Call, gates: map<Key, string>): Log {
    (if key in gates then [] else Announcement(world, key, call))
    + (if world.autoApprove
       then [GateResolved(key, if key in gates then gates[key] else call.name, Approved, "auto")]
       else [])
  }

  ghost predicate GateWrote(world: World, run: RunId, t0: Tables, t: Tables, key: Key, call: Call,
      gates: map<Key, string>, s: Signal) {
    var full := t0.LogOf(run) + GateWrites(world, key, call, gates);
    && SameSources(t0, t, run) && t0.LogOf(run) <= t.LogOf(run) <= full
    && match s
       case Killed => true
       case Suspends(_, wake, _) => wake.OnGate? && !world.autoApprove && t.LogOf(run) == full
       case Got(values) => world.autoApprove && t.LogOf(run) == full && values == [DecisionValue(Approved)]
       case _ => false
  }

  /** A cut during the announcement. */
  lemma AnnouncementCut(world: World, run: RunId, t0: Tables, t: Tables, key: Key, call: Call, gates: map<Key, string>)
    requires key !in gates && SameSources(t0, t, run)
    requires t0.LogOf(run) <= t.LogOf(run) <= t0.LogOf(run) + Announcement(world, key, call)
    ensures GateWrote(world, run, t0, t, key, call, gates, Killed)
  {
    hide SameSources, Tables.LogOf;
    assert t0.LogOf(run) + GateWrites(world, key, call, gates)
           == t0.LogOf(run) + Announcement(world, key, call) + GateWrites(world, key, call, gates)[2..];
  }

  ghost predicate SleepWrote(run: RunId, t0: Tables, t: Tables, key: Key, s: Signal) {
    var full := t0.LogOf(run) + if IsTimed(t0, run, key, SleepTimer) then [] else [StepStarted(key, Sleep)];
    && t0.LogOf(run) <= t.LogOf(run) <= full
    && match s
       case Killed => SameSources(t0, t, run)
       case Suspends(_, wake, _) => wake.OnSleep? && t.LogOf(run) == full && SourcesAnd(t0, t, run, {key}, {})
       case _ => false
  }

  /** The settle's event is in the log, its row update is not. */
  ghost predicate IsSettling(run: RunId, t0: Tables, t: Tables, key: Key, spent: nat)
    requires ChildRunId(run, key) in t0.rows
  {
    var e := InlineEvent(t0, run, key, spent);
    t == Appended(t0, run, e) && (e.StepFailed? ==> !IsFailed(t0.LogOf(run), key))
  }

  ghost predicate ChildWrote(run: RunId, t0: Tables, t: Tables, key: Key, spent: nat, s: Signal) {
    var child, log := ChildRunId(run, key), t0.LogOf(run);
    if child !in t0.rows then
      && log <= t.LogOf(run) <= log + [StepStarted(key, Child)]
      && match s
         case Killed => SameSources(t0, t, run)
         case Suspends(_, wake, _) =>
           wake.OnChild? && t.LogOf(run) == log + [StepStarted(key, Child)] && SourcesAnd(t0, t, run, {}, {key})
         case _ => false
    else if !t0.rows[child].status.IsTerminal() then s.Suspends? && s.wake.OnChild? && t == t0
    else
      && SameSources(t0, t, run)
      && if s.Killed? then t == t0 || IsSettling(run, t0, t, key, spent)
         else t == SettledInline(t0, run, key, spent).0 && s == SignalOf(SettledInline(t0, run, key, spent).1)
  }

  ghost predicate HandledWrote(world: World, run: RunId, t0: Tables, t: Tables, key: Key, call: Call,
      first: nat, n: nat,
      made: nat, s: Signal) {
    || (s == Unavailable(UnavailableError(call.kind)) && t == t0 && made == 0)
    || (SameSources(t0, t, run)
        && exists rounds :: Tried(world, t0.LogOf(run), t.LogOf(run), key, call, first, n, rounds, made, s))
  }

  /** Everything a live step wrote, by its kind; `spent` counts the failures before it, `n` and
      `made` number its handler calls. */
  ghost predicate LiveWrote(world: World, run: RunId, t0: Tables, t: Tables, key: Key, call: Call, spent: nat, n: nat,
      made: nat, gates: map<Key, string>, s: Signal) {
    match call.kind
    case Gate => made == 0 && GateWrote(world, run, t0, t, key, call, gates, s)
    case Sleep => made == 0 && SleepWrote(run, t0, t, key, s)
    case Child => made == 0 && ChildWrote(run, t0, t, key, spent, s)
    case _ => HandledWrote(world, run, t0, t, key, call, spent + 1, n, made, s)
  }

  lemma TimerLog(t: Tables, run: RunId, id: nat, timer: TimerRow)
    ensures TimerAdded(t, id, timer).LogOf(run) == t.LogOf(run)
  {
  }

  function UnavailableError(kind: StepKind): Error {
    map["type" := "StepKindUnavailableError"]
  }

  lemma AppliedFrame(t: Tables, run: RunId, e: Event, other: RunId)
    requires run in t.rows && other != run
    ensures var t' := Applied(t, run, e);
      && t'.LogOf(run) == t.LogOf(run) + [e] && t'.LogOf(other) == t.LogOf(other)
      && t'.rows.Keys == t.rows.Keys && t'.queue == t.queue
  {
  }

  function SignalOf(outcome: Outcome): Signal {
    match outcome
    case Returns(value) => Got([value])
    case Raises(error) => Throws(error)
  }

  /** Settling a terminal child is a live step like any other. */
  lemma SettleSteps(body: Body, t: Tables, run: RunId, h: History, key: Key, spent: nat)
    requires Faces(body, t, run, h, key, Child)
    requires ChildRunId(run, key) in t.rows && t.rows[ChildRunId(run, key)].status.IsTerminal()
    ensures var settled := SettledInline(t, run, key, spent);
            Stepped(body, run, t, settled.0, h, key, Child, SignalOf(settled.1))
    ensures Stepped(body, run, t, t, h, key, Child, Killed)
    ensures Stepped(body, run, t, Appended(t, run, InlineEvent(t, run, key, spent)), h, key, Child, Killed)
  {
    hide Results, Decisions, Opened, Failures, Project, Waits, RestsAs, Going, Faces, Stepped, StepInSync;
    hide Tables.LogOf, RowApplied, IsCompleted, IsFailed, ChildError, ChildResult;
    GoesFrom(body, t, run, h, key, Child);
    ChildStands(body, t, run, h, key);
    var e := InlineEvent(t, run, key, spent);
    var error := ChildError(ChildRunId(run, key), t.rows[ChildRunId(run, key)]);
    StopsGoing(body, t, t, run, h, key, Child);
    if e.StepCompleted? {
      RecordSteps(body, t, t, run, h, key, Child, e, e.result);
    } else {
      FailGoes(body, t, t, run, h, key, Child, e);
      StopsGoing(body, t, Appended(t, run, e), run, h, key, Child);
      FailureRecorded(t, run, e);
      ThrowsGoing(body, t, Applied(t, run, e), run, h, key, Child, error);
      if IsFailed(t.LogOf(run), key) {
        ThrowsGoing(body, t, t, run, h, key, Child, error);
      }
    }
  }

  /** An open gate on the frontier is what the run rests at; an unopened one waits for nothing. */
  lemma GateStands(body: Body, t: Tables, run: RunId, h: History, key: Key,
      memoized: map<Key, Value>, resolved: map<Key, Value>, gates: map<Key, string>)
    requires Faces(body, t, run, h, key, Gate) && Remembers(t.LogOf(run), memoized, resolved, gates)
    ensures run in t.rows
    ensures if key in gates then StepInSync(t, run) && RestsAs(t, run, WaitingGate) else !Waits(t, run, key, Gate)
  {
    OpenedAreOpened(t.LogOf(run), key);
    ResolutionsAreDecisions(t.LogOf(run), key);
    assert key in gates ==> Waits(t, run, key, Gate);
  }

  lemma SleepStands(body: Body, t: Tables, run: RunId, h: History, key: Key)
    requires Faces(body, t, run, h, key, Sleep)
    ensures run in t.rows
    ensures if exists id | id in t.timers :: t.timers[id] == TimerRow(run, key, SleepTimer)
            then IsTimed(t, run, key, SleepTimer) && RestsAs(t, run, WaitingTimer)
            else !IsTimed(t, run, key, SleepTimer) && !Waits(t, run, key, Sleep)
  {
    CompletionsAreResults(t.LogOf(run), key);
    assert IsTimed(t, run, key, SleepTimer) ==> Waits(t, run, key, Sleep);
  }

  lemma OpenGoes(body: Body, t0: Tables, t: Tables, run: RunId, h: History, key: Key, e: Event)
    requires Going(body, t0, t, run, h, key, Gate) && e.GateOpened? && e.stepKey == key
    requires run in t.rows && StepInSync(t, run) && !Waits(t, run, key, Gate)
    ensures Going(body, t0, Appended(t, run, e), run, h, key, Gate)
              && Going(body, t0, Applied(t, run, e), run, h, key, Gate)
    ensures run in Applied(t, run, e).rows && StepInSync(Applied(t, run, e), run)
    ensures RestsAs(Applied(t, run, e), run, WaitingGate)
  {
    hide Project, EndInSync, Waits, FrontierAt, Tidy, Grown;
    EventKeeps(body, t, run, h, key, Gate, e);
    GrownOn(t0, t, run, e);
  }

  lemma RemembersTimer(t: Tables, run: RunId, id: nat, timer: TimerRow,
      memoized: map<Key, Value>, resolved: map<Key, Value>, gates: map<Key, string>)
    requires Remembers(t.LogOf(run), memoized, resolved, gates)
    ensures Remembers(TimerAdded(t, id, timer).LogOf(run), memoized, resolved, gates)
  {
  }

  /** What the engine records as the start of the child. */
  function ChildStart(world: World, run: RunId, key: Key): Event {
    RunStarted(world.childName(key), world.childVersion(key), world.childInput(key), "run:" + Show(run))
  }

  /** A dispatch cut short: the parent's event, its row, the child's event; the child has no row yet. */
  predicate DispatchCut(world: World, t: Tables, t': Tables, run: RunId, key: Key) {
    var start := StepStarted(key, Child);
    || t' == t || t' == Appended(t, run, start) || t' == Applied(t, run, start)
    || t' == Appended(Applied(t, run, start), ChildRunId(run, key), ChildStart(world, run, key))
  }

  lemma CutsOfDispatch(world: World, t: Tables, run: RunId, key: Key)
    ensures var start := StepStarted(key, Child);
      && DispatchCut(world, t, t, run, key) && DispatchCut(world, t, Appended(t, run, start), run, key)
      && DispatchCut(world, t, Applied(t, run, start), run, key)
      && DispatchCut(world, t, Appended(Applied(t, run, start), ChildRunId(run, key), ChildStart(world, run, key)),
             run, key)
  {
  }

  lemma ChildStands(body: Body, t: Tables, run: RunId, h: History, key: Key)
    requires Faces(body, t, run, h, key, Child)
    ensures run in t.rows && !IsCompleted(t.LogOf(run), key)
    ensures if ChildRunId(run, key) in t.rows then StepInSync(t, run) && RestsAs(t, run, Running)
              else !Waits(t, run, key, Child)
  {
    CompletionsAreResults(t.LogOf(run), key);
    assert ChildRunId(run, key) in t.rows ==> Waits(t, run, key, Child);
  }

  lemma SettledSources(t: Tables, run: RunId, key: Key, spent: nat)
    requires ChildRunId(run, key) in t.rows
    ensures SameSources(t, SettledInline(t, run, key, spent).0, run)
  {
    AppendedSources(t, run, InlineEvent(t, run, key, spent));
  }
}
