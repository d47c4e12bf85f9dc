/** The passes of the engine are runs of the transition system: what each live step writes is what
    some enabled steps of the system write. */
module Refinement {
  import opened Prelude
  import opened Keys
  import opened Events
  import opened Program
  import opened Durable
  import opened DurableTheorems
  import opened Tables
  import opened Settle
  import opened Frontier
  import opened Commits
  import opened LiveSteps

  // ----- one await of a sequential pass -----

  ghost predicate OneCall(body: Body, h: History, key: Key, call: Call) {
    body(h) == Action.Await([call]) && KeysAt(body, h).Allocated? && KeysAt(body, h).keys == [key]
  }

  predicate IsSealedLog(log: Log) {
    Project(log).status.Completed?
  }

  /** The system in the middle of a pass whose one branch stands at `b`. */
  function Mid(s: Sys, seen: Log, h: History, b: Branch): Sys {
    s.(pass := Some(Pass(seen, h, [b])))
  }

  function Called(s: Sys, key: Key): Sys {
    s.(invoked := s.invoked + multiset{key})
  }

  lemma BranchAt(body: Body, s: Sys, seen: Log, h: History, b: Branch, key: Key, call: Call)
    requires OneCall(body, h, key, call)
    ensures var m := Mid(s, seen, h, b);
      && Has(body, m, 0) && KeyOf(body, m, 0) == key && CallOf(body, m, 0) == call && BranchOf(body, m, 0) == b
      && Remembered(body, m, 0) == Recorded(seen, key, call.kind)
      && (forall b' :: SetBranch(m, 0, b') == Mid(s, seen, h, b'))
  {
    var m := Mid(s, seen, h, b);
    assert CallsAt(body, h) == [call];
    forall b' ensures SetBranch(m, 0, b') == Mid(s, seen, h, b') {
      assert [b][0 := b'] == [b'];
    }
  }

  lemma Attempts(body: Body, s0: Sys, s: Sys, seen: Log, h: History, b: Branch, key: Key, call: Call, a: nat)
    requires OneCall(body, h, key, call) && IsHandled(call.kind) && Leads(body, s0, Mid(s, seen, h, b))
    requires !WasCancelled(s.log)
    requires if b.Waiting? then b.attempt == a
             else b.Todo? && Recorded(seen, key, call.kind).None? && !IsSealedLog(seen) && a == Failures(seen)[key] + 1
    ensures Leads(body, s0, Mid(Append(s, StepStarted(key, call.kind)), seen, h, Started(a)))
  {
    hide Leads, KeysAt, CallsAt, Recorded, Failures, Project, WasCancelled;
    BranchAt(body, s, seen, h, b, key, call);
    LeadsOn(body, s0, Mid(s, seen, h, b), Step.Attempt(0));
  }

  lemma Invokes(body: Body, s0: Sys, s: Sys, seen: Log, h: History, a: nat, key: Key, call: Call)
    requires OneCall(body, h, key, call) && Leads(body, s0, Mid(s, seen, h, Started(a)))
    ensures Leads(body, s0, Mid(Called(s, key), seen, h, Invoked(a)))
  {
    hide Leads, KeysAt, CallsAt, Recorded;
    BranchAt(body, s, seen, h, Started(a), key, call);
    LeadsOn(body, s0, Mid(s, seen, h, Started(a)), Invoke(0));
  }

  /** What an invoked handler's outcome commits. */
  predicate IsOutcome(key: Key, call: Call, a: nat, e: Event, retryable: bool) {
    match e
    case StepCompleted(k, _) => k == key
    case StepFailed(k, _, attempt, willRetry) => k == key && attempt == a
        && willRetry == (a < call.maxAttempts && retryable)
    case _ => false
  }

  function BranchAfter(e: Event, a: nat): Branch {
    match e
    case StepCompleted(_, value) => Done(value)
    case StepFailed(_, error, _, willRetry) => if willRetry then Waiting(a + 1) else Dead(error, true)
    case _ => Todo
  }

  lemma Outcomes(body: Body, s0: Sys, s: Sys, seen: Log, h: History, a: nat, key: Key, call: Call, e: Event,
      retryable: bool)
    requires OneCall(body, h, key, call) && Leads(body, s0, Mid(s, seen, h, Invoked(a)))
               && IsOutcome(key, call, a, e, retryable)
    ensures Leads(body, s0, Mid(Append(s, e), seen, h, BranchAfter(e, a)))
  {
    hide Leads, KeysAt, CallsAt, Recorded;
    BranchAt(body, s, seen, h, Invoked(a), key, call);
    LeadsOn(body, s0, Mid(s, seen, h, Invoked(a)), if e.StepCompleted? then Complete(0, e.result)
        else Fail(0, e.error, retryable));
  }

  lemma Hits(body: Body, s0: Sys, s: Sys, seen: Log, h: History, key: Key, call: Call, value: Value)
    requires OneCall(body, h, key, call) && Leads(body, s0, Mid(s, seen, h, Todo))
    requires Recorded(seen, key, call.kind) == Some(value)
    ensures Leads(body, s0, Mid(s, seen, h, Done(value)))
  {
    hide Leads, KeysAt, CallsAt, Recorded;
    BranchAt(body, s, seen, h, Todo, key, call);
    LeadsOn(body, s0, Mid(s, seen, h, Todo), Hit(0));
  }

  /** The pass goes on to the await after `h + [[value]]`. */
  function AtAwait(body: Body, s: Sys, seen: Log, h: History): Sys {
    s.(pass := Some(Pass(seen, h, Enter(body, h))))
  }

  lemma Advances(body: Body, s0: Sys, s: Sys, seen: Log, h: History, key: Key, call: Call, value: Value)
    requires OneCall(body, h, key, call) && Leads(body, s0, Mid(s, seen, h, Done(value)))
    ensures Leads(body, s0, AtAwait(body, s, seen, h + [[value]]))
  {
    hide Leads, KeysAt, CallsAt, Enter;
    BranchAt(body, s, seen, h, Done(value), key, call);
    var m := Mid(s, seen, h, Done(value));
    assert Values(m.pass.value) == [value];
    LeadsOn(body, s0, m, Advance);
  }

  lemma AwaitsOne(body: Body, s: Sys, seen: Log, h: History, key: Key, call: Call)
    requires OneCall(body, h, key, call)
    ensures AtAwait(body, s, seen, h) == Mid(s, seen, h, Todo)
  {
    assert Enter(body, h) == [Todo];
  }

  // ----- handler steps -----

  /** One try of a checkpointed step, and the states it may be cut in. */
  lemma TryLeads(body: Body, s0: Sys, s: Sys, seen: Log, h: History, b: Branch, key: Key, call: Call, a: nat,
      e: Event, retryable: bool)
    requires OneCall(body, h, key, call) && IsHandled(call.kind) && Leads(body, s0, Mid(s, seen, h, b))
    requires !WasCancelled(s.log)
    requires if b.Waiting? then b.attempt == a
             else b.Todo? && Recorded(seen, key, call.kind).None? && !IsSealedLog(seen) && a == Failures(seen)[key] + 1
    requires IsOutcome(key, call, a, e, retryable)
    ensures var u := Append(s, StepStarted(key, call.kind));
      && Leads(body, s0, Mid(u, seen, h, Started(a))) && Leads(body, s0, Mid(Called(u, key), seen, h, Invoked(a)))
      && Leads(body, s0, Mid(Append(Called(u, key), e), seen, h, BranchAfter(e, a)))
  {
    hide Leads, Mid, OneCall, Recorded, Failures, Project, WasCancelled, IsOutcome, BranchAfter;
    var u := Append(s, StepStarted(key, call.kind));
    Attempts(body, s0, s, seen, h, b, key, call, a);
    Invokes(body, s0, u, seen, h, a, key, call);
    Outcomes(body, s0, Called(u, key), seen, h, a, key, call, e, retryable);
  }

  lemma NothingTried(world: World, key: Key, call: Call, first: nat, n: nat)
    ensures Times(key, 0) == multiset{} && Tries(world, key, call, first, n, 0) == []
  {
  }

  /** The last of some retried tries. */
  lemma OneMoreTried(world: World, log: Log, key: Key, call: Call, first: nat, n: nat, rounds: nat)
    requires rounds > 0 && AllRetried(world, call, first, n, rounds)
    ensures AllRetried(world, call, first, n, rounds - 1)
    ensures var a, e := first + rounds - 1, TryEvent(world, key, call, first + rounds - 1, n + rounds - 1);
      && IsOutcome(key, call, a, e, true) && BranchAfter(e, a) == Waiting(a + 1) && !e.RunCancelled?
      && log + Tries(world, key, call, first, n, rounds)
         == log + Tries(world, key, call, first, n, rounds - 1) + [StepStarted(key, call.kind)] + [e]
  {
  }

  /** A checkpointed step's tries, retried in process. */
  lemma {:induction false} TriesLead(body: Body, s0: Sys, s: Sys, seen: Log, h: History, key: Key, call: Call,
      world: World,
      first: nat, n: nat, rounds: nat) returns (s': Sys)
    requires OneCall(body, h, key, call) && IsHandled(call.kind) && Leads(body, s0, Mid(s, seen, h, Todo))
    requires Recorded(seen, key, call.kind).None? && !IsSealedLog(seen) && first == Failures(seen)[key] + 1
    requires !WasCancelled(s.log) && AllRetried(world, call, first, n, rounds)
    ensures Leads(body, s0, Mid(s', seen, h, if rounds == 0 then Todo else Waiting(first + rounds)))
    ensures s' == s.(log := s.log + Tries(world, key, call, first, n, rounds), invoked := s'.invoked)
    ensures s'.invoked == s.invoked + Times(key, rounds) && !WasCancelled(s'.log)
  {
    hide Leads, Mid, OneCall, Recorded, Failures, Project, WasCancelled, Tries, Times, AllRetried;
    NothingTried(world, key, call, first, n);
    if rounds == 0 {
      s' := s;
    } else {
      OneMoreTried(world, s.log, key, call, first, n, rounds);
      OneTimeMore(key, rounds - 1);
      var t := TriesLead(body, s0, s, seen, h, key, call, world, first, n, rounds - 1);
      var a := first + rounds - 1;
      var e := TryEvent(world, key, call, a, n + rounds - 1);
      TryLeads(body, s0, t, seen, h, if rounds == 1 then Todo else Waiting(a), key, call, a, e, true);
      var started := Append(t, StepStarted(key, call.kind));
      s' := Append(Called(started, key), e);
      NotCancelledBy(t.log, StepStarted(key, call.kind));
      NotCancelledBy(started.log, e);
    }
  }

  function Times(key: Key, n: nat): multiset<Key> {
    if n == 0 then multiset{} else Times(key, n - 1) + multiset{key}
  }

  lemma NotCancelledBy(log: Log, e: Event)
    requires !WasCancelled(log) && !e.RunCancelled?
    ensures !WasCancelled(log + [e])
  {
  }

  // ----- the tables and the system -----

  /** The system has the run's log, and knows the wake sources of every step not completed. */
  ghost predicate Mirrors(s: Sys, t: Tables, run: RunId) {
    && s.log == t.LogOf(run)
    && (forall key :: !IsCompleted(s.log, key) ==> (key in s.armed <==> IsTimed(t, run, key, SleepTimer)))
    && (forall key :: !IsCompleted(s.log, key) ==> (key in s.children <==> ChildRunId(run, key) in t.rows))
  }

  lemma MirrorsMore(s: Sys, t: Tables, run: RunId, s': Sys, t': Tables, timed: set<Key>, started: set<Key>)
    requires Mirrors(s, t, run) && SourcesAnd(t, t', run, timed, started)
    requires t.LogOf(run) <= t'.LogOf(run) && s'.log == t'.LogOf(run)
    requires s'.armed == s.armed + timed && s'.children == s.children + started
    ensures Mirrors(s', t', run)
  {
    hide IsTimed;
    assert forall e :: e in s.log ==> e in s'.log;
    assert forall key :: IsCompleted(s.log, key) ==> IsCompleted(s'.log, key);
  }

  /** How a live step's signal shows in its branch. */
  ghost predicate Shows(signal: Signal, b: Branch) {
    match signal
    case Got(values) => |values| == 1 && b == Done(values[0])
    case Throws(error) => b.Dead? && b.error == error
    case Unavailable(error) => b.Dead? && b.error == error
    case _ => true
  }

  /** A live step from `s` has led the system to `s'` with its branch at `b`. */
  ghost predicate Lands(body: Body, s0: Sys, s: Sys, s': Sys, t': Tables, run: RunId, seen: Log, h: History, b: Branch,
      key: Key, made: nat, signal: Signal) {
    && Leads(body, s0, Mid(s', seen, h, b)) && Mirrors(s', t', run) && Shows(signal, b)
    && s'.returned == s.returned && s'.invoked == s.invoked + Times(key, made)
  }

  /** What holds where a live step begins. */
  ghost predicate Begun(body: Body, s0: Sys, s: Sys, t: Tables, run: RunId, seen: Log, h: History, key: Key,
      call: Call) {
    && OneCall(body, h, key, call) && Leads(body, s0, Mid(s, seen, h, Todo)) && Mirrors(s, t, run)
    && Recorded(seen, key, call.kind).None? && Recorded(s.log, key, call.kind).None?
    && Failures(seen)[key] == Failures(s.log)[key]
    && !IsSealedLog(seen) && !WasCancelled(s.log)
  }

  /** A checkpointed step, from its first try to wherever it ended or was cut. */
  lemma HandledPath(body: Body, s0: Sys, s: Sys, log': Log, seen: Log, h: History, key: Key, call: Call, world: World,
      first: nat, n: nat, rounds: nat, made: nat, signal: Signal) returns (s': Sys, b: Branch)
    requires OneCall(body, h, key, call) && IsHandled(call.kind) && Leads(body, s0, Mid(s, seen, h, Todo))
    requires Recorded(seen, key, call.kind).None? && !IsSealedLog(seen) && first == Failures(seen)[key] + 1
    requires !WasCancelled(s.log) && Tried(world, s.log, log', key, call, first, n, rounds, made, signal)
    ensures Leads(body, s0, Mid(s', seen, h, b)) && Shows(signal, b)
    ensures s' == s.(log := log', invoked := s.invoked + Times(key, made))
  {
    hide Leads, Recorded, Failures, Project, WasCancelled, Tries, OneCall, Mid, Times;
    var u := TriesLead(body, s0, s, seen, h, key, call, world, first, n, rounds);
    var waiting := if rounds == 0 then Todo else Waiting(first + rounds);
    var a := first + rounds;
    var e := TryEvent(world, key, call, a, n + rounds);
    var reply := world.reply(n + rounds);
    var started := Append(u, StepStarted(key, call.kind));
    if log' == u.log && made == rounds {
      s', b := u, waiting;
    } else {
      TryLeads(body, s0, u, seen, h, waiting, key, call, a, e, reply.Breaks? && reply.retryable);
      OneTimeMore(key, rounds);
      if made == rounds {
        s', b := started, Started(a);
      } else if log' == started.log {
        s', b := Called(started, key), Invoked(a);
      } else {
        s', b := Append(Called(started, key), e), BranchAfter(e, a);
      }
    }
  }

  lemma OneTimeMore(key: Key, n: nat)
    ensures Times(key, n + 1) == Times(key, n) + multiset{key}
  {
  }

  lemma HandledLands(body: Body, s0: Sys, s: Sys, t: Tables, t': Tables, run: RunId, seen: Log, h: History, key: Key,
      call: Call, world: World, n: nat, made: nat, signal: Signal) returns (s': Sys, b: Branch)
    requires Begun(body, s0, s, t, run, seen, h, key, call) && IsHandled(call.kind)
    requires HandledWrote(world, run, t, t', key, call, Failures(seen)[key] + 1, n, made, signal)
    requires t.LogOf(run) <= t'.LogOf(run)
    ensures Lands(body, s0, s, s', t', run, seen, h, b, key, made, signal)
  {
    hide Leads, KeysAt, CallsAt, Recorded, Failures, Project, Mirrors, WasCancelled, Tables.LogOf, Tried;
    hide OneCall, Mid, SourcesAnd, Results, Decisions, Opened, Completions, Resolutions;
    var first: nat := Failures(seen)[key] + 1;
    MirrorsLog(s, t, run);
    if signal == Unavailable(UnavailableError(call.kind)) && t' == t && made == 0 {
      Refuses(body, s0, s, seen, h, key, call, UnavailableError(call.kind));
      s', b := s, Dead(UnavailableError(call.kind), false);
    } else {
      var rounds :| Tried(world, t.LogOf(run), t'.LogOf(run), key, call, first, n, rounds, made, signal);
      s', b := HandledPath(body, s0, s, t'.LogOf(run), seen, h, key, call, world, first, n, rounds, made, signal);
      MirrorsMore(s, t, run, s', t', {}, {});
    }
  }

  lemma Refuses(body: Body, s0: Sys, s: Sys, seen: Log, h: History, key: Key, call: Call, error: Error)
    requires OneCall(body, h, key, call) && Leads(body, s0, Mid(s, seen, h, Todo))
    requires Recorded(seen, key, call.kind).None? && !IsSealedLog(seen)
    ensures Leads(body, s0, Mid(s, seen, h, Dead(error, false)))
  {
    hide Leads, KeysAt, CallsAt, Recorded, Project;
    BranchAt(body, s, seen, h, Todo, key, call);
    LeadsOn(body, s0, Mid(s, seen, h, Todo), Refuse(0, error));
  }

  lemma MirrorsLog(s: Sys, t: Tables, run: RunId)
    requires Mirrors(s, t, run)
    ensures s.log == t.LogOf(run)
  {
  }

  // ----- steps without a handler -----

  predicate Suspending(kind: StepKind) {
    kind.Gate? || kind.Sleep? || kind.Child?
  }

  lemma Announces(body: Body, s0: Sys, s: Sys, seen: Log, h: History, key: Key, call: Call)
    requires OneCall(body, h, key, call) && Suspending(call.kind) && Leads(body, s0, Mid(s, seen, h, Todo))
    requires Recorded(seen, key, call.kind).None? && !IsSealedLog(seen) && !WasCancelled(s.log)
    requires !SourceExists(s, key, call.kind)
    ensures Leads(body, s0, Mid(Append(s, StepStarted(key, call.kind)), seen, h, Todo))
  {
    hide Leads, KeysAt, CallsAt, Recorded, Project, WasCancelled;
    BranchAt(body, s, seen, h, Todo, key, call);
    LeadsOn(body, s0, Mid(s, seen, h, Todo), Announce(0));
  }

  function ArmedSys(s: Sys, key: Key, call: Call, artifact: Uuid): Sys {
    match call.kind
    case Sleep => s.(armed := s.armed + {key})
    case Gate => if IsOpened(s.log, key) then s else Append(s, GateOpened(key, call.name, artifact))
    case _ => s.(children := s.children + {key})
  }

  lemma Arms(body: Body, s0: Sys, s: Sys, seen: Log, h: History, key: Key, call: Call, artifact: Uuid)
    requires OneCall(body, h, key, call) && Suspending(call.kind) && Leads(body, s0, Mid(s, seen, h, Todo))
    requires Recorded(seen, key, call.kind).None? && !IsSealedLog(seen) && !WasCancelled(s.log)
    requires SourceExists(s, key, call.kind) || IsStarted(s.log, key, call.kind)
    ensures Leads(body, s0, Mid(ArmedSys(s, key, call, artifact), seen, h, Parked))
  {
    hide Leads, KeysAt, CallsAt, Recorded, Project, WasCancelled, IsOpened;
    BranchAt(body, s, seen, h, Todo, key, call);
    LeadsOn(body, s0, Mid(s, seen, h, Todo), Step.Arm(0, artifact));
  }

  lemma Approves(body: Body, s0: Sys, s: Sys, seen: Log, h: History, b: Branch, key: Key, call: Call, gateKey: string)
    requires OneCall(body, h, key, call) && call.kind.Gate? && Leads(body, s0, Mid(s, seen, h, b))
               && (b.Todo? || b.Parked?)
    requires Recorded(seen, key, Gate).None? && !IsSealedLog(seen) && !WasCancelled(s.log)
    requires IsOpened(s.log, key) && !IsResolved(s.log, key)
    ensures Leads(body, s0, Mid(Append(s, GateResolved(key, gateKey, Approved, "auto")), seen, h,
              Done(DecisionValue(Approved))))
  {
    hide Leads, KeysAt, CallsAt, Recorded, Project, WasCancelled, IsOpened, IsResolved;
    BranchAt(body, s, seen, h, b, key, call);
    LeadsOn(body, s0, Mid(s, seen, h, b), AutoApprove(0, gateKey));
  }

  /** The first `k` events of a gate's announcement. */
  lemma GateAnnounced(body: Body, s0: Sys, s: Sys, seen: Log, h: History, key: Key, call: Call, world: World, k: nat)
      returns (s': Sys, b: Branch)
    requires OneCall(body, h, key, call) && call.kind.Gate? && Leads(body, s0, Mid(s, seen, h, Todo))
    requires Recorded(seen, key, Gate).None? && !IsSealedLog(seen) && !WasCancelled(s.log)
    requires k <= 2 && !IsOpened(s.log, key) && !IsResolved(s.log, key)
    ensures Leads(body, s0, Mid(s', seen, h, b)) && s' == s.(log := s.log + Announcement(world, key, call)[..k])
    ensures b == if k == 2 then Parked else Todo
    ensures k == 2 ==> IsOpened(s'.log, key) && !IsResolved(s'.log, key) && !WasCancelled(s'.log)
  {
    hide Leads, KeysAt, CallsAt, Recorded, Project, OneCall, Mid;
    var start, open := StepStarted(key, Gate), GateOpened(key, call.name, world.artifact(key));
    assert Announcement(world, key, call) == [start, open];
    if k == 0 {
      s', b := s, Todo;
      assert s.log + Announcement(world, key, call)[..0] == s.log;
    } else {
      Announces(body, s0, s, seen, h, key, call);
      var s1 := Append(s, start);
      assert forall e :: e in s1.log <==> e in s.log || e == start;
      if k == 1 {
        s', b := s1, Todo;
        assert s.log + Announcement(world, key, call)[..1] == s1.log;
      } else {
        Arms(body, s0, s1, seen, h, key, call, world.artifact(key));
        s', b := Append(s1, open), Parked;
        assert forall e :: e in s'.log <==> e in s.log || e == start || e == open;
        assert s.log + Announcement(world, key, call)[..2] == s'.log;
      }
    }
  }

  /** A gate's writes, from none to its approval. */
  lemma GatePath(body: Body, s0: Sys, s: Sys, log': Log, seen: Log, h: History, key: Key, call: Call, world: World,
      gates: map<Key, string>) returns (s': Sys, b: Branch)
    requires OneCall(body, h, key, call) && call.kind.Gate? && Leads(body, s0, Mid(s, seen, h, Todo))
    requires Recorded(seen, key, Gate).None? && !IsSealedLog(seen) && !WasCancelled(s.log)
    requires !IsResolved(s.log, key) && (key in gates <==> IsOpened(s.log, key))
    requires s.log <= log' <= s.log + GateWrites(world, key, call, gates)
    ensures Leads(body, s0, Mid(s', seen, h, b)) && s' == s.(log := log')
    ensures world.autoApprove && log' == s.log + GateWrites(world, key, call, gates) ==>
              b == Done(DecisionValue(Approved))
  {
    hide Leads, KeysAt, CallsAt, Project, OneCall, Mid, IsOpened, IsResolved, WasCancelled, Recorded;
    var gateKey := if key in gates then gates[key] else call.name;
    var approval := GateResolved(key, gateKey, Approved, "auto");
    var announced := if key in gates then [] else Announcement(world, key, call);
    PrefixOfTwo(s.log, log', announced, if world.autoApprove then [approval] else []);
    if key in gates {
      s', b := s, Todo;
    } else {
      var k := |log'| - |s.log|;
      s', b := GateAnnounced(body, s0, s, seen, h, key, call, world, if k > 2 then 2 else k);
    }
    if log' != s'.log {
      Approves(body, s0, s', seen, h, b, key, call, gateKey);
      s', b := Append(s', approval), Done(DecisionValue(Approved));
    }
  }

  lemma GateLands(body: Body, s0: Sys, s: Sys, t: Tables, t': Tables, run: RunId, seen: Log, h: History, key: Key,
      call: Call, world: World, gates: map<Key, string>, signal: Signal) returns (s': Sys, b: Branch)
    requires Begun(body, s0, s, t, run, seen, h, key, call) && call.kind.Gate?
    requires GateWrote(world, run, t, t', key, call, gates, signal) && gates == Opened(s.log)
    ensures Lands(body, s0, s, s', t', run, seen, h, b, key, 0, signal)
  {
    hide Leads, KeysAt, CallsAt, Project, Mirrors, Tables.LogOf, OneCall, Mid, SourcesAnd, Opened, Decisions, Results;
    hide IsOpened, IsResolved, WasCancelled, GateWrites, Failures;
    MirrorsLog(s, t, run);
    OpenedAreOpened(s.log, key);
    ResolutionsAreDecisions(s.log, key);
    s', b := GatePath(body, s0, s, t'.LogOf(run), seen, h, key, call, world, gates);
    MirrorsMore(s, t, run, s', t', {}, {});
  }

  /** A prefix of a sequence with at most one more element. */
  lemma PrefixOfTwo(log: Log, log': Log, a: Log, b: Log)
    requires log <= log' <= log + (a + b) && |b| <= 1
    ensures log' == log + a + b || (|log'| - |log| <= |a| && log' == log + a[..|log'| - |log|])
  {
    assert (log + (a + b))[..|log'|] == log';
  }

  lemma SleepLands(body: Body, s0: Sys, s: Sys, t: Tables, t': Tables, run: RunId, seen: Log, h: History, key: Key,
      call: Call, signal: Signal) returns (s': Sys, b: Branch)
    requires Begun(body, s0, s, t, run, seen, h, key, call) && call.kind.Sleep?
    requires SleepWrote(run, t, t', key, signal)
    ensures Lands(body, s0, s, s', t', run, seen, h, b, key, 0, signal)
  {
    hide Leads, KeysAt, CallsAt, Project, Tables.LogOf, OneCall, Mid, SourcesAnd, Decisions, Results, IsTimed;
    hide WasCancelled;
    CompletionsAreResults(s.log, key);
    var start := StepStarted(key, Sleep);
    var timed := IsTimed(t, run, key, SleepTimer);
    var k := |t'.LogOf(run)| - |s.log|;
    s', b := s, Todo;
    if k > 0 {
      Announces(body, s0, s, seen, h, key, call);
      s' := Append(s, start);
      NotCancelledBy(s.log, start);
      assert start in s'.log;
      assert t'.LogOf(run) == s'.log;
    } else {
      assert t'.LogOf(run) == s.log;
    }
    if signal.Suspends? {
      Arms(body, s0, s', seen, h, key, call, 0);
      s', b := s'.(armed := s'.armed + {key}), Parked;
      MirrorsMore(s, t, run, s', t', {key}, {});
    } else {
      MirrorsMore(s, t, run, s', t', {}, {});
    }
  }

  lemma ChildLands(body: Body, s0: Sys, s: Sys, t: Tables, t': Tables, run: RunId, seen: Log, h: History, key: Key,
      call: Call, signal: Signal) returns (s': Sys, b: Branch)
    requires Begun(body, s0, s, t, run, seen, h, key, call) && call.kind.Child?
    requires ChildWrote(run, t, t', key, Failures(seen)[key], signal)
    ensures Lands(body, s0, s, s', t', run, seen, h, b, key, 0, signal)
  {
    if ChildRunId(run, key) !in t.rows {
      s', b := NewChildLands(body, s0, s, t, t', run, seen, h, key, call, signal);
    } else if !t.rows[ChildRunId(run, key)].status.IsTerminal() {
      s', b := s, Todo;
    } else {
      s', b := EndedChildLands(body, s0, s, t, t', run, seen, h, key, call, signal);
    }
  }

  lemma NewChildLands(body: Body, s0: Sys, s: Sys, t: Tables, t': Tables, run: RunId, seen: Log, h: History, key: Key,
      call: Call, signal: Signal) returns (s': Sys, b: Branch)
    requires Begun(body, s0, s, t, run, seen, h, key, call) && call.kind.Child?
    requires ChildWrote(run, t, t', key, Failures(seen)[key], signal) && ChildRunId(run, key) !in t.rows
    ensures Lands(body, s0, s, s', t', run, seen, h, b, key, 0, signal)
  {
    hide Leads, KeysAt, CallsAt, Project, Tables.LogOf, OneCall, Mid, SourcesAnd, Decisions, Results, Failures;
    hide WasCancelled;
    CompletionsAreResults(s.log, key);
    var start := StepStarted(key, Child);
    var k := |t'.LogOf(run)| - |s.log|;
    s', b := s, Todo;
    if k > 0 {
      Announces(body, s0, s, seen, h, key, call);
      s' := Append(s, start);
      NotCancelledBy(s.log, start);
      assert start in s'.log;
      assert t'.LogOf(run) == s'.log;
    } else {
      assert t'.LogOf(run) == s.log;
    }
    if signal.Suspends? {
      Arms(body, s0, s', seen, h, key, call, 0);
      s', b := s'.(children := s'.children + {key}), Parked;
      MirrorsMore(s, t, run, s', t', {}, {key});
    } else {
      MirrorsMore(s, t, run, s', t', {}, {});
    }
  }

  /** A waker's step leaves the branch where it is. */
  lemma Settles(body: Body, s0: Sys, s: Sys, seen: Log, h: History, b: Branch, key: Key, e: Event)
    requires Leads(body, s0, Mid(s, seen, h, b)) && key in s.children && !IsCompleted(s.log, key)
    requires match e
             case StepCompleted(k, _) => k == key
             case StepFailed(k, _, attempt, willRetry) =>
               k == key && !willRetry && attempt == Failures(s.log)[key] + 1 && !IsFailed(s.log, key)
             case _ => false
    ensures Leads(body, s0, Mid(Append(s, e).(woken := s.woken + multiset{key}), seen, h, b))
  {
    hide Leads, Failures, IsCompleted, IsFailed;
    LeadsOn(body, s0, Mid(s, seen, h, b), if e.StepCompleted? then SettleDone(key, e.result)
        else SettleFailed(key, e.error));
  }

  lemma Observes(body: Body, s0: Sys, s: Sys, seen: Log, h: History, key: Key, call: Call)
    requires OneCall(body, h, key, call) && call.kind.Child? && Leads(body, s0, Mid(s, seen, h, Todo))
    requires Recorded(seen, key, Child).None? && !IsSealedLog(seen) && !WasCancelled(s.log) && key in Results(s.log)
    ensures Leads(body, s0, Mid(s, seen, h, Done(Results(s.log)[key])))
  {
    hide Leads, KeysAt, CallsAt, Recorded, Project, WasCancelled;
    CompletionsAreResults(s.log, key);
    BranchAt(body, s, seen, h, Todo, key, call);
    LeadsOn(body, s0, Mid(s, seen, h, Todo), Observe(0));
  }

  lemma ChildFails(body: Body, s0: Sys, s: Sys, seen: Log, h: History, key: Key, call: Call, error: Error)
    requires OneCall(body, h, key, call) && call.kind.Child? && Leads(body, s0, Mid(s, seen, h, Todo))
    requires Recorded(seen, key, Child).None? && !IsSealedLog(seen) && !WasCancelled(s.log) && IsFailed(s.log, key)
    ensures Leads(body, s0, Mid(s, seen, h, Dead(error, false)))
  {
    hide Leads, KeysAt, CallsAt, Recorded, Project, WasCancelled, IsFailed;
    BranchAt(body, s, seen, h, Todo, key, call);
    LeadsOn(body, s0, Mid(s, seen, h, Todo), Step.ChildFailed(0, error));
  }

  /** What settling a terminal child writes, and what its signal says about the log. */
  lemma EndedChildWrote(t: Tables, t': Tables, run: RunId, key: Key, spent: nat, signal: Signal)
    requires ChildRunId(run, key) in t.rows && t.rows[ChildRunId(run, key)].status.IsTerminal()
    requires ChildWrote(run, t, t', key, spent, signal) && !IsCompleted(t.LogOf(run), key)
    ensures var e, log, log' := InlineEvent(t, run, key, spent), t.LogOf(run), t'.LogOf(run);
      && (log' == log || (log' == log + [e] && (e.StepFailed? ==> !IsFailed(log, key))))
      && (signal.Got? ==> log' == log + [e] && e.StepCompleted? && signal.values == [e.result])
      && (signal.Throws? ==> IsFailed(log', key))
      && (signal.Got? || signal.Throws? || signal.Killed?)
  {
    hide ChildResult, ChildError;
    var e := InlineEvent(t, run, key, spent);
    AppliedLog(t, run, e);
    assert e in t.LogOf(run) + [e];
  }

  lemma ResultNow(log: Log, e: Event)
    requires e.StepCompleted?
    ensures e.stepKey in Results(log + [e]) && Results(log + [e])[e.stepKey] == e.result
  {
    AppendCounts(log, e);
  }

  /** The settle as a waker's step, then what the pass sees of it. */
  lemma EndedChildPath(body: Body, s0: Sys, s: Sys, seen: Log, h: History, key: Key, call: Call, e: Event,
      settles: bool,
      signal: Signal) returns (s': Sys, b: Branch)
    requires OneCall(body, h, key, call) && call.kind.Child? && Leads(body, s0, Mid(s, seen, h, Todo))
    requires Recorded(seen, key, Child).None? && !IsSealedLog(seen) && !WasCancelled(s.log)
    requires key in s.children && !IsCompleted(s.log, key)
    requires match e
             case StepCompleted(k, _) => k == key
             case StepFailed(k, _, attempt, willRetry) =>
               k == key && !willRetry && attempt == Failures(s.log)[key] + 1 && (settles ==> !IsFailed(s.log, key))
             case _ => false
    requires signal.Got? ==> settles && e.StepCompleted? && signal.values == [e.result]
    requires signal.Throws? ==> IsFailed(if settles then s.log + [e] else s.log, key)
    requires signal.Got? || signal.Throws? || signal.Killed?
    ensures Leads(body, s0, Mid(s', seen, h, b)) && Shows(signal, b)
    ensures s' == s.(log := if settles then s.log + [e] else s.log, woken := s'.woken)
  {
    hide Leads, KeysAt, CallsAt, Project, OneCall, Mid, Recorded, IsCompleted, IsFailed, WasCancelled;
    hide Results, Failures, Decisions, Opened, Completions, Resolutions;
    s', b := s, Todo;
    if settles {
      Settles(body, s0, s, seen, h, Todo, key, e);
      s' := Append(s, e).(woken := s.woken + multiset{key});
      NotCancelledBy(s.log, e);
    }
    if signal.Got? {
      ResultNow(s.log, e);
      Observes(body, s0, s', seen, h, key, call);
      b := Done(Results(s'.log)[key]);
    } else if signal.Throws? {
      ChildFails(body, s0, s', seen, h, key, call, signal.error);
      b := Dead(signal.error, false);
    }
  }

  lemma EndedChildLands(body: Body, s0: Sys, s: Sys, t: Tables, t': Tables, run: RunId, seen: Log, h: History, key: Key,
      call: Call, signal: Signal) returns (s': Sys, b: Branch)
    requires Begun(body, s0, s, t, run, seen, h, key, call) && call.kind.Child?
    requires ChildRunId(run, key) in t.rows && t.rows[ChildRunId(run, key)].status.IsTerminal()
    requires ChildWrote(run, t, t', key, Failures(seen)[key], signal)
    ensures Lands(body, s0, s, s', t', run, seen, h, b, key, 0, signal)
  {
    var spent := Failures(seen)[key];
    KnowsChild(s, t, run, key);
    EndedChildWrote(t, t', run, key, spent, signal);
    EndedChildSources(t, t', run, key, spent, signal);
    EventOfKey(t, run, key, spent);
    hide Leads, KeysAt, CallsAt, Project, OneCall, Mid, SourcesAnd, Decisions, Results, Failures, ChildWrote;
    hide InlineEvent, Opened, Completions, Resolutions;
    hide IsCompleted, IsFailed, WasCancelled, Tables.LogOf, Mirrors, Recorded;
    var e := InlineEvent(t, run, key, spent);
    s', b := EndedChildPath(body, s0, s, seen, h, key, call, e, t'.LogOf(run) != s.log, signal);
    MirrorsMore(s, t, run, s', t', {}, {});
  }

  lemma KnowsChild(s: Sys, t: Tables, run: RunId, key: Key)
    requires Mirrors(s, t, run) && ChildRunId(run, key) in t.rows && Recorded(s.log, key, Child).None?
    ensures key in s.children && !IsCompleted(s.log, key) && s.log == t.LogOf(run)
  {
    CompletionsAreResults(s.log, key);
  }

  lemma EndedChildSources(t: Tables, t': Tables, run: RunId, key: Key, spent: nat, signal: Signal)
    requires ChildRunId(run, key) in t.rows && t.rows[ChildRunId(run, key)].status.IsTerminal()
    requires ChildWrote(run, t, t', key, spent, signal)
    ensures SourcesAnd(t, t', run, {}, {})
  {
    hide SourcesAnd, InlineEvent, SettledInline;
  }

  lemma EventOfKey(t: Tables, run: RunId, key: Key, spent: nat)
    requires ChildRunId(run, key) in t.rows
    ensures match InlineEvent(t, run, key, spent)
            case StepCompleted(k, _) => k == key
            case StepFailed(k, _, attempt, willRetry) => k == key && !willRetry && attempt == spent + 1
            case _ => false
  {
  }

  lemma LiveLands(body: Body, s0: Sys, s: Sys, t: Tables, t': Tables, run: RunId, seen: Log, h: History, key: Key,
      call: Call, world: World, n: nat, made: nat, gates: map<Key, string>, signal: Signal) returns (s': Sys, b: Branch)
    requires Begun(body, s0, s, t, run, seen, h, key, call)
    requires LiveWrote(world, run, t, t', key, call, Failures(seen)[key], n, made, gates, signal)
    requires gates == Opened(s.log) && t.LogOf(run) <= t'.LogOf(run)
    ensures Lands(body, s0, s, s', t', run, seen, h, b, key, made, signal)
  {
    hide Begun, Lands, GateWrote, SleepWrote, ChildWrote, HandledWrote;
    match call.kind
    case Gate => s', b := GateLands(body, s0, s, t, t', run, seen, h, key, call, world, gates, signal);
    case Sleep => s', b := SleepLands(body, s0, s, t, t', run, seen, h, key, call, signal);
    case Child => s', b := ChildLands(body, s0, s, t, t', run, seen, h, key, call, signal);
    case _ => s', b := HandledLands(body, s0, s, t, t', run, seen, h, key, call, world, n, made, signal);
  }

  // ----- what a step leaves of the others -----

  predicate IsAbout(e: Event, key: Key) {
    (e.StepStarted? || e.StepCompleted? || e.StepFailed? || e.GateOpened? || e.GateResolved?) && e.stepKey == key
  }

  /** The log grew by events about one step. */
  ghost predicate GrewAbout(log: Log, log': Log, key: Key) {
    log <= log' && forall i :: |log| <= i < |log'| ==> IsAbout(log'[i], key)
  }

  lemma {:induction false} TriesAbout(world: World, key: Key, call: Call, first: nat, n: nat, rounds: nat)
    ensures forall i :: 0 <= i < |Tries(world, key, call, first, n, rounds)| ==>
              IsAbout(Tries(world, key, call, first, n, rounds)[i], key)
  {
    if rounds > 0 {
      TriesAbout(world, key, call, first, n, rounds - 1);
    }
  }

  lemma HandledAbout(world: World, log: Log, log': Log, key: Key, call: Call, first: nat, n: nat, rounds: nat,
      made: nat,
      signal: Signal)
    requires Tried(world, log, log', key, call, first, n, rounds, made, signal)
    ensures GrewAbout(log, log', key)
  {
    TriesAbout(world, key, call, first, n, rounds);
    hide Tries;
  }

  lemma ChildAbout(run: RunId, t: Tables, t': Tables, key: Key, spent: nat, signal: Signal)
    requires ChildWrote(run, t, t', key, spent, signal)
    ensures GrewAbout(t.LogOf(run), t'.LogOf(run), key)
  {
    if ChildRunId(run, key) in t.rows && t.rows[ChildRunId(run, key)].status.IsTerminal() {
      EventOfKey(t, run, key, spent);
      SettledLog(t, run, key, spent);
      hide SettledInline, InlineEvent;
    }
  }

  lemma SettledLog(t: Tables, run: RunId, key: Key, spent: nat)
    requires ChildRunId(run, key) in t.rows
    ensures var e, log := InlineEvent(t, run, key, spent), t.LogOf(run);
      && Appended(t, run, e).LogOf(run) == log + [e]
      && (SettledInline(t, run, key, spent).0.LogOf(run) == log
          || SettledInline(t, run, key, spent).0.LogOf(run) == log + [e])
  {
    hide ChildResult, ChildError, IsFailed, IsCompleted, ApplyRow;
  }

  lemma LiveWritesAbout(world: World, run: RunId, t: Tables, t': Tables, key: Key, call: Call, spent: nat, n: nat,
      made: nat, gates: map<Key, string>, signal: Signal)
    requires LiveWrote(world, run, t, t', key, call, spent, n, made, gates, signal)
    ensures GrewAbout(t.LogOf(run), t'.LogOf(run), key)
  {
    hide SameSources, SourcesAnd, ChildWrote, Tried, Tables.LogOf;
    match call.kind
    case Gate =>
    case Sleep =>
    case Child => ChildAbout(run, t, t', key, spent, signal);
    case _ =>
      if t' != t {
        var rounds :| Tried(world, t.LogOf(run), t'.LogOf(run), key, call, spent + 1, n, rounds, made, signal);
        HandledAbout(world, t.LogOf(run), t'.LogOf(run), key, call, spent + 1, n, rounds, made, signal);
      }
  }

  /** For the steps not asked for, the log says what it said at the start of the pass. */
  ghost predicate Untold(seen: Log, log: Log, asked: set<Key>) {
    forall key :: key !in asked ==>
      && Lookup(Results(log), key) == Lookup(Results(seen), key)
      && Lookup(Decisions(log), key) == Lookup(Decisions(seen), key)
      && Failures(log)[key] == Failures(seen)[key]
  }

  lemma {:induction false} StillUntold(seen: Log, log: Log, log': Log, asked: set<Key>, key: Key)
    requires Untold(seen, log, asked) && GrewAbout(log, log', key) && key in asked
    ensures Untold(seen, log', asked)
    ensures !WasCancelled(log) ==> !WasCancelled(log')
    decreases |log'|
  {
    if log' != log {
      StillUntold(seen, log, Front(log'), asked, key);
      OneMoreUntold(seen, Front(log'), asked, key, Last(log'));
      assert log' == Front(log') + [Last(log')];
    }
  }

  lemma OneMoreUntold(seen: Log, log: Log, asked: set<Key>, key: Key, e: Event)
    requires Untold(seen, log, asked) && IsAbout(e, key) && key in asked
    ensures Untold(seen, log + [e], asked)
    ensures !WasCancelled(log) ==> !WasCancelled(log + [e])
  {
    hide Results, Decisions, Failures, Opened, Completions, Resolutions;
    AppendCounts(log, e);
  }

  lemma UntoldWidens(seen: Log, log: Log, asked: set<Key>, key: Key)
    requires Untold(seen, log, asked)
    ensures Untold(seen, log, asked + {key})
  {
    hide Results, Decisions, Failures;
  }

  // ----- a whole pass -----

  /** The keys of a pass's handler calls. */
  function CallKeys(calls: seq<(Key, nat)>): multiset<Key> {
    if calls == [] then multiset{} else CallKeys(Front(calls)) + multiset{Last(calls).0}
  }

  lemma {:induction false} CallsAdd(calls: seq<(Key, nat)>, calls': seq<(Key, nat)>, key: Key, first: nat)
    requires calls <= calls' && CallsAttempts(calls', |calls|, key, first)
    ensures CallKeys(calls') == CallKeys(calls) + Times(key, |calls'| - |calls|)
    decreases |calls'|
  {
    if calls' != calls {
      CallsAdd(calls, Front(calls'), key, first);
    }
  }

  /** The system stands where the pass does: at the await after `h`. */
  ghost predicate Tracks(body: Body, s0: Sys, s: Sys, t: Tables, run: RunId, seen: Log, h: History, asked: set<Key>,
      calls: multiset<Key>) {
    && Leads(body, s0, AtAwait(body, s, seen, h)) && Mirrors(s, t, run)
    && !IsSealedLog(seen) && !WasCancelled(s.log) && Untold(seen, s.log, asked)
    && s.returned == s0.returned && s.invoked == s0.invoked + calls
  }

  /** A pass begins on an open run. */
  lemma TracksFrom(body: Body, s0: Sys, t: Tables, run: RunId)
    requires Mirrors(s0, t, run) && s0.pass.None?
    requires !IsSealedLog(t.LogOf(run)) && !WasCancelled(t.LogOf(run))
    ensures Tracks(body, s0, s0, t, run, t.LogOf(run), [], {}, multiset{})
  {
    hide Leads, Results, Decisions, Failures, Project, WasCancelled;
    LeadsNowhere(body, s0);
    LeadsOn(body, s0, s0, Begin);
  }

  /** A remembered step. */
  lemma TracksHit(body: Body, s0: Sys, s: Sys, t: Tables, run: RunId, seen: Log, h: History, asked: set<Key>,
      calls: multiset<Key>, key: Key, call: Call, value: Value)
    requires Tracks(body, s0, s, t, run, seen, h, asked, calls) && OneCall(body, h, key, call) && key !in asked
    requires Recorded(t.LogOf(run), key, call.kind) == Some(value)
    ensures Tracks(body, s0, s, t, run, seen, h + [[value]], asked + {key}, calls)
  {
    hide Leads, Results, Decisions, Failures, Project, WasCancelled, AtAwait, Mid, OneCall;
    MirrorsLog(s, t, run);
    AwaitsOne(body, s, seen, h, key, call);
    Hits(body, s0, s, seen, h, key, call, value);
    Advances(body, s0, s, seen, h, key, call, value);
    UntoldWidens(seen, s.log, asked, key);
  }

  /** A live step begins where the pass stands. */
  lemma TracksBegun(body: Body, s0: Sys, s: Sys, t: Tables, run: RunId, seen: Log, h: History, asked: set<Key>,
      calls: multiset<Key>, key: Key, call: Call)
    requires Tracks(body, s0, s, t, run, seen, h, asked, calls) && OneCall(body, h, key, call) && key !in asked
    requires Recorded(t.LogOf(run), key, call.kind).None?
    ensures Begun(body, s0, s, t, run, seen, h, key, call) && Failures(seen)[key] == Failures(t.LogOf(run))[key]
  {
    hide Leads, Results, Decisions, Failures, Project, WasCancelled, AtAwait, Mid, OneCall;
    MirrorsLog(s, t, run);
    AwaitsOne(body, s, seen, h, key, call);
  }

  /** The state a pass can be ended from, by its signal. */
  ghost predicate Stands(body: Body, s0: Sys, m: Sys, t: Tables, run: RunId, calls: multiset<Key>, signal: Signal) {
    && Leads(body, s0, m) && Mirrors(m, t, run) && m.pass.Some? && !m.pass.value.IsSealed()
    && m.returned == s0.returned && m.invoked == s0.invoked + calls
    && match signal
       case Returned(output) => CanFinish(body, m) && body(m.pass.value.history) == Return(output)
       case Throws(error) => CanFail(body, m, error)
       case Unavailable(error) => CanFail(body, m, error)
       case Diverged(_) => CanReject(body, m)
       case _ => true
  }

  /** A live step either takes the pass on to its next await or leaves it where it can be ended. */
  lemma TracksLive(body: Body, s0: Sys, s: Sys, t: Tables, t': Tables, run: RunId, seen: Log, h: History,
      asked: set<Key>,
      calls: multiset<Key>, key: Key, call: Call, world: World, n: nat, made: nat, gates: map<Key, string>,
          signal: Signal)
      returns (s': Sys, m: Sys)
    requires Tracks(body, s0, s, t, run, seen, h, asked, calls) && OneCall(body, h, key, call) && key !in asked
    requires Recorded(t.LogOf(run), key, call.kind).None? && gates == Opened(t.LogOf(run))
    requires LiveWrote(world, run, t, t', key, call, Failures(t.LogOf(run))[key], n, made, gates, signal)
    requires !signal.Returned? && !signal.Diverged?
    ensures signal.Got? ==> |signal.values| == 1
    ensures signal.Got? ==>
              Tracks(body, s0, s', t', run, seen, h + [signal.values], asked + {key}, calls + Times(key, made))
    ensures !signal.Got? ==> Stands(body, s0, m, t', run, calls + Times(key, made), signal)
  {
    hide Leads, Results, Decisions, Failures, Opened, Project, WasCancelled, AtAwait, OneCall, Begun, LiveWrote;
    hide GrewAbout;
    TracksBegun(body, s0, s, t, run, seen, h, asked, calls, key, call);
    MirrorsLog(s, t, run);
    LiveWritesAbout(world, run, t, t', key, call, Failures(seen)[key], n, made, gates, signal);
    GrewIsPrefix(t.LogOf(run), t'.LogOf(run), key);
    var b;
    s', b := LiveLands(body, s0, s, t, t', run, seen, h, key, call, world, n, made, gates, signal);
    m := Mid(s', seen, h, b);
    UntoldWidens(seen, s.log, asked, key);
    StillUntold(seen, s.log, t'.LogOf(run), asked + {key}, key);
    MirrorsLog(s', t', run);
    if signal.Got? {
      assert signal.values == [signal.values[0]];
      Advances(body, s0, s', seen, h, key, call, signal.values[0]);
    } else {
      MidMirrors(s', seen, h, b, t', run);
      if signal.Throws? || signal.Unavailable? {
        assert b in m.pass.value.branches;
      }
    }
  }

  lemma GrewIsPrefix(log: Log, log': Log, key: Key)
    requires GrewAbout(log, log', key)
    ensures log <= log'
  {
  }

  lemma MidMirrors(s: Sys, seen: Log, h: History, b: Branch, t: Tables, run: RunId)
    requires Mirrors(s, t, run)
    ensures Mirrors(Mid(s, seen, h, b), t, run)
  {
  }

  // ----- how a pass can be ended -----

  lemma AwaitMirrors(body: Body, s: Sys, seen: Log, h: History, t: Tables, run: RunId)
    requires Mirrors(s, t, run)
    ensures Mirrors(AtAwait(body, s, seen, h), t, run)
  {
  }

  lemma StandsReturned(body: Body, s0: Sys, s: Sys, t: Tables, run: RunId, seen: Log, h: History, a: Allocator,
      calls: multiset<Key>, output: Value)
    requires Tracks(body, s0, s, t, run, seen, h, a.requested, calls) && Position(body, h) == Some(a)
    requires body(h) == Return(output) && Results(t.LogOf(run)).Keys <= a.requested
    ensures Stands(body, s0, AtAwait(body, s, seen, h), t, run, calls, Returned(output))
  {
    hide Leads, Results, Decisions, Failures, Project, WasCancelled, Position;
    MirrorsLog(s, t, run);
    AwaitMirrors(body, s, seen, h, t, run);
    assert RequestedBefore(body, h) == a.requested;
    forall key | key in Results(seen) ensures key in a.requested {
      assert key in a.requested || Lookup(Results(s.log), key) == Lookup(Results(seen), key);
    }
  }

  lemma StandsLeftover(body: Body, s0: Sys, s: Sys, t: Tables, run: RunId, seen: Log, h: History, a: Allocator,
      calls: multiset<Key>, key: Key)
    requires Tracks(body, s0, s, t, run, seen, h, a.requested, calls) && Position(body, h) == Some(a)
    requires body(h).Return? && key in Results(t.LogOf(run)) && key !in a.requested
    ensures Stands(body, s0, AtAwait(body, s, seen, h), t, run, calls, Diverged(key))
  {
    hide Leads, Results, Decisions, Failures, Project, WasCancelled, Position;
    MirrorsLog(s, t, run);
    AwaitMirrors(body, s, seen, h, t, run);
    assert RequestedBefore(body, h) == a.requested;
    assert Lookup(Results(s.log), key) == Lookup(Results(seen), key);
    assert key in Results(seen).Keys;
  }

  lemma StandsRaised(body: Body, s0: Sys, s: Sys, t: Tables, run: RunId, seen: Log, h: History, asked: set<Key>,
      calls: multiset<Key>, error: Error)
    requires Tracks(body, s0, s, t, run, seen, h, asked, calls) && body(h) == Raise(error)
    ensures Stands(body, s0, AtAwait(body, s, seen, h), t, run, calls, Throws(error))
  {
    hide Leads, Untold, Project, WasCancelled;
    AwaitMirrors(body, s, seen, h, t, run);
  }

  lemma StandsClashed(body: Body, s0: Sys, s: Sys, t: Tables, run: RunId, seen: Log, h: History, asked: set<Key>,
      calls: multiset<Key>, key: Key)
    requires Tracks(body, s0, s, t, run, seen, h, asked, calls) && body(h).Await? && KeysAt(body, h) == Clash(key)
    ensures Stands(body, s0, AtAwait(body, s, seen, h), t, run, calls, Diverged(key))
  {
    hide Leads, Untold, Project, WasCancelled;
    AwaitMirrors(body, s, seen, h, t, run);
  }

  /** The pass over, the system has come from `s0` to `s1`, and mirrors the tables again. */
  ghost predicate Refined(body: Body, s0: Sys, s1: Sys, t: Tables, run: RunId, calls: multiset<Key>) {
    && Leads(body, s0, s1) && Mirrors(s1, t, run) && s1.pass.None? && s1.invoked == s0.invoked + calls
  }

  /** Nothing a run may wait on has come or gone. */
  ghost predicate SameWaits(t: Tables, t': Tables) {
    t'.timers == t.timers && t'.rows.Keys == t.rows.Keys
  }

  lemma WaitsAreSources(t: Tables, t': Tables, run: RunId)
    requires SameWaits(t, t')
    ensures SourcesAnd(t, t', run, {}, {})
  {
  }

  /** A pass that parks, dies or goes before its final event is a cut one. */
  lemma CutRefines(body: Body, s0: Sys, m: Sys, t: Tables, t': Tables, run: RunId, calls: multiset<Key>, signal: Signal)
      returns (s1: Sys)
    requires Stands(body, s0, m, t, run, calls, signal) && SameWaits(t, t') && t'.LogOf(run) == t.LogOf(run)
    ensures Refined(body, s0, s1, t', run, calls) && s1.returned == s0.returned
  {
    hide Leads, SourcesAnd, CanFinish, CanFail, CanReject, InFlight, Tears;
    LeadsOn(body, s0, m, Cut);
    s1 := DoCut(body, m);
    MirrorsLog(m, t, run);
    WaitsAreSources(t, t', run);
    MirrorsMore(m, t, run, s1, t', {}, {});
  }

  /** The step that ends a pass with its final event. */
  function EndStep(signal: Signal, e: Event): Step
    requires e.RunCompleted? || e.RunFailed?
  {
    if e.RunCompleted? then Finish(e.outputRef)
    else if signal.Diverged? then Reject(e.failedStep)
    else FailRun(e.error, e.failedStep)
  }

  /** What ends a pass by its signal. */
  predicate EndsBy(signal: Signal, e: Event) {
    match signal
    case Returned(_) => e.RunCompleted?
    case Throws(error) => e.RunFailed? && e.error == error
    case Unavailable(error) => e.RunFailed? && e.error == error
    case Diverged(_) => e.RunFailed? && e.error == map["type" := "NonDeterminismError"]
    case _ => false
  }

  lemma EndRefines(body: Body, s0: Sys, m: Sys, t: Tables, t': Tables, run: RunId, calls: multiset<Key>,
      signal: Signal, e: Event)
      returns (s1: Sys)
    requires Stands(body, s0, m, t, run, calls, signal) && EndsBy(signal, e)
    requires SameWaits(t, t') && t'.LogOf(run) == t.LogOf(run) + [e]
    ensures Refined(body, s0, s1, t', run, calls)
    ensures s1.returned == if signal.Returned? then s0.returned + [signal.output] else s0.returned
  {
    hide Leads, SourcesAnd, CanFinish, CanFail, CanReject, InFlight;
    LeadsOn(body, s0, m, EndStep(signal, e));
    s1 := Do(body, m, EndStep(signal, e));
    MirrorsLog(m, t, run);
    WaitsAreSources(t, t', run);
    MirrorsMore(m, t, run, s1, t', {}, {});
  }
}
