/** The context handed to a workflow body: replayed memory of the log, and the live path of each
    step kind, one commit after another. Any commit may be the last before the process dies. */
module Context {
  import opened Prelude
  import opened Keys
  import opened Events
  import opened Program
  import opened Durable
  import opened Tables
  import opened Settle
  import opened Database
  import opened Frontier
  import opened Commits
  import opened LiveSteps
  import opened ReplayEnds
  import opened Refinement

  lemma {:induction false} ClashStays(a: Allocator, calls: seq<Call>, i: nat, key: Key)
    requires i <= |calls| && AllocateAll(a, calls[..i]) == Clash(key)
    ensures AllocateAll(a, calls) == Clash(key)
    decreases |calls|
  {
    if i == |calls| {
      assert calls[..i] == calls;
    } else {
      assert Front(calls)[..i] == calls[..i];
      ClashStays(a, Front(calls), i, key);
    }
  }

  /** What a context takes from the log at the start of its pass. */
  method ReadMemory(events: Log)
    returns (memoized: map<Key, Value>, resolved: map<Key, Value>, gates: map<Key, string>, failed: multiset<Key>)
    ensures Remembers(events, memoized, resolved, gates) && failed == Failures(events)
  {
    memoized, resolved, gates, failed := map[], map[], map[], multiset{};
    NothingRecorded();
    hide Results, Decisions, Opened, Failures, Completions, Resolutions;
    for i := 0 to |events|
      invariant Remembers(events[..i], memoized, resolved, gates) && failed == Failures(events[..i])
    {
      AppendCounts(events[..i], events[i]);
      assert events[..i + 1] == events[..i] + [events[i]];
      match events[i] {
      case StepCompleted(key, result) =>
        memoized := memoized[key := result];
      case StepFailed(key, _, _, _) =>
        failed := failed + multiset{key};
      case GateOpened(key, gateKey, _) =>
        gates := gates[key := gateKey];
      case GateResolved(key, _, decision, _) =>
        resolved := resolved[key := DecisionValue(decision)];
      case _ =>
      }
    }
    assert events[..|events|] == events;
  }

  /** Where an open pass stands in the transition system: the states it began from and has reached,
      the log it began with, and the steps it has asked for. */
  datatype Place = Place(start: Sys, sys: Sys, seen: Log, asked: set<Key>)

  /** One awaited step, remembered or live, takes the place along. */
  lemma {:induction false} Follows(body: Body, h: History, key: Key, call: Call, place: Place, t: Tables, t': Tables,
      calls: seq<(Key, nat)>, calls': seq<(Key, nat)>, world: World, gates: map<Key, string>, s: Signal, run: RunId,
      failed: multiset<Key>) returns (next: Place)
    requires OneCall(body, h, key, call) && key !in place.asked && failed == Failures(place.seen)
               && gates == Opened(t.LogOf(run))
    requires Tracks(body, place.start, place.sys, t, run, place.seen, h, place.asked, CallKeys(calls))
    requires StepEnded(false, body, run, t, t', h, key, call.kind, s)
    requires calls <= calls' && CallsAttempts(calls', |calls|, key, failed[key] + 1)
    requires Recorded(t.LogOf(run), key, call.kind).Some? ==> calls' == calls
    requires Recorded(t.LogOf(run), key, call.kind).None? ==>
               LiveWrote(world, run, t, t', key, call, failed[key], |calls|, |calls'| - |calls|, gates, s)
    ensures s.Got? ==> Tracks(body, place.start, next.sys, t', run, place.seen, h + [s.values], place.asked + {key},
              CallKeys(calls'))
    ensures s.Got? ==> next == place.(sys := next.sys, asked := place.asked + {key})
    ensures !s.Got? ==> Stands(body, place.start, next.sys, t', run, CallKeys(calls'), s)
  {
    hide Tracks, Stands, LiveWrote, Results, Decisions, Failures, Opened, Stepped, OneCall, CallKeys;
    CallsAdd(calls, calls', key, failed[key] + 1);
    var recorded := Recorded(t.LogOf(run), key, call.kind);
    if recorded.Some? {
      TracksHit(body, place.start, place.sys, t, run, place.seen, h, place.asked, CallKeys(calls), key, call,
          recorded.value);
      next := place.(asked := place.asked + {key});
    } else {
      SameFailures(body, place, t, run, h, CallKeys(calls), key);
      NoEndYet(body, run, t, t', h, key, call.kind, s);
      var sys, m := TracksLive(body, place.start, place.sys, t, t', run, place.seen, h, place.asked, CallKeys(calls),
                               key, call, world, |calls|, |calls'| - |calls|, gates, s);
      next := Place(place.start, if s.Got? then sys else m, place.seen, place.asked + {key});
    }
  }

  lemma SameFailures(body: Body, place: Place, t: Tables, run: RunId, h: History, calls: multiset<Key>, key: Key)
    requires Tracks(body, place.start, place.sys, t, run, place.seen, h, place.asked, calls) && key !in place.asked
    ensures Failures(place.seen)[key] == Failures(t.LogOf(run))[key]
  {
  }

  lemma NoEndYet(body: Body, run: RunId, t: Tables, t': Tables, h: History, key: Key, kind: StepKind, s: Signal)
    requires Stepped(body, run, t, t', h, key, kind, s)
    ensures !s.Returned? && !s.Diverged?
  {
  }

  class WorkflowContext {
    const run: RunId
    const db: Session
    const world: World
    const sealed: bool
    var memoized: map<Key, Value>
    var gatesResolved: map<Key, Value>
    var gatesOpened: map<Key, string>
    var failedCounts: multiset<Key>
    var ordinals: map<string, nat>
    var requested: set<Key>
    var lastStepKey: Option<Key>
    var calls: seq<(Key, nat)>       // handler calls made: step and attempt

    constructor (run: RunId, db: Session, world: World, sealed: bool, events: Log)
      ensures this.run == run && this.db == db && this.world == world && this.sealed == sealed
      ensures calls == [] && lastStepKey == None
      ensures ordinals == map[] && requested == {}
      ensures Remembers(events, memoized, gatesResolved, gatesOpened)
      ensures failedCounts == Failures(events)
    {
      this.run, this.db, this.world, this.sealed := run, db, world, sealed;
      ordinals, requested, lastStepKey, calls := map[], {}, None, [];
      new;
      memoized, gatesResolved, gatesOpened, failedCounts := ReadMemory(events);
    }

    function Here(): Tables
      reads this, db
    {
      db.View()
    }

    /** The replayed memory is that of the log. */
    ghost predicate Current()
      reads this, db
    {
      Remembers(Here().LogOf(run), memoized, gatesResolved, gatesOpened)
    }

    // ----- step keys -----

    method Allocate(name: string) returns (key: Key, isNew: bool)
      modifies this`ordinals, this`requested, this`lastStepKey
      ensures match Program.Allocate(Allocator(old(ordinals), old(requested)), name)
              case Clash(clash) => !isNew && key == clash
              case Allocated(keys, after) =>
                isNew && keys == [key] && after == Allocator(ordinals, requested) && lastStepKey == Some(key)
    {
      var ordinal := (if name in ordinals then ordinals[name] else 0) + 1;
      ordinals := ordinals[name := ordinal];
      key := StepKey(name, ordinal);
      if key in requested {
        return key, false;  // no way by ordinals alone: some label spells another's numbered key
      }
      requested := requested + {key};
      lastStepKey := Some(key);
      isNew := true;
    }

    /** Keys for the steps of one await, in list order, as their awaitables are constructed. */
    method AllocateList(calls: seq<Call>) returns (keys: seq<Key>, clash: Option<Key>)
      modifies this`ordinals, this`requested, this`lastStepKey
      ensures match AllocateAll(Allocator(old(ordinals), old(requested)), calls)
              case Clash(key) => clash == Some(key)
              case Allocated(ks, after) => clash.None? && keys == ks && after == Allocator(ordinals, requested)
      ensures clash.None? && calls != [] ==> lastStepKey == Some(Last(keys))
    {
      keys := [];
      ghost var a := Allocator(ordinals, requested);
      for i := 0 to |calls|
        invariant AllocateAll(a, calls[..i]) == Allocated(keys, Allocator(ordinals, requested))
        invariant i > 0 ==> keys != [] && lastStepKey == Some(Last(keys))
      {
        assert Front(calls[..i + 1]) == calls[..i];
        var key, isNew := Allocate(calls[i].name);
        if !isNew {
          ClashStays(a, calls, i + 1, key);
          return keys, Some(key);
        }
        keys := keys + [key];
      }
      assert calls[..|calls|] == calls;
      clash := None;
    }

    // ----- commits -----

    /** An event, then the row update that keeps the projection convergent with it. */
    method Append(e: Event) returns (alive: bool)
      modifies db
      ensures alive ==> db.budget + 2 == old(db.budget) && Here() == Applied(old(Here()), run, e)
      ensures !alive ==> db.budget == 0 && (Here() == old(Here()) || Here() == Appended(old(Here()), run, e))
      ensures Here().LogOf(run) == old(Here()).LogOf(run) + [e]
                || (!alive && Here().LogOf(run) == old(Here()).LogOf(run))
      ensures SameSources(old(Here()), Here(), run)
    {
      AppendedSources(Here(), run, e);
      AppliedLog(Here(), run, e);
      alive := db.Record(run, e);
    }

    method InsertTimer(kind: TimerKind, key: Key) returns (alive: bool, ghost id: nat)
      modifies db
      ensures alive ==> (db.budget + 1 == old(db.budget) && id !in old(Here()).timers
                && Here() == TimerAdded(old(Here()), id, TimerRow(run, key, kind)))
      ensures !alive ==> db.budget == 0 && Here() == old(Here())
      ensures !kind.SleepTimer? ==> SameSources(old(Here()), Here(), run)
      ensures kind.SleepTimer? && alive ==> SourcesAnd(old(Here()), Here(), run, {key}, {})
      ensures Here().LogOf(run) == old(Here()).LogOf(run)
    {
      TimerSources(Here(), run, key, kind);
      id := 0;
      alive := db.Spend();
      if alive {
        ghost var t := Here();
        id := db.InsertTimer(TimerRow(run, key, kind), {});
        TimerLog(t, run, id, TimerRow(run, key, kind));
      }
    }

    // ----- handler steps -----

    method RunHandlerStep(key: Key, call: Call, ghost body: Body, ghost h: History) returns (s: Signal)
      requires IsHandled(call.kind) && Current()
      requires Recorded(Here().LogOf(run), key, call.kind).None? && !sealed ==>
                 Faces(body, Here(), run, h, key, call.kind)
      modifies this`calls, this`memoized, db
      ensures StepEnded(sealed, body, run, old(Here()), Here(), h, key, call.kind, s)
      ensures s.Got? ==> Current()
      ensures s.Unavailable? <==>
                !sealed && Recorded(old(Here()).LogOf(run), key, call.kind).None? && call.kind !in world.handlers
      ensures old(calls) <= calls && CallsAttempts(calls, |old(calls)|, key, failedCounts[key] + 1)
      ensures Recorded(old(Here()).LogOf(run), key, call.kind).None? && !sealed ==>
                HandledWrote(world, run, old(Here()), Here(), key, call, failedCounts[key] + 1, |old(calls)|,
                    |calls| - |old(calls)|, s)
      ensures sealed || Recorded(old(Here()).LogOf(run), key, call.kind).Some? ==> calls == old(calls)
      ensures sealed ==> db.budget == old(db.budget) && Current()
      ensures db.budget <= old(db.budget) && (Recorded(old(Here()).LogOf(run), key, call.kind).None? && s.Got? ==>
                db.budget < old(db.budget))
    {
      hide Tried, Stepped, SameSources, Results, Decisions, Opened, Tidy, FrontierAt;
      if key in memoized {
        return Got([memoized[key]]);
      }
      if sealed {
        return Diverged(key);
      }
      if call.kind !in world.handlers {
        LacksHandlerSteps(body, run, Here(), h, key, call.kind);
        return Unavailable(UnavailableError(call.kind));
      }
      ghost var t0, n := Here(), |calls|;
      ghost var rounds;
      s, rounds := Checkpointed(key, call, body, h);
      TriedIsHandled(world, t0.LogOf(run), Here().LogOf(run), key, call, failedCounts[key] + 1, n, rounds,
        |calls| - n, s);
    }

    method Checkpointed(key: Key, call: Call, ghost body: Body, ghost h: History) returns (s: Signal, ghost rounds: nat)
      requires IsHandled(call.kind) && Current() && Faces(body, Here(), run, h, key, call.kind)
      modifies this`calls, this`memoized, db
      ensures old(calls) <= calls
      ensures Stepped(body, run, old(Here()), Here(), h, key, call.kind, s)
      ensures Tried(world, old(Here()).LogOf(run), Here().LogOf(run), key, call, failedCounts[key] + 1, |old(calls)|,
                    rounds, |calls| - |old(calls)|, s)
      ensures CallsAttempts(calls, |old(calls)|, key, failedCounts[key] + 1) && SameSources(old(Here()), Here(), run)
      ensures s.Got? ==> Current()
      ensures db.budget <= old(db.budget) && (s.Got? ==> db.budget < old(db.budget))
    {
      hide Going, Faces, Stepped, Remembers, Tables.LogOf, SoFar, Tried, IsTimed;
      ghost var t0 := Here();
      GoesFrom(body, t0, run, h, key, call.kind);
      ghost var n := |calls|;
      var first: nat := failedCounts[key] + 1;
      NoTries(world, t0.LogOf(run), key, call, first, n);
      var attempt := first;
      var again := true;
      rounds, s := 0, Killed;
      while again
        invariant db.budget <= old(db.budget) && first <= attempt && rounds == attempt - first
        invariant old(calls) <= calls && CallsAttempts(calls, n, key, first) && SameSources(t0, Here(), run)
        invariant again ==> Current() && Going(body, t0, Here(), run, h, key, call.kind)
        invariant again ==>
                    |calls| == n + rounds && SoFar(world, t0.LogOf(run), Here().LogOf(run), key, call, first, n, rounds)
        invariant !again ==> Stepped(body, run, t0, Here(), h, key, call.kind, s)
        invariant !again ==> Tried(world, t0.LogOf(run), Here().LogOf(run), key, call, first, n, rounds, |calls| - n, s)
        invariant !again && s.Got? ==> Current() && db.budget < old(db.budget)
        decreases db.budget, again
      {
        s, again := Attempt(key, call, attempt, body, h, t0, n, rounds);
        if again {
          attempt, rounds := attempt + 1, rounds + 1;
        }
      }
    }

    /** One try: the step is started and its handler called; an answer is checkpointed, a failure
        recorded and, when worth a retry, backed off in process or on a durable timer. */
    method Attempt(key: Key, call: Call, attempt: nat, ghost body: Body, ghost h: History, ghost t0: Tables,
        ghost n: nat, ghost rounds: nat)
      returns (s: Signal, again: bool)
      requires IsHandled(call.kind) && Current() && Going(body, t0, Here(), run, h, key, call.kind)
      requires |calls| == n + rounds && attempt >= rounds
      requires SoFar(world, t0.LogOf(run), Here().LogOf(run), key, call, attempt - rounds, n, rounds)
      modifies this`calls, this`memoized, db
      ensures calls == old(calls) + [(key, attempt)] || (!again && calls == old(calls))
      ensures SameSources(old(Here()), Here(), run)
      ensures db.budget <= old(db.budget) && (again || s.Got? ==> db.budget < old(db.budget))
      ensures again ==> Current() && Going(body, t0, Here(), run, h, key, call.kind)
      ensures again ==> SoFar(world, t0.LogOf(run), Here().LogOf(run), key, call, attempt - rounds, n, rounds + 1)
      ensures !again ==> Stepped(body, run, t0, Here(), h, key, call.kind, s)
      ensures !again ==>
                Tried(world, t0.LogOf(run), Here().LogOf(run), key, call, attempt - rounds, n, rounds, |calls| - n, s)
      ensures !again && s.Got? ==> Current()
    {
      hide Results, Decisions, Opened, Failures, Completions, Resolutions, Project, Waits, RestsAs, IsTimed;
      hide Going, Faces, Stepped, StepInSync, Remembers, Tables.LogOf, RowApplied, TimerAdded, SoFar, Tried;
      hide Tries, SameSources;
      SourcesStay(Here(), run);
      ghost var t := Here();
      ghost var first := attempt - rounds;
      var start := StepStarted(key, call.kind);
      LastTry(world, t0.LogOf(run), t.LogOf(run), key, call, first, n, rounds, OnRetry, WaitingTimer);
      HandledNeverWaits(t, run, key, call.kind);
      StartGoes(body, t0, t, run, h, key, call.kind);
      StopsGoing(body, t0, t, run, h, key, call.kind);
      StopsGoing(body, t0, Appended(t, run, start), run, h, key, call.kind);
      RemembersMore(t, run, start, memoized, gatesResolved, gatesOpened);
      var alive := Append(start);
      if !alive {
        return Killed, false;
      }
      calls := calls + [(key, attempt)];
      match world.reply(|calls| - 1)
      case Breaks(error, retryable) =>
        ghost var t1 := Here();
        s, again := Fail(key, call, attempt, error, retryable, body, h, t0);
        SourcesThen(t, t1, Here(), run);
        if again {
          OneMoreTry(world, t0.LogOf(run), t.LogOf(run), key, call, first, n, rounds);
        }
      case Answers(value) =>
        ghost var t1 := t;
        t := Here();
        var e := StepCompleted(key, value);
        RemembersMore(t, run, e, memoized, gatesResolved, gatesOpened);
        RecordSteps(body, t0, t, run, h, key, call.kind, e, value);
        StopsGoing(body, t0, t, run, h, key, call.kind);
        alive := Append(e);
        SourcesThen(t1, t, Here(), run);
        if !alive {
          return Killed, false;
        }
        memoized := memoized[key := value];
        return Got([value]), false;
    }

    method Fail(key: Key, call: Call, attempt: nat, error: Error, retryable: bool, ghost body: Body,
        ghost h: History, ghost t0: Tables)
      returns (s: Signal, again: bool)
      requires IsHandled(call.kind) && Current() && Going(body, t0, Here(), run, h, key, call.kind)
      requires run in Here().rows && StepInSync(Here(), run)
      modifies db
      ensures db.budget <= old(db.budget)
      ensures SameSources(old(Here()), Here(), run)
      ensures again ==> Current() && Going(body, t0, Here(), run, h, key, call.kind) && world.inProcessBackoff
      ensures !again ==> Stepped(body, run, t0, Here(), h, key, call.kind, s) && (s.Killed? || s.Throws? || s.Suspends?)
      ensures s.Throws? && !again ==> s.error == error && !(attempt < call.maxAttempts && retryable)
      ensures again ==> attempt < call.maxAttempts && retryable
      ensures s.Suspends? && !again ==> attempt < call.maxAttempts && retryable && !world.inProcessBackoff
      ensures s.Suspends? && !again ==> s == Suspends(key, OnRetry, WaitingTimer)
      ensures again || !s.Killed? ==> (
        var e := StepFailed(key, error, attempt, attempt < call.maxAttempts && retryable);
        Here().LogOf(run) == old(Here()).LogOf(run) + [e])
      ensures !again && s.Killed? ==> (
        var e := StepFailed(key, error, attempt, attempt < call.maxAttempts && retryable);
        Here().LogOf(run) == old(Here()).LogOf(run) || Here().LogOf(run) == old(Here()).LogOf(run) + [e])
    {
      hide Results, Decisions, Opened, Failures, Completions, Resolutions, Project, Waits, RestsAs, IsTimed;
      hide Going, Faces, Stepped, StepInSync, Remembers, Tables.LogOf, RowApplied, TimerAdded, SameSources;
      ghost var t := Here();
      var willRetry := attempt < call.maxAttempts && retryable;
      var e := StepFailed(key, error, attempt, willRetry);
      HandledNeverWaits(t, run, key, call.kind);
      RemembersMore(t, run, e, memoized, gatesResolved, gatesOpened);
      FailGoes(body, t0, t, run, h, key, call.kind, e);
      StopsGoing(body, t0, t, run, h, key, call.kind);
      StopsGoing(body, t0, Appended(t, run, e), run, h, key, call.kind);
      StopsGoing(body, t0, Applied(t, run, e), run, h, key, call.kind);
      FailureRecorded(t, run, e);
      ThrowsGoing(body, t0, Applied(t, run, e), run, h, key, call.kind, error);
      var alive := Append(e);
      if !alive {
        return Killed, false;
      }
      if !willRetry {
        return Throws(error), false;
      }
      if world.inProcessBackoff {
        return Killed, true;
      }
      ghost var t1 := t;
      t := Here();
      ghost var id;
      alive, id := InsertTimer(RetryTimer, key);
      SourcesThen(t1, t, Here(), run);
      if !alive {
        return Killed, false;
      }
      TimerGoes(body, t0, t, run, h, key, call.kind, TimerRow(run, key, RetryTimer), id);
      ParksGoing(body, t0, Here(), run, h, key, call.kind, OnRetry);
      return Suspends(key, OnRetry, WaitingTimer), false;
    }

    // ----- gates -----

    method RunGate(key: Key, call: Call, ghost body: Body, ghost h: History) returns (s: Signal)
      requires call.kind.Gate? && Current()
      requires Recorded(Here().LogOf(run), key, Gate).None? && !sealed ==> Faces(body, Here(), run, h, key, Gate)
      modifies this`gatesOpened, this`gatesResolved, db
      ensures StepEnded(sealed, body, run, old(Here()), Here(), h, key, Gate, s)
      ensures Recorded(old(Here()).LogOf(run), key, Gate).None? && !sealed ==>
                GateWrote(world, run, old(Here()), Here(), key, call, old(gatesOpened), s)
      ensures s.Got? ==> Current()
      ensures sealed ==> db.budget == old(db.budget) && Current()
      ensures !sealed && Recorded(old(Here()).LogOf(run), key, Gate).None?
                && Resting(world, old(Here()), run, key, Gate) ==>
                Here() == old(Here()) && s.Suspends?
      ensures db.budget <= old(db.budget) && (Recorded(old(Here()).LogOf(run), key, Gate).None? && s.Got? ==>
                db.budget < old(db.budget))
    {
      if key in gatesResolved {
        return Got([gatesResolved[key]]);
      }
      if sealed {
        return Diverged(key);
      }
      s := OpenGate(key, call, body, h);
    }

    method AnnounceGate(key: Key, call: Call, ghost body: Body, ghost h: History, ghost t0: Tables)
      returns (alive: bool)
      requires Current() && t0 == Here() && Going(body, t0, t0, run, h, key, Gate)
      requires !Waits(t0, run, key, Gate)
      modifies this`gatesOpened, db
      ensures alive ==> (Current() && Going(body, t0, Here(), run, h, key, Gate) && key in gatesOpened
                && db.budget < old(db.budget))
      ensures alive ==> run in Here().rows && StepInSync(Here(), run) && RestsAs(Here(), run, WaitingGate)
      ensures SameSources(t0, Here(), run)
      ensures t0.LogOf(run) <= Here().LogOf(run) <= t0.LogOf(run) + Announcement(world, key, call)
      ensures alive ==> Here().LogOf(run) == t0.LogOf(run) + Announcement(world, key, call)
      ensures var opening := [StepStarted(key, Gate), GateOpened(key, call.name, world.artifact(key))];
              alive ==> Here().LogOf(run) == t0.LogOf(run) + opening
      ensures alive ==> if world.hasTimeout(key) && !world.autoApprove then IsTimed(Here(), run, key, GateTimeout)
                        else Here().timers == t0.timers
      ensures alive ==> gatesOpened == old(gatesOpened)[key := call.name]
      ensures !alive ==> Stepped(body, run, t0, Here(), h, key, Gate, Killed)
      ensures db.budget <= old(db.budget)
    {
      hide Results, Decisions, Opened, Failures, Completions, Resolutions, Project, Waits, RestsAs, IsTimed;
      hide Going, Faces, Stepped, StepInSync, Remembers, Tables.LogOf, RowApplied, TimerAdded, SameSources;
      StopsGoing(body, t0, t0, run, h, key, Gate);
      var start := StepStarted(key, Gate);
      StartGoes(body, t0, t0, run, h, key, Gate);
      StopsGoing(body, t0, Appended(t0, run, start), run, h, key, Gate);
      RemembersMore(t0, run, start, memoized, gatesResolved, gatesOpened);
      alive := Append(start);
      if !alive {
        return false;
      }
      ghost var t := Here();
      var open := GateOpened(key, call.name, world.artifact(key));
      AppliedTimers(t0, run, start);
      AppliedTimers(t, run, open);
      OpenGoes(body, t0, t, run, h, key, open);
      StopsGoing(body, t0, t, run, h, key, Gate);
      StopsGoing(body, t0, Appended(t, run, open), run, h, key, Gate);
      RemembersMore(t, run, open, memoized, gatesResolved, gatesOpened);
      alive := Append(open);
      SourcesThen(t0, t, Here(), run);
      if !alive {
        return false;
      }
      gatesOpened := gatesOpened[key := call.name];
      if world.hasTimeout(key) && !world.autoApprove {
        t := Here();
        alive := ArmTimeout(key, body, h, t0);
        SourcesThen(t0, t, Here(), run);
      }
    }

    method ArmTimeout(key: Key, ghost body: Body, ghost h: History, ghost t0: Tables) returns (alive: bool)
      requires Current() && Going(body, t0, Here(), run, h, key, Gate)
      requires run in Here().rows && StepInSync(Here(), run) && RestsAs(Here(), run, WaitingGate)
      modifies db
      ensures db.budget <= old(db.budget) && Here().LogOf(run) == old(Here()).LogOf(run)
                && SameSources(old(Here()), Here(), run)
      ensures alive ==> Current() && Going(body, t0, Here(), run, h, key, Gate)
      ensures alive ==> run in Here().rows && StepInSync(Here(), run) && RestsAs(Here(), run, WaitingGate)
      ensures alive ==> IsTimed(Here(), run, key, GateTimeout)
      ensures !alive ==> Stepped(body, run, t0, Here(), h, key, Gate, Killed)
    {
      hide Results, Decisions, Opened, Project, Waits, RestsAs, IsTimed, Going, Stepped, StepInSync, Remembers;
      ghost var t := Here();
      StopsGoing(body, t0, t, run, h, key, Gate);
      ghost var id;
      alive, id := InsertTimer(GateTimeout, key);
      if alive {
        TimerGoes(body, t0, t, run, h, key, Gate, TimerRow(run, key, GateTimeout), id);
        RemembersTimer(t, run, id, TimerRow(run, key, GateTimeout), memoized, gatesResolved, gatesOpened);
      }
    }

    method OpenGate(key: Key, call: Call, ghost body: Body, ghost h: History) returns (s: Signal)
      requires Current() && Faces(body, Here(), run, h, key, Gate)
      modifies this`gatesOpened, this`gatesResolved, db
      ensures Stepped(body, run, old(Here()), Here(), h, key, Gate, s)
      ensures s.Got? ==> Current() && db.budget < old(db.budget)
      ensures db.budget <= old(db.budget)
      ensures Resting(world, old(Here()), run, key, Gate) ==> Here() == old(Here()) && s.Suspends?
      ensures GateWrote(world, run, old(Here()), Here(), key, call, old(gatesOpened), s)
      ensures s.Suspends? && key !in old(gatesOpened) ==>
                var opening := [StepStarted(key, Gate), GateOpened(key, call.name, world.artifact(key))];
                Here().LogOf(run) == old(Here()).LogOf(run) + opening
      ensures s.Suspends? && key !in old(gatesOpened) && world.hasTimeout(key) ==>
                IsTimed(Here(), run, key, GateTimeout)
      ensures s.Got? ==> s.values == ["approved"]
      ensures var named := if key in old(gatesOpened) then old(gatesOpened)[key] else call.name;
        s.Got? ==>
          Here().LogOf(run) != [] && Last(Here().LogOf(run)) == GateResolved(key, named, Approved, "auto")
    {
      hide Results, Decisions, Opened, Failures, Completions, Resolutions, Project, Waits, RestsAs, IsTimed;
      hide Going, Faces, Stepped, StepInSync, Remembers, Tables.LogOf, RowApplied, TimerAdded, SameSources;
      SourcesStay(Here(), run);
      ghost var t0 := Here();
      GoesFrom(body, t0, run, h, key, Gate);
      StopsGoing(body, t0, t0, run, h, key, Gate);
      GateStands(body, t0, run, h, key, memoized, gatesResolved, gatesOpened);
      if key !in gatesOpened {
        var alive := AnnounceGate(key, call, body, h, t0);
        if !alive {
          AnnouncementCut(world, run, t0, Here(), key, call, old(gatesOpened));
          return Killed;
        }
      }
      if world.autoApprove {
        var approved := GateResolved(key, gatesOpened[key], Approved, "auto");
        ghost var t := Here();
        RecordSteps(body, t0, t, run, h, key, Gate, approved, DecisionValue(Approved));
        StopsGoing(body, t0, t, run, h, key, Gate);
        RemembersMore(t, run, approved, memoized, gatesResolved, gatesOpened);
        var alive := Append(approved);
        SourcesThen(t0, t, Here(), run);
        if !alive {
          return Killed;
        }
        gatesResolved := gatesResolved[key := DecisionValue(Approved)];
        return Got([DecisionValue(Approved)]);
      }
      ParksGoing(body, t0, Here(), run, h, key, Gate, OnGate);
      return Suspends(key, OnGate, WaitingGate);
    }

    // ----- sleeps -----

    method RunSleep(key: Key, call: Call, ghost body: Body, ghost h: History) returns (s: Signal)
      requires call.kind.Sleep? && Current()
      requires Recorded(Here().LogOf(run), key, Sleep).None? && !sealed ==> Faces(body, Here(), run, h, key, Sleep)
      modifies db
      ensures StepEnded(sealed, body, run, old(Here()), Here(), h, key, Sleep, s)
      ensures Recorded(old(Here()).LogOf(run), key, Sleep).None? && !sealed ==>
                SleepWrote(run, old(Here()), Here(), key, s)
      ensures s.Got? || sealed ==> Current() && db.budget == old(db.budget)
      ensures !sealed && Recorded(old(Here()).LogOf(run), key, Sleep).None?
                && Resting(world, old(Here()), run, key, Sleep) ==>
                Here() == old(Here()) && s.Suspends?
      ensures db.budget <= old(db.budget) && (Recorded(old(Here()).LogOf(run), key, Sleep).None? ==> !s.Got?)
    {
      if key in memoized {
        return Got([memoized[key]]);
      }
      if sealed {
        return Diverged(key);
      }
      s := Doze(key, body, h);
    }

    method Doze(key: Key, ghost body: Body, ghost h: History) returns (s: Signal)
      requires Current() && Faces(body, Here(), run, h, key, Sleep)
      modifies db
      ensures Stepped(body, run, old(Here()), Here(), h, key, Sleep, s) && !s.Got?
      ensures db.budget <= old(db.budget)
      ensures Resting(world, old(Here()), run, key, Sleep) ==> Here() == old(Here()) && s.Suspends?
      ensures SleepWrote(run, old(Here()), Here(), key, s)
    {
      hide Results, Decisions, Opened, Failures, Completions, Resolutions, Project, Waits, RestsAs, IsTimed;
      hide Going, Faces, Stepped, StepInSync, Remembers, Tables.LogOf, RowApplied, TimerAdded;
      ghost var t0 := Here();
      GoesFrom(body, t0, run, h, key, Sleep);
      StopsGoing(body, t0, t0, run, h, key, Sleep);
      SleepStands(body, t0, run, h, key);
      var armed := exists id | id in db.timers :: db.timers[id] == TimerRow(run, key, SleepTimer);
      if !armed {
        var start := StepStarted(key, Sleep);
        StartGoes(body, t0, t0, run, h, key, Sleep);
        StopsGoing(body, t0, Appended(t0, run, start), run, h, key, Sleep);
        var alive := Append(start);
        if !alive {
          return Killed;
        }
        ghost var t := Here();
        StopsGoing(body, t0, t, run, h, key, Sleep);
        ghost var id;
        alive, id := InsertTimer(SleepTimer, key);
        if !alive {
          return Killed;
        }
        TimerGoes(body, t0, t, run, h, key, Sleep, TimerRow(run, key, SleepTimer), id);
      }
      ParksGoing(body, t0, Here(), run, h, key, Sleep, OnSleep);
      return Suspends(key, OnSleep, WaitingTimer);
    }

    // ----- children -----

    method RunChild(key: Key, call: Call, ghost body: Body, ghost h: History) returns (s: Signal)
      requires call.kind.Child? && Current()
      requires Recorded(Here().LogOf(run), key, Child).None? && !sealed ==> Faces(body, Here(), run, h, key, Child)
      modifies this`memoized, db
      ensures StepEnded(sealed, body, run, old(Here()), Here(), h, key, Child, s)
      ensures Recorded(old(Here()).LogOf(run), key, Child).None? && !sealed ==>
                ChildWrote(run, old(Here()), Here(), key, failedCounts[key], s)
      ensures s.Got? ==> Current()
      ensures sealed ==> db.budget == old(db.budget) && Current()
      ensures !sealed && Recorded(old(Here()).LogOf(run), key, Child).None?
                && Resting(world, old(Here()), run, key, Child) ==>
                Here() == old(Here()) && s.Suspends?
      ensures db.budget <= old(db.budget) && (Recorded(old(Here()).LogOf(run), key, Child).None? && s.Got? ==>
                db.budget < old(db.budget))
    {
      if key in memoized {
        return Got([memoized[key]]);
      }
      if sealed {
        return Diverged(key);
      }
      ghost var t0 := Here();
      ChildStands(body, t0, run, h, key);
      GoesFrom(body, t0, run, h, key, Child);
      var child := ChildRunId(run, key);
      if child !in db.rows {
        s := StartChild(key, body, h);
        return;
      }
      if db.rows[child].status.IsTerminal() {
        SettleSteps(body, t0, run, h, key, failedCounts[key]);
        SettledSources(t0, run, key, failedCounts[key]);
        AppendedSources(t0, run, InlineEvent(t0, run, key, failedCounts[key]));
        AppliedLog(t0, run, InlineEvent(t0, run, key, failedCounts[key]));
        s := SettleChild(key);
        return;
      }
      ParksGoing(body, t0, t0, run, h, key, Child, OnChild);
      return Suspends(key, OnChild, Running);
    }

    method AnnounceChild(key: Key, ghost body: Body, ghost h: History) returns (alive: bool)
      requires Faces(body, Here(), run, h, key, Child) && !Waits(Here(), run, key, Child)
      modifies db
      ensures db.budget <= old(db.budget)
      ensures !alive ==> Stepped(body, run, old(Here()), Here(), h, key, Child, Killed)
      ensures !alive ==> Here() == old(Here()) || Here() == Appended(old(Here()), run, StepStarted(key, Child))
      ensures SameSources(old(Here()), Here(), run)
      ensures var start, t := StepStarted(key, Child), Here();
        alive ==> (
          && t == Applied(old(Here()), run, start) && Going(body, old(Here()), t, run, h, key, Child)
          && run in t.rows && StepInSync(t, run)
          && t.LogOf(run) != [] && Last(t.LogOf(run)) == start)
    {
      hide Results, Decisions, Opened, Failures, Completions, Resolutions, Project, Waits, RestsAs, IsTimed;
      hide Going, Faces, Stepped, StepInSync, Tables.LogOf, RowApplied;
      ghost var t0 := Here();
      var start := StepStarted(key, Child);
      GoesFrom(body, t0, run, h, key, Child);
      StartGoes(body, t0, t0, run, h, key, Child);
      StopsGoing(body, t0, t0, run, h, key, Child);
      StopsGoing(body, t0, Appended(t0, run, start), run, h, key, Child);
      alive := Append(start);
    }

    /** The dispatch: the parent's step_started, the child's run_started, the child's rows. */
    method StartChild(key: Key, ghost body: Body, ghost h: History) returns (s: Signal)
      requires Current() && Faces(body, Here(), run, h, key, Child) && ChildRunId(run, key) !in Here().rows
      modifies db
      ensures Stepped(body, run, old(Here()), Here(), h, key, Child, s) && !s.Got?
      ensures db.budget <= old(db.budget)
      ensures ChildWrote(run, old(Here()), Here(), key, failedCounts[key], s)
      ensures var child := ChildRunId(run, key);
        s.Suspends? ==> (
          && Here().LogOf(run) == old(Here()).LogOf(run) + [StepStarted(key, Child)]
          && (var started := RunStarted(world.childName(key), world.childVersion(key), world.childInput(key),
                "run:" + Show(run));
              Here().LogOf(child) == old(Here()).LogOf(child) + [started])
          && Here().rows.Keys == old(Here()).rows.Keys + {child}
              && Here().rows[child] == RunRow(Pending, None, None, None, Some(run))
          && Here().queue == old(Here()).queue + {child})
      ensures s.Killed? ==> DispatchCut(world, old(Here()), Here(), run, key)
    {
      hide Results, Decisions, Opened, Failures, Completions, Resolutions, Project, RestsAs, IsTimed;
      hide Going, Faces, Stepped, StepInSync, EndInSync, SourcesAnd, SameSources, DispatchCut;
      ghost var t0 := Here();
      ChildStands(body, t0, run, h, key);
      var alive := AnnounceChild(key, body, h);
      CutsOfDispatch(world, t0, run, key);
      if !alive {
        return Killed;
      }
      ghost var t := Here();
      var child := ChildRunId(run, key);
      AppliedFrame(t0, run, StepStarted(key, Child), child);
      var started := ChildStart(world, run, key);
      ChildSources(t0, t, run, key, started);
      StopsGoing(body, t0, t, run, h, key, Child);
      ElsewhereGoes(body, t0, t, run, h, key, child, started);
      StopsGoing(body, t0, Appended(t, child, started), run, h, key, Child);
      alive := db.Spend();
      if !alive {
        return Killed;
      }
      db.Append(child, started);
      ghost var t1 := Here();
      alive := db.Spend();
      if !alive {
        return Killed;
      }
      db.InsertRun(child, Some(run));
      ChildGoes(body, t0, t1, run, h, key);
      ParksGoing(body, t0, Here(), run, h, key, Child, OnChild);
      return Suspends(key, OnChild, Running);
    }

    /** A replaying parent finds its child terminal. */
    method SettleChild(key: Key) returns (s: Signal)
      requires ChildRunId(run, key) in Here().rows
      modifies this`memoized, db
      ensures db.budget <= old(db.budget) && (!IsCompleted(old(Here()).LogOf(run), key) && s.Got? ==>
                db.budget < old(db.budget))
      ensures old(Current()) && !IsCompleted(old(Here()).LogOf(run), key) && s.Got? ==> Current()
      ensures if s.Killed? then
                Here() == old(Here()) || IsSettling(run, old(Here()), Here(), key, failedCounts[key])
              else var settled := SettledInline(old(Here()), run, key, failedCounts[key]);
                Here() == settled.0 && s == SignalOf(settled.1)
      ensures !IsCompleted(old(Here()).LogOf(run), key) ==>
                TellsBody(SettledInline(old(Here()), run, key, failedCounts[key]).1, ChildRunId(run, key),
                  old(Here()).rows[ChildRunId(run, key)], key)
    {
      if !IsCompleted(Here().LogOf(run), key) {
        InlineTellsBody(Here(), run, key, failedCounts[key]);
      }
      hide Results, Decisions, Opened, Failures, Completions, Resolutions, RowApplied, Remembers, ChildError;
      hide ChildResult, Tells, TellsBody;
      ghost var t := Here();
      var child := ChildRunId(run, key);
      var row := db.rows[child];
      var events := Here().LogOf(run);
      var completed, failures := db.Outcomes(events, key);
      if completed {
        var first := FirstResult(events, key);
        memoized := memoized[key := first];
        return Got([first]);
      }
      if row.status.Completed? {
        var result := ChildResult(child, row.outputRef);
        if Current() {
          RemembersMore(t, run, StepCompleted(key, result), memoized, gatesResolved, gatesOpened);
        }
        var alive := Append(StepCompleted(key, result));
        if !alive {
          return Killed;
        }
        memoized := memoized[key := result];
        return Got([result]);
      }
      var error := ChildError(child, row);
      if failures == 0 {
        var alive := Append(StepFailed(key, error, failedCounts[key] + 1, false));
        if !alive {
          return Killed;
        }
      }
      return Throws(error);
    }

    // ----- the body -----

    method RunStep(key: Key, call: Call, ghost body: Body, ghost h: History) returns (s: Signal)
      requires Current()
      requires Recorded(Here().LogOf(run), key, call.kind).None? && !sealed ==>
                 Faces(body, Here(), run, h, key, call.kind)
      modifies this`calls, this`memoized, this`gatesOpened, this`gatesResolved, db
      ensures StepEnded(sealed, body, run, old(Here()), Here(), h, key, call.kind, s)
      ensures old(calls) <= calls && CallsAttempts(calls, |old(calls)|, key, failedCounts[key] + 1)
      ensures Recorded(old(Here()).LogOf(run), key, call.kind).None? && !sealed ==>
                LiveWrote(world, run, old(Here()), Here(), key, call, failedCounts[key], |old(calls)|,
                    |calls| - |old(calls)|, old(gatesOpened), s)
      ensures Recorded(old(Here()).LogOf(run), key, call.kind).None? && !sealed
                && Resting(world, old(Here()), run, key, call.kind) ==>
                Here() == old(Here()) && calls == old(calls) && s.Suspends?
      ensures s.Got? || sealed ==> Current()
      ensures sealed || Recorded(old(Here()).LogOf(run), key, call.kind).Some? ==> calls == old(calls)
      ensures sealed ==> db.budget == old(db.budget)
      ensures db.budget <= old(db.budget) && (Recorded(old(Here()).LogOf(run), key, call.kind).None? && s.Got? ==>
                db.budget < old(db.budget))
    {
      hide StepEnded, Faces, GateWrote, SleepWrote, ChildWrote, HandledWrote;
      match call.kind
      case Gate => s := RunGate(key, call, body, h);
      case Sleep => s := RunSleep(key, call, body, h);
      case Child => s := RunChild(key, call, body, h);
      case _ => s := RunHandlerStep(key, call, body, h);
    }

    /** A list of steps against a completed log: each is a hit, or the replay has diverged. */
    method ReplayParallel(keys: seq<Key>, calls: seq<Call>, ghost body: Body, ghost h: History) returns (s: Signal)
      requires sealed && Current() && |keys| == |calls|
      modifies this`calls, this`memoized, this`gatesOpened, this`gatesResolved, db
      ensures Here() == old(Here()) && Current() && this.calls == old(this.calls) && db.budget == old(db.budget)
      ensures s.Got? || s.Diverged?
      ensures s.Got? ==> |s.values| == |keys|
      ensures s.Got? ==> forall i :: 0 <= i < |keys| ==>
                Recorded(Here().LogOf(run), keys[i], calls[i].kind) == Some(s.values[i])
      ensures s.Diverged? ==> exists i :: 0 <= i < |keys| && Recorded(Here().LogOf(run), keys[i], calls[i].kind).None?
    {
      hide Recorded, Remembers;
      var values: seq<Value> := [];
      for i := 0 to |keys|
        invariant Here() == old(Here()) && Current() && this.calls == old(this.calls) && db.budget == old(db.budget)
        invariant |values| == i
        invariant forall j :: 0 <= j < i ==> Recorded(Here().LogOf(run), keys[j], calls[j].kind) == Some(values[j])
      {
        s := RunStep(keys[i], calls[i], body, h);
        if s.Diverged? {
          return;
        }
        values := values + s.values;
      }
      return Got(values);
    }

    /** The pass is at the await after `h`, or past it with its values. */
    ghost predicate At(body: Body, h: History)
      reads this, db
    {
      && Current() && Replays(body, Here().LogOf(run), h)
      && Position(body, h) == Some(Allocator(ordinals, requested))
    }

    ghost function Memory(): set<Key>
      reads this
    {
      memoized.Keys + gatesResolved.Keys
    }

    ghost predicate IsPlace(body: Body, place: Place, h: History)
      reads this, db
    {
      Tracks(body, place.start, place.sys, Here(), run, place.seen, h, place.asked, CallKeys(calls))
    }

    method RunAwait(body: Body, h: History, ghost place: Place) returns (s: Signal, ghost next: Place)
      requires At(body, h) && body(h).Await? && body(h).calls != []
      requires !sealed ==> Tidy(body, Here(), run) && |body(h).calls| == 1
      requires !sealed ==> IsPlace(body, place, h) && place.asked == requested && failedCounts == Failures(place.seen)
      modifies this`ordinals, this`requested, this`lastStepKey, this`calls, this`memoized, this`gatesOpened,
          this`gatesResolved, db
      ensures s.Got? ==> At(body, h + [s.values])
      ensures s.Got? ==> db.budget < old(db.budget) || (db.budget == old(db.budget) && Memory() == old(Memory())
                                                  && old(requested) < requested
                                                      && requested - old(requested) <= Memory())
      ensures !sealed && s.Got? ==>
                IsPlace(body, next, h + [s.values]) && next == place.(sys := next.sys, asked := requested)
      ensures !sealed && !s.Got? ==> Stands(body, place.start, next.sys, Here(), run, CallKeys(calls), s)
      ensures sealed ==> Here() == old(Here()) && calls == old(calls) && db.budget == old(db.budget)
      ensures sealed && !s.Got? ==> s.Diverged? && StuckAt(body, Here().LogOf(run), h)
      ensures !sealed && !s.Got? ==> BodyEnded(body, run, old(Here()), Here(), s, LastStep(lastStepKey))
      ensures !sealed ==> LeavesStuck(body, world, old(Here()), Here(), run, s)
      ensures !sealed ==> Tidy(body, Here(), run) && Grown(old(Here()), Here(), run)
    {
      hide Tidy, Replays, Results, Decisions, Opened, Failures, Project, RequestedBefore, BodyEnded, Stepped;
      hide Grown, Tracks, Stands, Stuck;
      var calls := body(h).calls;
      var keys, clash := AllocateList(calls);
      if clash.Some? {
        ClashedHere(body, run, Here(), h, clash.value, LastStep(lastStepKey));
        next := place;
        if !sealed {
          NotStuck(body, world, Here(), run, h);
          StandsClashed(body, place.start, place.sys, Here(), run, place.seen, h, place.asked, CallKeys(this.calls),
              clash.value);
          next := place.(sys := AtAwait(body, place.sys, place.seen, h));
        }
        return Diverged(clash.value), next;
      }
      if |calls| == 1 {
        s, next := RunOne(keys[0], calls[0], body, h, place);
      } else {
        s := RunMany(keys, calls, body, h);
        next := place;
      }
      if s.Got? {
        NextPosition(body, h, s.values);
      }
    }

    method RunOne(key: Key, call: Call, ghost body: Body, ghost h: History, ghost place: Place)
      returns (s: Signal, ghost next: Place)
      requires Current() && Replays(body, Here().LogOf(run), h)
      requires KeysAt(body, h).Allocated? && KeysAt(body, h).keys == [key] && body(h) == Action.Await([call])
      requires !sealed ==> Tidy(body, Here(), run)
      requires !sealed ==> IsPlace(body, place, h) && key !in place.asked && failedCounts == Failures(place.seen)
      modifies this`calls, this`memoized, this`gatesOpened, this`gatesResolved, db
      ensures s.Got? ==> |s.values| == 1 && Current() && Replays(body, Here().LogOf(run), h + [s.values])
      ensures s.Got? ==> (db.budget < old(db.budget) || (db.budget == old(db.budget) && Memory() == old(Memory())
                && key in Memory()))
      ensures !sealed && s.Got? ==> IsPlace(body, next, h + [s.values])
      ensures !sealed && s.Got? ==> next == place.(sys := next.sys, asked := place.asked + {key})
      ensures !sealed && !s.Got? ==> Stands(body, place.start, next.sys, Here(), run, CallKeys(calls), s)
      ensures sealed ==> Here() == old(Here()) && calls == old(calls) && db.budget == old(db.budget)
      ensures sealed && !s.Got? ==> s.Diverged? && StuckAt(body, Here().LogOf(run), h)
      ensures !sealed && !s.Got? ==> BodyEnded(body, run, old(Here()), Here(), s, key)
      ensures !sealed ==> LeavesStuck(body, world, old(Here()), Here(), run, s)
      ensures !sealed ==> Tidy(body, Here(), run) && Grown(old(Here()), Here(), run)
    {
      hide Tidy, Replays, Results, Decisions, Opened, Failures, Project, RequestedBefore, BodyEnded, Stepped;
      hide StuckAt, Grown;
      hide Tracks, Stands, LiveWrote, Stuck, Resting;
      ghost var t0, calls0, gates := Here(), calls, gatesOpened;
      s := RunStep(key, call, body, h);
      OneEnded(sealed, body, run, t0, Here(), h, key, call, s);
      next := place;
      if !sealed {
        OneLeavesStuck(body, world, t0, Here(), run, h, key, call, s);
        next := Follows(body, h, key, call, place, t0, Here(), calls0, calls, world, gates, s, run, failedCounts);
      }
    }

    method RunMany(keys: seq<Key>, calls: seq<Call>, ghost body: Body, ghost h: History) returns (s: Signal)
      requires sealed && Current() && Replays(body, Here().LogOf(run), h)
      requires KeysAt(body, h).Allocated? && KeysAt(body, h).keys == keys && body(h) == Action.Await(calls)
                 && calls != []
      modifies this`calls, this`memoized, this`gatesOpened, this`gatesResolved, db
      ensures Here() == old(Here()) && Current() && this.calls == old(this.calls) && db.budget == old(db.budget)
      ensures s.Got? ==> |s.values| == |keys| && Replays(body, Here().LogOf(run), h + [s.values])
      ensures s.Got? ==> Memory() == old(Memory()) && forall k :: k in keys ==> k in Memory()
      ensures !s.Got? ==> s.Diverged? && StuckAt(body, Here().LogOf(run), h)
    {
      hide Tidy, Replays, Results, Decisions, Opened, Project, RequestedBefore, BodyEnded, Stepped;
      s := ReplayParallel(keys, calls, body, h);
      if s.Got? {
        NextReplay(body, Here().LogOf(run), h, s.values);
        forall k | k in keys ensures k in Memory() {
          var i :| 0 <= i < |keys| && keys[i] == k;
          assert Recorded(Here().LogOf(run), keys[i], calls[i].kind) == Some(s.values[i]);
        }
      }
    }

    /** The end of a body that returned: nothing in the log may be left unasked for. */
    method AssertReplayConsistent(ghost body: Body, ghost h: History, output: Value, ghost t0: Tables,
        ghost place: Place)
      returns (s: Signal)
      requires At(body, h) && body(h) == Return(output)
      requires !sealed ==> Tidy(body, Here(), run) && Grown(t0, Here(), run)
      requires !sealed ==> IsPlace(body, place, h) && place.asked == requested
      ensures sealed ==> SealedEnded(body, Here().LogOf(run), s)
      ensures !sealed ==> BodyEnded(body, run, t0, Here(), s, LastStep(lastStepKey))
      ensures !sealed ==>
                Stands(body, place.start, AtAwait(body, place.sys, place.seen, h), Here(), run, CallKeys(calls), s)
      ensures if memoized.Keys <= requested then s == Returned(output)
              else s.Diverged? && IsFirst(memoized.Keys - requested, s.key)
      ensures !Stuck(body, world, Here(), run)
    {
      NotStuck(body, world, Here(), run, h);
      hide Stuck;
      hide Tidy, Replays, Results, Decisions, Opened, Project, RequestedBefore, BodyEnded, Grown, SealedEnded, StuckAt;
      hide Tables.LogOf, Failures, Tracks, Stands, WasCancelled, Mirrors, AtAwait;
      ghost var t := Here();
      var leftover := memoized.Keys - requested;
      if leftover != {} {
        var key := First(leftover);
        ReturnEnds(body, t.LogOf(run), h, output, key);
        LeftoverUnasked(body, h, key, t.LogOf(run), ordinals, requested);
        if !sealed {
          LeftoverEnds(body, run, t0, t, h, key, LastStep(lastStepKey));
          StandsLeftover(body, place.start, place.sys, t, run, place.seen, h, Allocator(ordinals, requested),
              CallKeys(calls), key);
        }
        return Diverged(key);
      }
      ReturnEnds(body, t.LogOf(run), h, output, "");
      NothingLeftover(body, h, t.LogOf(run), ordinals, requested);
      if !sealed {
        OpenEnds(body, run, t0, t, Returned(output), LastStep(lastStepKey));
        StandsReturned(body, place.start, place.sys, t, run, place.seen, h, Allocator(ordinals, requested),
            CallKeys(calls), output);
      }
      return Returned(output);
    }

    lemma RaisesHere(body: Body, h: History, error: Error, t0: Tables, place: Place)
      requires At(body, h) && body(h) == Raise(error)
      requires !sealed ==> Tidy(body, Here(), run) && Grown(t0, Here(), run)
      requires !sealed ==> IsPlace(body, place, h) && place.asked == requested
      ensures sealed ==> SealedEnded(body, Here().LogOf(run), Throws(error))
      ensures !sealed ==> BodyEnded(body, run, t0, Here(), Throws(error), LastStep(lastStepKey))
      ensures !sealed ==> Stands(body, place.start, AtAwait(body, place.sys, place.seen, h), Here(), run,
                CallKeys(calls), Throws(error))
      ensures !Stuck(body, world, Here(), run)
    {
      NotStuck(body, world, Here(), run, h);
      hide Stuck;
      hide Tidy, Replays, RequestedBefore, BodyEnded, Grown, SealedEnded, Tables.LogOf, Tracks, Stands, AtAwait;
      RaiseEnds(body, Here().LogOf(run), h, error);
      if !sealed {
        OpenEnds(body, run, t0, Here(), Throws(error), LastStep(lastStepKey));
        StandsRaised(body, place.start, place.sys, Here(), run, place.seen, h, requested, CallKeys(calls), error);
      }
    }

    /** The body is over: it has returned, and the log is checked, or it has raised. */
    method EndBody(body: Body, h: History, ghost t0: Tables, ghost place: Place) returns (s: Signal)
      requires At(body, h) && !body(h).Await? && (!sealed && Stuck(body, world, t0, run) ==> Here() == t0)
      requires !sealed ==> Tidy(body, Here(), run) && Grown(t0, Here(), run)
      requires !sealed ==> IsPlace(body, place, h) && place.asked == requested
      ensures sealed ==> SealedEnded(body, Here().LogOf(run), s)
      ensures !sealed ==> BodyEnded(body, run, t0, Here(), s, LastStep(lastStepKey))
      ensures !sealed ==>
                Stands(body, place.start, AtAwait(body, place.sys, place.seen, h), Here(), run, CallKeys(calls), s)
      ensures !sealed ==> LeavesStuck(body, world, t0, Here(), run, s)
    {
      hide At, IsPlace, Tidy, Grown, BodyEnded, SealedEnded, Stands, Stuck;
      match body(h)
      case Return(output) =>
        s := AssertReplayConsistent(body, h, output, t0, place);
      case Raise(error) =>
        RaisesHere(body, h, error, t0, place);
        return Throws(error);
    }

    /** Replays the body from its start, live from the first step the log does not record. */
    method RunBody(body: Body, ghost start: Sys) returns (s: Signal, ghost end: Sys)
      requires Current() && ordinals == map[] && requested == {}
      requires forall h :: body(h) != Await([])
      requires !sealed ==> Sequential(body) && Tidy(body, Here(), run)
      requires !sealed ==> Mirrors(start, Here(), run) && start.pass.None?
      requires !sealed ==> !IsSealedLog(Here().LogOf(run)) && !WasCancelled(Here().LogOf(run))
      requires calls == [] && failedCounts == Failures(Here().LogOf(run))
      modifies this`ordinals, this`requested, this`lastStepKey, this`calls, this`memoized, this`gatesOpened,
          this`gatesResolved, db
      ensures sealed ==> Here() == old(Here()) && calls == old(calls) && db.budget == old(db.budget)
      ensures sealed ==> SealedEnded(body, Here().LogOf(run), s)
      ensures !sealed ==> BodyEnded(body, run, old(Here()), Here(), s, LastStep(lastStepKey))
      ensures !sealed ==> Stands(body, start, end, Here(), run, CallKeys(calls), s)
      ensures !sealed ==> LeavesStuck(body, world, old(Here()), Here(), run, s)
    {
      hide Tidy, Replays, Results, Decisions, Opened, Project, RequestedBefore, BodyEnded, Grown, SealedEnded, StuckAt;
      hide Stuck, LeavesStuck, IsFirst, Tables.LogOf, Failures, Tracks, Stands, WasCancelled, Mirrors, AtAwait;
      ghost var t0 := Here();
      GrownFrom(t0, run);
      StartsAt(body, t0.LogOf(run));
      var h: History := [];
      ghost var place := Place(start, start, t0.LogOf(run), {});
      end := start;
      if !sealed {
        TracksFrom(body, start, t0, run);
      }
      while true
        invariant At(body, h)
        invariant sealed ==> Here() == t0 && calls == old(calls) && db.budget == old(db.budget)
        invariant !sealed ==> Tidy(body, Here(), run) && Grown(t0, Here(), run)
        invariant !sealed && Stuck(body, world, t0, run) ==> Here() == t0
        invariant !sealed ==> IsPlace(body, place, h) && place.asked == requested && place.start == start
        invariant !sealed ==> failedCounts == Failures(place.seen)
        decreases db.budget, |Memory() - requested|
      {
        hide At, IsPlace;
        ghost var t := Here();
        if !body(h).Await? {
          s := EndBody(body, h, t0, place);
          return s, AtAwait(body, place.sys, place.seen, h);
        }
        ghost var before := requested;
        s, place := RunAwait(body, h, place);
        end := place.sys;
        if !s.Got? {
          if sealed {
            StuckEnds(body, t.LogOf(run), h, s.key);
          } else {
            EndedLater(body, world, run, t0, t, Here(), s, LastStep(lastStepKey));
          }
          return;
        }
        if !sealed {
          GrownOnward(body, world, t0, t, Here(), run, s);
        }
        LessToAsk(Memory(), before, requested);
        h := h + [s.values];
      }
    }
  }

  lemma OneLeavesStuck(body: Body, world: World, t0: Tables, t: Tables, run: RunId, h: History, key: Key, call: Call,
      s: Signal)
    requires Replays(body, t0.LogOf(run), h) && OneCall(body, h, key, call)
    requires StepEnded(false, body, run, t0, t, h, key, call.kind, s)
    requires Recorded(t0.LogOf(run), key, call.kind).None? && Resting(world, t0, run, key, call.kind) ==>
               t == t0 && s.Suspends?
    ensures LeavesStuck(body, world, t0, t, run, s)
  {
    hide Stuck, Resting, Replays, Stepped;
    if Stuck(body, world, t0, run) && Recorded(t0.LogOf(run), key, call.kind).None? {
      StuckHere(body, world, t0, run, h, key, call.kind);
    }
  }

  lemma LessToAsk(memory: set<Key>, before: set<Key>, after: set<Key>)
    ensures before < after && after - before <= memory ==> |memory - after| < |memory - before|
  {
    if before < after && after - before <= memory {
      assert !(after <= before);
      var k :| k in after && k !in before;
      ProperSubset(memory - after, memory - before, k);
    }
  }
}
