/** How a replay of a whole body can end: it returns, raises, parks, or asks for what the log
    does not hold. */
module ReplayEnds {
  import opened Prelude
  import opened Keys
  import opened Events
  import opened Program
  import opened Tables
  import opened Frontier
  import opened Commits
  import opened LiveSteps

  // ----- how a replay of the body ends -----

  /** The body returns on what the log leads it to, having asked for every completed step. */
  ghost predicate EndsAt(body: Body, log: Log, h: History, output: Value) {
    Replays(body, log, h) && body(h) == Return(output) && Results(log).Keys <= RequestedBefore(body, h)
  }

  ghost predicate Returns(body: Body, log: Log, output: Value) {
    exists h :: EndsAt(body, log, h, output)
  }

  ghost predicate RaisesOn(body: Body, log: Log, error: Error) {
    exists h :: Replays(body, log, h) && body(h) == Raise(error)
  }

  /** The log does not lead the body past the await after `h`. */
  ghost predicate StuckAt(body: Body, log: Log, h: History) {
    && Replays(body, log, h) && body(h).Await?
    && var r := KeysAt(body, h);
      r.Allocated? ==> exists i :: 0 <= i < |r.keys| && Recorded(log, r.keys[i], CallsAt(body, h)[i].kind).None?
  }

  lemma StuckNeverEnds(body: Body, log: Log, h: History, h': History)
    requires StuckAt(body, log, h) && Replays(body, log, h')
    ensures body(h').Await?
  {
    if !body(h').Await? {
      Stops(body, log, log, h', h);
      if |h| < |h'| {
        ReplayReceives(body, log, h, h');
      } else {
        ReplayUnique(body, log, h, h');
      }
    }
  }

  lemma OneEnd(body: Body, log: Log, h: History, h': History)
    requires Replays(body, log, h) && Replays(body, log, h') && !body(h).Await? && !body(h').Await?
    ensures h == h'
  {
    Stops(body, log, log, h, h');
    Stops(body, log, log, h', h);
    ReplayUnique(body, log, h, h');
  }

  /** How a pass over a completed log ends: it returns or raises exactly when the log leads the
      body there, and is refused otherwise. */
  ghost predicate SealedEnded(body: Body, log: Log, s: Signal) {
    match s
    case Returned(output) => Returns(body, log, output)
    case Throws(error) => RaisesOn(body, log, error)
    case Diverged(_) => (forall output :: !Returns(body, log, output)) && (forall error :: !RaisesOn(body, log, error))
    case _ => false
  }

  /** How a pass over an open log ends; `last` is the step asked for last. */
  ghost predicate BodyEnded(body: Body, run: RunId, t0: Tables, t: Tables, s: Signal, last: Key) {
    && Tidy(body, t, run) && Grown(t0, t, run)
    && match s
       case Returned(output) => Returns(body, t.LogOf(run), output)
       case Suspends(key, wake, status) => Parked(body, t, run, key, wake, status)
       case Throws(error) => RaisesOn(body, t.LogOf(run), error) || FailsAt(body, t.LogOf(run), last)
       case Unavailable(error) => LacksHandler(body, t.LogOf(run), last, error)
       case Diverged(key) => DivergesAt(body, t.LogOf(run), key)
       case Got(_) => false
       case Killed => true
  }

  /** The frontier step has failed. */
  ghost predicate FailsAt(body: Body, log: Log, key: Key) {
    (exists kind :: AtFrontier(body, log, key, kind)) && IsFailed(log, key)
  }

  ghost predicate LacksHandler(body: Body, log: Log, key: Key, error: Error) {
    exists kind :: AtFrontier(body, log, key, kind) && error == UnavailableError(kind)
  }

  /** The body no longer fits the log: it asks for `key` a second time, or returns without having
      asked for it although it completed. */
  ghost predicate DivergesAt(body: Body, log: Log, key: Key) {
    exists h :: Replays(body, log, h) && (ClashesAt(body, h, key) || SkipsAt(body, log, h, key))
  }

  ghost predicate ClashesAt(body: Body, h: History, key: Key) {
    body(h).Await? && KeysAt(body, h) == Clash(key)
  }

  ghost predicate SkipsAt(body: Body, log: Log, h: History, key: Key) {
    body(h).Return? && key in Results(log) && key !in RequestedBefore(body, h)
  }

  function LastStep(key: Option<Key>): Key {
    match key case Some(k) => k case None => "<unknown>"
  }

  ghost predicate Parked(body: Body, t: Tables, run: RunId, key: Key, wake: Wake, status: RunStatus)
    requires run in t.rows
  {
    exists h, kind :: WakesOn(wake, kind) && ParkedAt(body, t, run, h, key, kind, wake, status)
  }

  lemma NextPosition(body: Body, h: History, values: seq<Value>)
    requires Position(body, h).Some? && body(h).Await? && KeysAt(body, h).Allocated?
               && |values| == |KeysAt(body, h).keys|
    ensures Position(body, h + [values]) == Some(KeysAt(body, h).after)
  {
    var h' := h + [values];
    assert Front(h') == h && Last(h') == values;
  }

  lemma NextReplay(body: Body, log: Log, h: History, values: seq<Value>)
    requires Replays(body, log, h) && Receives(body, log, h, values)
    ensures Replays(body, log, h + [values])
  {
    var h' := h + [values];
    assert Front(h') == h && Last(h') == values;
  }

  /** Where one awaited step leaves the pass. */
  lemma OneEnded(sealed: bool, body: Body, run: RunId, t0: Tables, t: Tables, h: History, key: Key, call: Call,
      s: Signal)
    requires KeysAt(body, h).Allocated? && KeysAt(body, h).keys == [key] && body(h) == Await([call])
    requires StepEnded(sealed, body, run, t0, t, h, key, call.kind, s)
    requires Replays(body, t0.LogOf(run), h) && (!sealed ==> Tidy(body, t0, run))
    ensures s.Got? ==> |s.values| == 1 && Replays(body, t.LogOf(run), h + [s.values])
    ensures sealed ==> t == t0 && (!s.Got? ==> s.Diverged? && StuckAt(body, t.LogOf(run), h))
    ensures !sealed ==> Tidy(body, t, run) && Grown(t0, t, run)
    ensures !sealed && !s.Got? ==> BodyEnded(body, run, t0, t, s, key)
  {
    hide Tidy, Replays, Position, Results, Decisions, Project, RequestedBefore, RestsAs, IsTimed;
    var recorded := Recorded(t0.LogOf(run), key, call.kind);
    if recorded.Some? {
      assert Receives(body, t0.LogOf(run), h, s.values);
      NextReplay(body, t0.LogOf(run), h, s.values);
    } else if !sealed {
      OneValue(body, run, t0, t, h, key, call.kind, s);
      if s.Suspends? {
        TidyRow(body, t, run);
        assert ParkedAt(body, t, run, h, key, call.kind, s.wake, s.status);
      }
      if s.Throws? || s.Unavailable? {
        assert AtFrontier(body, t.LogOf(run), key, call.kind);
      }
    }
  }

  /** A live step gives its await exactly the value now on record. */
  lemma OneValue(body: Body, run: RunId, t0: Tables, t: Tables, h: History, key: Key, kind: StepKind, s: Signal)
    requires Stepped(body, run, t0, t, h, key, kind, s)
    requires KeysAt(body, h).Allocated? && KeysAt(body, h).keys == [key]
    ensures s.Got? ==> |s.values| == 1
  {
    if s.Got? {
      var h' := h + [s.values];
      assert Front(h') == h && Last(h') == s.values;
    }
  }

  /** A key asked for twice stops the pass without a commit. */
  lemma ClashedHere(body: Body, run: RunId, t: Tables, h: History, key: Key, last: Key)
    requires Replays(body, t.LogOf(run), h) && ClashesAt(body, h, key)
    ensures Tidy(body, t, run) ==> BodyEnded(body, run, t, t, Diverged(key), last) && Grown(t, t, run)
  {
  }

  lemma StuckEnds(body: Body, log: Log, h: History, key: Key)
    requires StuckAt(body, log, h)
    ensures SealedEnded(body, log, Diverged(key))
  {
    hide Replays, StuckAt;
    forall h' | Replays(body, log, h') ensures body(h').Await? {
      StuckNeverEnds(body, log, h, h');
    }
  }

  /** The body is done: the replay is consistent when no completed step was left unasked. */
  lemma ReturnEnds(body: Body, log: Log, h: History, output: Value, key: Key)
    requires Replays(body, log, h) && body(h) == Return(output)
    ensures if Results(log).Keys <= RequestedBefore(body, h) then SealedEnded(body, log, Returned(output))
            else SealedEnded(body, log, Diverged(key))
  {
    hide Replays, Results, RequestedBefore;
    forall h' | Replays(body, log, h') && !body(h').Await? ensures h' == h {
      OneEnd(body, log, h, h');
    }
    if Results(log).Keys <= RequestedBefore(body, h) {
      assert EndsAt(body, log, h, output);
    }
  }

  lemma OpenEnds(body: Body, run: RunId, t0: Tables, t: Tables, s: Signal, last: Key)
    requires Tidy(body, t, run) && Grown(t0, t, run)
    requires (s.Returned? || s.Throws?) && SealedEnded(body, t.LogOf(run), s)
    ensures BodyEnded(body, run, t0, t, s, last)
  {
  }

  lemma LeftoverEnds(body: Body, run: RunId, t0: Tables, t: Tables, h: History, key: Key, last: Key)
    requires Tidy(body, t, run) && Grown(t0, t, run) && Replays(body, t.LogOf(run), h)
               && SkipsAt(body, t.LogOf(run), h, key)
    ensures BodyEnded(body, run, t0, t, Diverged(key), last)
  {
  }

  /** What one await leaves is what the awaits from the start on leave. */
  lemma EndedLater(body: Body, world: World, run: RunId, t0: Tables, t1: Tables, t: Tables, s: Signal, last: Key)
    requires Grown(t0, t1, run) && (Stuck(body, world, t0, run) ==> t1 == t0)
    requires BodyEnded(body, run, t1, t, s, last) && LeavesStuck(body, world, t1, t, run, s)
    ensures BodyEnded(body, run, t0, t, s, last) && LeavesStuck(body, world, t0, t, run, s)
  {
    hide Stuck;
  }

  lemma GrownOnward(body: Body, world: World, t0: Tables, t1: Tables, t: Tables, run: RunId, s: Signal)
    requires Grown(t0, t1, run) && (Stuck(body, world, t0, run) ==> t1 == t0)
    requires Grown(t1, t, run) && LeavesStuck(body, world, t1, t, run, s)
    ensures Grown(t0, t, run) && (Stuck(body, world, t0, run) ==> t == t0)
  {
    hide Stuck;
  }

  lemma GrownFrom(t: Tables, run: RunId)
    ensures Grown(t, t, run)
  {
  }

  lemma StartsAt(body: Body, log: Log)
    ensures Replays(body, log, []) && Position(body, []) == Some(Allocator(map[], {}))
  {
  }

  lemma RaiseEnds(body: Body, log: Log, h: History, error: Error)
    requires Replays(body, log, h) && body(h) == Raise(error)
    ensures SealedEnded(body, log, Throws(error))
  {
  }

  lemma LeftoverUnasked(body: Body, h: History, key: Key, log: Log, ordinals: map<string, nat>, requested: set<Key>)
    requires Position(body, h) == Some(Allocator(ordinals, requested)) && key in Results(log).Keys - requested
    ensures !(Results(log).Keys <= RequestedBefore(body, h))
    ensures body(h).Return? ==> SkipsAt(body, log, h, key)
  {
  }

  lemma NothingLeftover(body: Body, h: History, log: Log, ordinals: map<string, nat>, requested: set<Key>)
    requires Position(body, h) == Some(Allocator(ordinals, requested)) && Results(log).Keys - requested == {}
    ensures Results(log).Keys <= RequestedBefore(body, h)
  {
  }
}
