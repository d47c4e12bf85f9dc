/** Workflow bodies as strategies, the step-key allocator, and what it means for a log to
    lead a body to a point. */
module Program {
  import opened Prelude
  import opened Keys
  import opened Events

  /** One requested step. */
  datatype Call = Call(name: string, kind: StepKind, maxAttempts: int)

  /** What a body does next: it is done, it raises, or it awaits one step (a list of one) or
      a parallel list of steps. */
  datatype Action = Return(output: Value) | Raise(error: Error) | Await(calls: seq<Call>)

  /** The results a body has been handed so far, one list per await. */
  type History = seq<seq<Value>>

  /** A deterministic workflow body: its next action is a function of the results so far.
      It may loop for ever. */
  type Body = History -> Action

  predicate IsHandled(kind: StepKind) {
    kind.Skill? || kind.Execute? || kind.Intrinsic?
  }

  // ----- allocation of step keys -----

  /** Request counts per label, and the keys handed out, within one replay pass. */
  datatype Allocator = Allocator(ordinals: map<string, nat>, requested: set<Key>)

  const FRESH: Allocator := Allocator(map[], {})

  datatype Allocation = Clash(key: Key) | Allocated(keys: seq<Key>, after: Allocator)

  function Ordinal(a: Allocator, name: string): (n: nat)
    ensures n >= 1
  {
    (if name in a.ordinals then a.ordinals[name] else 0) + 1
  }

  function Allocate(a: Allocator, name: string): Allocation {
    var key := StepKey(name, Ordinal(a, name));
    if key in a.requested then Clash(key)
    else Allocated([key], Allocator(a.ordinals[name := Ordinal(a, name)], a.requested + {key}))
  }

  /** Keys for a list of calls, in list order, as the awaitables are constructed. */
  function AllocateAll(a: Allocator, calls: seq<Call>): (r: Allocation)
    ensures r.Allocated? ==> |r.keys| == |calls| && Distinct(r.keys)
    ensures r.Allocated? ==> forall i :: 0 <= i < |r.keys| ==> r.keys[i] !in a.requested
    ensures r.Allocated? ==> r.after.requested == a.requested + set k | k in r.keys
  {
    if calls == [] then Allocated([], a)
    else match AllocateAll(a, Front(calls))
      case Clash(key) => Clash(key)
      case Allocated(keys, mid) =>
        match Allocate(mid, Last(calls).name)
        case Clash(key) => Clash(key)
        case Allocated(key, after) => Allocated(keys + key, after)
  }

  /** Every key handed out is a label's key at an ordinal already counted. */
  ghost predicate Counted(a: Allocator) {
    forall k :: k in a.requested ==>
      exists name, n: nat :: name in a.ordinals && 1 <= n <= a.ordinals[name] && '#' !in name && k == StepKey(name, n)
  }

  lemma AllocateNeverClashes(a: Allocator, name: string)
    requires Counted(a) && '#' !in name
    ensures Allocate(a, name).Allocated? && Counted(Allocate(a, name).after)
  {
    var n := Ordinal(a, name);
    var key := StepKey(name, n);
    if key in a.requested {
      var other, m: nat :| other in a.ordinals && 1 <= m <= a.ordinals[other] && '#' !in other
          && key == StepKey(other, m);
      StepKeyInjective(name, n, other, m);
      assert false;
    }
    var after := Allocate(a, name).after;
    forall k | k in after.requested
      ensures exists o, m: nat :: o in after.ordinals && 1 <= m <= after.ordinals[o] && '#' !in o && k == StepKey(o, m)
    {
      if k == key {
        assert name in after.ordinals && 1 <= n <= after.ordinals[name];
      } else {
        var o, m: nat :| o in a.ordinals && 1 <= m <= a.ordinals[o] && '#' !in o && k == StepKey(o, m);
        assert o in after.ordinals && 1 <= m <= after.ordinals[o];
      }
    }
  }

  ghost predicate Plain(calls: seq<Call>) {
    forall i :: 0 <= i < |calls| ==> '#' !in calls[i].name
  }

  lemma {:induction false} AllocateAllNeverClashes(a: Allocator, calls: seq<Call>)
    requires Counted(a) && Plain(calls)
    ensures AllocateAll(a, calls).Allocated? && Counted(AllocateAll(a, calls).after)
  {
    if calls != [] {
      AllocateAllNeverClashes(a, Front(calls));
      AllocateNeverClashes(AllocateAll(a, Front(calls)).after, Last(calls).name);
    }
  }

  // ----- positions of a body -----

  /** The allocator after a body has been handed `h`; none if no run of the body gets there. */
  function Position(body: Body, h: History): Option<Allocator>
    decreases |h|, 0
  {
    if h == [] then Some(FRESH)
    else if !body(Front(h)).Await? then None
    else match KeysAt(body, Front(h))
      case Clash(_) => None
      case Allocated(keys, after) => if |keys| == |Last(h)| then Some(after) else None
  }

  /** The keys of the await a body makes after `h`. A position without an await asks for none. */
  function KeysAt(body: Body, h: History): (r: Allocation)
    ensures r.Allocated? ==> |r.keys| == |CallsAt(body, h)| && Distinct(r.keys)
    decreases |h|, 1
  {
    match Position(body, h)
    case None => Clash("")
    case Some(a) => AllocateAll(a, CallsAt(body, h))
  }

  function CallsAt(body: Body, h: History): seq<Call> {
    match body(h)
    case Await(calls) => calls
    case _ => []
  }

  /** The keys asked for before the await after `h`. */
  function RequestedBefore(body: Body, h: History): set<Key> {
    match Position(body, h)
    case None => {}
    case Some(a) => a.requested
  }

  // ----- replay -----

  function Lookup(m: map<Key, Value>, key: Key): Option<Value> {
    if key in m then Some(m[key]) else None
  }

  /** What a log records for a step: gates are resolved, every other step completes. */
  function Recorded(log: Log, key: Key, kind: StepKind): Option<Value> {
    Lookup(if kind.Gate? then Decisions(log) else Results(log), key)
  }

  /** The results in `h` are those the log records for the keys the body asks for. */
  ghost predicate Replays(body: Body, log: Log, h: History)
    decreases |h|
  {
    h == [] || (Replays(body, log, Front(h)) && Receives(body, log, Front(h), Last(h)))
  }

  ghost predicate Receives(body: Body, log: Log, h: History, values: seq<Value>) {
    var r := KeysAt(body, h);
    && body(h).Await? && r.Allocated? && |values| == |r.keys|
    && forall i :: 0 <= i < |values| ==> Recorded(log, r.keys[i], CallsAt(body, h)[i].kind) == Some(values[i])
  }

  /** The body asks for step `key` as a `call` on the way the log leads it. */
  ghost predicate Asks(body: Body, log: Log, key: Key, call: Call) {
    exists h, i :: AsksAt(body, log, h, i, key, call)
  }

  ghost predicate AsksAt(body: Body, log: Log, h: History, i: int, key: Key, call: Call) {
    var r := KeysAt(body, h);
    && Replays(body, log, h) && r.Allocated?
    && 0 <= i < |r.keys| && r.keys[i] == key && CallsAt(body, h)[i] == call
  }

  /** The body, replayed against the log, returns `output`. */
  ghost predicate Yields(body: Body, log: Log, output: Value) {
    exists h :: Replays(body, log, h) && body(h) == Return(output)
  }

  /** A log that records everything another one does. */
  ghost predicate Extends(log: Log, log': Log) {
    && (forall k :: k in Results(log) ==> k in Results(log') && Results(log')[k] == Results(log)[k])
    && (forall k :: k in Decisions(log) ==> k in Decisions(log') && Decisions(log')[k] == Decisions(log)[k])
  }

  lemma {:induction false} ReplaysHavePositions(body: Body, log: Log, h: History)
    requires Replays(body, log, h)
    ensures Position(body, h).Some?
  {
  }

  lemma {:induction false} ReplaysPrefix(body: Body, log: Log, h: History, n: nat)
    requires Replays(body, log, h) && n <= |h|
    ensures Replays(body, log, h[..n])
  {
    if n < |h| {
      ReplaysPrefix(body, log, Front(h), n);
      assert Front(h)[..n] == h[..n];
    } else {
      assert h[..n] == h;
    }
  }

  /** Two logs that never record different results for one step. */
  ghost predicate Agree(log: Log, log': Log) {
    && (forall k :: k in Results(log) && k in Results(log') ==> Results(log)[k] == Results(log')[k])
    && (forall k :: k in Decisions(log) && k in Decisions(log') ==> Decisions(log)[k] == Decisions(log')[k])
  }

  lemma ReceivesAgree(body: Body, log: Log, log': Log, h: History, values: seq<Value>, values': seq<Value>)
    requires Agree(log, log') && Receives(body, log, h, values) && Receives(body, log', h, values')
    ensures values == values'
  {
  }

  /** Replay is deterministic: of two histories that agreeing logs lead to, one is a prefix of
      the other. */
  lemma {:induction false} ReplaysAgree(body: Body, log: Log, log': Log, h: History, h': History)
    requires Agree(log, log') && Replays(body, log, h) && Replays(body, log', h') && |h| <= |h'|
    ensures h == h'[..|h|]
    decreases |h'|
  {
    hide Receives, Agree;
    if |h| < |h'| {
      ReplaysAgree(body, log, log', h, Front(h'));
      assert Front(h')[..|h|] == h'[..|h|];
    } else if h != [] {
      ReplaysAgree(body, log, log', Front(h), Front(h'));
      assert Front(h) == Front(h');
      ReceivesAgree(body, log, log', Front(h), Last(h), Last(h'));
      assert h == Front(h) + [Last(h)] && h' == Front(h') + [Last(h')];
      assert h'[..|h|] == h';
    }
  }

  lemma ReplayDeterministic(body: Body, log: Log, h: History, h': History)
    requires Replays(body, log, h) && Replays(body, log, h') && |h| <= |h'|
    ensures h == h'[..|h|]
  {
    ReplaysAgree(body, log, log, h, h');
  }

  lemma ReplayUnique(body: Body, log: Log, h: History, h': History)
    requires Replays(body, log, h) && Replays(body, log, h') && |h| == |h'|
    ensures h == h'
  {
    ReplayDeterministic(body, log, h, h');
    assert h'[..|h'|] == h';
  }

  /** What a replay hands the body next is what it receives there. */
  lemma ReplayReceives(body: Body, log: Log, h: History, h': History)
    requires Replays(body, log, h) && Replays(body, log, h') && |h| < |h'|
    ensures Receives(body, log, h, h'[|h|])
  {
    ReplayDeterministic(body, log, h, h');
    ReplaysPrefix(body, log, h', |h| + 1);
    assert Front(h'[..|h| + 1]) == h;
  }

  /** A log that records more leads a body at least as far, along the same way. */
  lemma {:induction false} ReplayGrows(body: Body, log: Log, log': Log, h: History)
    requires Extends(log, log') && Replays(body, log, h)
    ensures Replays(body, log', h)
  {
    if h != [] {
      ReplayGrows(body, log, log', Front(h));
    }
  }

  lemma AsksGrows(body: Body, log: Log, log': Log, key: Key, call: Call)
    requires Extends(log, log') && Asks(body, log, key, call)
    ensures Asks(body, log', key, call)
  {
    var h, i :| AsksAt(body, log, h, i, key, call);
    ReplayGrows(body, log, log', h);
    assert AsksAt(body, log', h, i, key, call);
  }

  lemma YieldsGrows(body: Body, log: Log, log': Log, output: Value)
    requires Extends(log, log') && Yields(body, log, output)
    ensures Yields(body, log', output)
  {
    var h :| Replays(body, log, h) && body(h) == Return(output);
    ReplayGrows(body, log, log', h);
  }

  lemma {:induction false} RequestedGrows(body: Body, h: History, n: nat)
    requires Position(body, h).Some? && n < |h|
    ensures Position(body, h[..n]).Some? && body(h[..n]).Await? && KeysAt(body, h[..n]).Allocated?
    ensures RequestedBefore(body, h[..n]) <= RequestedBefore(body, h)
    ensures forall k :: k in KeysAt(body, h[..n]).keys ==> k in RequestedBefore(body, h)
    decreases |h|
  {
    if n < |h| - 1 {
      RequestedGrows(body, Front(h), n);
      assert Front(h)[..n] == h[..n];
    } else {
      assert Front(h) == h[..n];
    }
  }

  /** Requests of one replay are distinct, so a key belongs to one call. */
  lemma AsksOnce(body: Body, log: Log, key: Key, call: Call, call': Call)
    requires Asks(body, log, key, call) && Asks(body, log, key, call')
    ensures call == call'
  {
    var h, i :| AsksAt(body, log, h, i, key, call);
    var h', i' :| AsksAt(body, log, h', i', key, call');
    if |h| < |h'| {
      SamePlace(body, log, h, i, h', i', key, call, call');
    } else if |h'| < |h| {
      SamePlace(body, log, h', i', h, i, key, call', call);
    } else {
      ReplayDeterministic(body, log, h, h');
      assert h'[..|h|] == h';
    }
  }

  lemma SamePlace(body: Body, log: Log, h: History, i: int, h': History, i': int, key: Key, call: Call, call': Call)
    requires AsksAt(body, log, h, i, key, call) && AsksAt(body, log, h', i', key, call')
    ensures |h| >= |h'|
  {
    if |h| < |h'| {
      ReplayDeterministic(body, log, h, h');
      ReplaysHavePositions(body, log, h');
      RequestedGrows(body, h', |h|);
    }
  }

  /** No replay goes on after one has stopped. */
  lemma Stops(body: Body, log: Log, log': Log, h: History, h': History)
    requires Agree(log, log') && Replays(body, log, h) && Replays(body, log', h') && !body(h).Await?
    ensures |h'| <= |h|
  {
    if |h| < |h'| {
      ReplaysAgree(body, log, log', h, h');
      ReplaysHavePositions(body, log', h');
      RequestedGrows(body, h', |h|);
    }
  }

  /** Agreeing logs that both lead a body to its end lead it the same way, to the same output. */
  lemma YieldsAgree(body: Body, log: Log, log': Log, output: Value, output': Value)
    requires Agree(log, log') && Yields(body, log, output) && Yields(body, log', output')
    ensures output == output'
    ensures exists h :: Replays(body, log, h) && Replays(body, log', h) && body(h) == Return(output)
  {
    var h :| Replays(body, log, h) && body(h) == Return(output);
    var h' :| Replays(body, log', h') && body(h') == Return(output');
    Stops(body, log, log', h, h');
    Stops(body, log', log, h', h);
    ReplaysAgree(body, log, log', h, h');
    assert h'[..|h|] == h';
  }

  /** A body that returns on a log asked everything before its end. */
  lemma AskedBeforeEnd(body: Body, log: Log, end: History, h: History, i: int, key: Key, call: Call)
    requires Replays(body, log, end) && body(end).Return? && AsksAt(body, log, h, i, key, call)
    ensures |h| < |end| && h == end[..|h|]
    ensures key in RequestedBefore(body, end)
  {
    Stops(body, log, log, end, h);
    ReplayDeterministic(body, log, h, end);
    assert end[..|end|] == end;
    ReplaysHavePositions(body, log, end);
    RequestedGrows(body, end, |h|);
  }

  /** Once a body returns, the log records everything it asked for. */
  lemma AllRecorded(body: Body, log: Log, output: Value, key: Key, call: Call)
    requires Yields(body, log, output) && Asks(body, log, key, call)
    ensures Recorded(log, key, call.kind).Some?
    ensures forall h :: Replays(body, log, h) && body(h).Return? ==> key in RequestedBefore(body, h)
  {
    hide Replays, RequestedBefore, KeysAt;
    var h, i :| AsksAt(body, log, h, i, key, call);
    var end :| Replays(body, log, end) && body(end) == Return(output);
    AskedBeforeEnd(body, log, end, h, i, key, call);
    ReplaysPrefix(body, log, end, |h| + 1);
    assert Front(end[..|h| + 1]) == h;
    RecordedAt(body, log, end[..|h| + 1], i, key, call);
    forall h' | Replays(body, log, h') && body(h').Return? ensures key in RequestedBefore(body, h') {
      AskedBeforeEnd(body, log, h', h, i, key, call);
    }
  }

  lemma RecordedAt(body: Body, log: Log, h: History, i: int, key: Key, call: Call)
    requires h != [] && Replays(body, log, h) && AsksAt(body, log, Front(h), i, key, call)
    ensures Recorded(log, key, call.kind).Some?
  {
  }

  /** With no `#` in its labels, a body never makes the allocator hand out a key twice. */
  ghost predicate PlainLabels(body: Body) {
    forall h :: Plain(CallsAt(body, h))
  }

  lemma {:induction false} PlainLabelsNeverClash(body: Body, h: History)
    requires PlainLabels(body) && Position(body, h).Some?
    ensures KeysAt(body, h).Allocated? && Counted(KeysAt(body, h).after)
  {
    if h != [] {
      PlainLabelsNeverClash(body, Front(h));
    }
    AllocateAllNeverClashes(Position(body, h).value, CallsAt(body, h));
  }
}
