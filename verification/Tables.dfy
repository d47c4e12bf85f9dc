/** The run tables as values, and what one committed statement does to them. */
module Tables {
  import opened Prelude
  import opened Keys
  import opened Events

  /** Random ids, and the ids derived from a parent and a step key: the derivation is injective. */
  datatype RunId = Fresh(n: nat) | ChildOf(parent: RunId, stepKey: Key)

  function ChildRunId(parent: RunId, key: Key): RunId {
    ChildOf(parent, key)
  }

  /** An id as text: different ids read differently. */
  function Show(run: RunId): string {
    match run
    case Fresh(n) => Decimal(n)
    case ChildOf(parent, key) => Show(parent) + ":" + key + ":" + Decimal(|key|)
  }

  lemma {:induction false} ShowInjective(a: RunId, b: RunId)
    requires Show(a) == Show(b)
    ensures a == b
    decreases a
  {
    if a.Fresh? && b.Fresh? {
      DecimalRoundTrip(a.n);
      DecimalRoundTrip(b.n);
    } else if a.ChildOf? && b.ChildOf? {
      var x, y := Show(a.parent) + ":" + a.stepKey, Show(b.parent) + ":" + b.stepKey;
      SuffixInjective(x, |a.stepKey|, y, |b.stepKey|, ':');
      assert x[|x| - |a.stepKey|..] == a.stepKey && y[|y| - |b.stepKey|..] == b.stepKey;
      assert x[..|x| - |a.stepKey| - 1] == Show(a.parent) && y[..|y| - |b.stepKey| - 1] == Show(b.parent);
      ShowInjective(a.parent, b.parent);
    } else {
      ShowsColon(a);
      ShowsColon(b);
    }
  }

  /** Only derived ids contain a colon. */
  lemma ShowsColon(run: RunId)
    ensures ':' in Show(run) <==> run.ChildOf?
  {
    match run
    case Fresh(n) =>
      assert AllDigits(Decimal(n));
    case ChildOf(parent, key) =>
      assert Show(run)[|Show(parent)|] == ':';
  }

  datatype RunRow = RunRow(
    status: RunStatus, currentStep: Option<Key>, outputRef: Option<Uuid>, error: Option<Error>,
    parent: Option<RunId>)

  datatype TimerKind = SleepTimer | RetryTimer | GateTimeout

  datatype TimerRow = TimerRow(run: RunId, stepKey: Key, kind: TimerKind)

  datatype Tables = Tables(
    logs: map<RunId, Log>, rows: map<RunId, RunRow>, queue: set<RunId>, timers: map<nat, TimerRow>)
  {
    function LogOf(run: RunId): Log {
      if run in logs then logs[run] else []
    }

    predicate IsLive(run: RunId) {
      run in rows && !rows[run].status.IsTerminal()
    }

    function Live(): set<RunId> {
      set run | run in rows && IsLive(run)
    }

    predicate HasTimers(run: RunId) {
      exists t | t in timers :: timers[t].run == run
    }
  }

  /** What an appended event writes to the run row. */
  function ApplyRow(row: RunRow, e: Event): RunRow {
    match e
    case RunStarted(_, _, _, _) => row.(status := Pending)
    case StepStarted(key, kind) => row.(status := if kind.Sleep? then WaitingTimer
        else Running, currentStep := Some(key))
    case StepCompleted(_, _) => row.(status := Running)
    case StepFailed(_, _, _, willRetry) => row.(status := if willRetry then WaitingTimer else Running)
    case GateOpened(_, _, _) => row.(status := WaitingGate)
    case GateResolved(_, _, _, _) => row.(status := Pending)
    case RunCompleted(ref) => row.(status := Completed, outputRef := ref)
    case RunFailed(error, failedStep) => row.(status := Failed, error := Some(error), currentStep := Some(failedStep))
    case RunCancelled(_, _) => row.(status := Cancelled)
  }

  function Appended(t: Tables, run: RunId, e: Event): Tables {
    t.(logs := t.logs[run := t.LogOf(run) + [e]])
  }

  /** An update matches no row of an unknown run. */
  function RowApplied(t: Tables, run: RunId, e: Event): Tables {
    if run in t.rows then t.(rows := t.rows[run := ApplyRow(t.rows[run], e)]) else t
  }

  function StatusSet(t: Tables, run: RunId, status: RunStatus): Tables {
    if run in t.rows then t.(rows := t.rows[run := t.rows[run].(status := status)]) else t
  }

  function Dequeued(t: Tables, run: RunId): Tables {
    t.(queue := t.queue - {run})
  }

  function Enqueued(t: Tables, run: RunId): Tables {
    t.(queue := t.queue + {run})
  }

  function TimerAdded(t: Tables, id: nat, timer: TimerRow): Tables {
    t.(timers := t.timers[id := timer])
  }

  function TimerDeleted(t: Tables, id: nat): Tables {
    t.(timers := t.timers - {id})
  }

  /** A new run's row, with its queue row. */
  function RunInserted(t: Tables, run: RunId, parent: Option<RunId>): Tables {
    t.(rows := t.rows[run := RunRow(Pending, None, None, None, parent)], queue := t.queue + {run})
  }

  function Untimed(t: Tables, run: RunId): Tables {
    t.(timers := map i | i in t.timers && t.timers[i].run != run :: t.timers[i])
  }
}
