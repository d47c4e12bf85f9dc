/** The two ways a parent's child step is settled, and that they agree. */
module Settle {
  import opened Prelude
  import opened Keys
  import opened Events
  import opened Tables

  const ID_FIELD: string := "{\"child_run_id\": \""
  const REF_FIELD: string := "\", \"output_ref\": "

  /** The result a completed child hands its parent: its id and its output's. */
  function ChildResult(child: RunId, output: Option<Uuid>): Value {
    ID_FIELD + Show(child) + REF_FIELD + RefText(output) + "}"
  }

  function RefText(output: Option<Uuid>): string {
    match output
    case None => "null"
    case Some(ref) => "\"" + Decimal(ref) + "\""
  }

  /** What a workflow body reads from such a result. */
  function ReadChildResult(result: Value): Option<(string, Option<Uuid>)> {
    var at := LastIndexOf(result, ' ');
    var start := at + 1 - |REF_FIELD|;
    if start < |ID_FIELD| || Last(result) != '}' || result[..|ID_FIELD|] != ID_FIELD
      || result[start..at + 1] != REF_FIELD
    then None
    else
      var id, text := result[|ID_FIELD|..start], result[at + 1..|result| - 1];
      if text == "null" then Some((id, None))
      else if |text| > 2 && IsDigits(text[1..|text| - 1]) then Some((id, Some(ReadDecimal(text[1..|text| - 1]))))
      else None
  }

  /** It reads back the child and its output. */
  lemma ResultReadsBack(child: RunId, output: Option<Uuid>)
    ensures ReadChildResult(ChildResult(child, output)) == Some((Show(child), output))
  {
    FieldsReadBack(Show(child), RefText(output));
    RefReadsBack(output);
  }

  lemma FieldsReadBack(id: string, text: string)
    requires ' ' !in text
    ensures var result := ID_FIELD + id + REF_FIELD + text + "}";
            var start := |ID_FIELD| + |id|; var at := start + |REF_FIELD| - 1;
      && LastIndexOf(result, ' ') == at && Last(result) == '}'
      && result[..|ID_FIELD|] == ID_FIELD && result[|ID_FIELD|..start] == id
      && result[start..at + 1] == REF_FIELD && result[at + 1..|result| - 1] == text
  {
    hide LastIndexOf;
    var result := ID_FIELD + id + REF_FIELD + text + "}";
    var before := ID_FIELD + id + REF_FIELD[..|REF_FIELD| - 1];
    assert REF_FIELD == REF_FIELD[..|REF_FIELD| - 1] + [' '];
    assert result == before + [' '] + (text + "}");
    LastIndexOfSuffixed(before, ' ', text + "}");
  }

  lemma RefReadsBack(output: Option<Uuid>)
    ensures var text := RefText(output);
      && ' ' !in text && (text == "null" <==> output.None?)
      && (output.Some? ==>
            |text| > 2 && IsDigits(text[1..|text| - 1]) && ReadDecimal(text[1..|text| - 1]) == output.value)
  {
    if output.Some? {
      var text := RefText(output);
      assert text[0] == '\"' && text[1..|text| - 1] == Decimal(output.value);
      assert AllDigits(Decimal(output.value));
      DecimalRoundTrip(output.value);
    }
  }

  /** An event that tells the parent what became of its child, as the child's row has it. */
  ghost predicate Tells(e: Event, child: RunId, row: RunRow, key: Key) {
    if row.status.Completed? then
      && e.StepCompleted? && e.stepKey == key
      && ReadChildResult(e.result) == Some((Show(child), row.outputRef))
    else
      && e.StepFailed? && e.stepKey == key && !e.willRetry
      && if row.error.Some? && row.error.value != map[] then e.error == row.error.value
         else e.error == map["type" := "ChildRunCancelled", "message" := "child run " + Show(child) + " was cancelled"]
  }

  lemma VerdictTells(log: Log, child: RunId, row: RunRow, key: Key)
    ensures Tells(Verdict(log, child, row, key), child, row, key)
  {
    ResultReadsBack(child, row.outputRef);
  }

  /** A missing or empty error object reads as a cancelled child. */
  function ChildError(child: RunId, row: RunRow): Error {
    match row.error
    case Some(error) => if error != map[] then error else CancelledError(child)
    case None => CancelledError(child)
  }

  function CancelledError(child: RunId): Error {
    map["type" := "ChildRunCancelled", "message" := "child run " + Show(child) + " was cancelled"]
  }

  predicate IsSettled(log: Log, key: Key) {
    IsCompleted(log, key) || IsFailed(log, key)
  }

  /** The verdict on a terminal child. */
  function Verdict(log: Log, child: RunId, row: RunRow, key: Key): Event {
    if row.status.Completed? then StepCompleted(key, ChildResult(child, row.outputRef))
    else StepFailed(key, ChildError(child, row), Failures(log)[key] + 1, false)
  }

  /** The step under which the parent dispatched the child. */
  function DispatchKey(log: Log, parent: RunId, child: RunId): Option<Key> {
    if log == [] then None
    else match DispatchKey(Front(log), parent, child)
      case Some(key) => Some(key)
      case None =>
        var e := Last(log);
        if e.StepStarted? && e.stepKind.Child? && ChildRunId(parent, e.stepKey) == child then Some(e.stepKey) else None
  }

  // ----- from the child's side -----

  /** The child is terminal and its parent waits for it, undecided. */
  predicate Settles(t: Tables, child: RunId) {
    && child in t.rows && t.rows[child].parent.Some? && t.rows[child].status.IsTerminal()
    && var parent := t.rows[child].parent.value;
      && t.IsLive(parent)
      && var key := DispatchKey(t.LogOf(parent), parent, child);
        key.Some? && !IsSettled(t.LogOf(parent), key.value)
  }

  /** The tables after a child's terminal transition has told its parent. */
  function Settled(t: Tables, child: RunId): Tables {
    if !Settles(t, child) then t
    else
      var parent := t.rows[child].parent.value;
      var key := DispatchKey(t.LogOf(parent), parent, child).value;
      var e := Verdict(t.LogOf(parent), child, t.rows[child], key);
      Enqueued(StatusSet(Appended(t, parent, e), parent, Pending), parent)
  }

  /** The settle cut between its commits: the verdict, the parent's row, the parent's queue row. */
  predicate SettledPartly(t: Tables, t': Tables, child: RunId) {
    || t' == t
    || (Settles(t, child)
        && var parent := t.rows[child].parent.value;
          var key := DispatchKey(t.LogOf(parent), parent, child).value;
          var told := Appended(t, parent, Verdict(t.LogOf(parent), child, t.rows[child], key));
          t' == told || t' == StatusSet(told, parent, Pending))
  }

  // ----- from the parent's side -----

  datatype Outcome = Returns(value: Value) | Raises(error: Error)

  /** A parent whose replay finds its child terminal; `spent` is what its pass counted as
      earlier failures of the step. */
  function SettledInline(t: Tables, parent: RunId, key: Key, spent: nat): (Tables, Outcome)
    requires ChildRunId(parent, key) in t.rows
  {
    var child := ChildRunId(parent, key);
    var row := t.rows[child];
    var log := t.LogOf(parent);
    if IsCompleted(log, key) then (t, Returns(FirstResult(log, key)))
    else if row.status.Completed? then
      var e := StepCompleted(key, ChildResult(child, row.outputRef));
      (RowApplied(Appended(t, parent, e), parent, e), Returns(e.result))
    else if IsFailed(log, key) then (t, Raises(ChildError(child, row)))
    else
      var e := StepFailed(key, ChildError(child, row), spent + 1, false);
      (RowApplied(Appended(t, parent, e), parent, e), Raises(e.error))
  }

  /** What a parent that settles the step itself appends. */
  function InlineEvent(t: Tables, parent: RunId, key: Key, spent: nat): Event
    requires ChildRunId(parent, key) in t.rows
  {
    var child := ChildRunId(parent, key);
    if t.rows[child].status.Completed? then StepCompleted(key, ChildResult(child, t.rows[child].outputRef))
    else StepFailed(key, ChildError(child, t.rows[child]), spent + 1, false)
  }

  /** The result of the first completion of `key`. */
  function FirstResult(log: Log, key: Key): Value
    requires IsCompleted(log, key)
  {
    if log[0].StepCompleted? && log[0].stepKey == key then log[0].result
    else FirstResult(log[1..], key)
  }

  // ----- agreement -----

  /** A dispatched child is terminal; the parent is live and the step undecided. */
  ghost predicate Waiting(t: Tables, parent: RunId, key: Key) {
    var child := ChildRunId(parent, key);
    && child in t.rows && t.rows[child].parent == Some(parent) && t.rows[child].status.IsTerminal()
    && t.IsLive(parent) && parent != child
    && IsStarted(t.LogOf(parent), key, Child) && !IsSettled(t.LogOf(parent), key)
  }

  lemma {:induction false} DispatchFound(log: Log, parent: RunId, key: Key)
    ensures DispatchKey(log, parent, ChildRunId(parent, key)) == if IsStarted(log, key, Child) then Some(key) else None
  {
    if log != [] {
      DispatchFound(Front(log), parent, key);
      assert forall e :: e in log <==> e in Front(log) || e == Last(log);
    }
  }

  /** One settle from either side; the parent's pass may have begun before any failure. */
  function OneSettle(t: Tables, parent: RunId, key: Key, fromChild: bool): Tables
    requires ChildRunId(parent, key) in t.rows
    ensures ChildRunId(parent, key) in OneSettle(t, parent, key, fromChild).rows
  {
    if fromChild then Settled(t, ChildRunId(parent, key)) else SettledInline(t, parent, key, 0).0
  }

  function SettleAll(t: Tables, parent: RunId, key: Key, sides: seq<bool>): Tables
    requires ChildRunId(parent, key) in t.rows
    ensures ChildRunId(parent, key) in SettleAll(t, parent, key, sides).rows
    decreases |sides|
  {
    if sides == [] then t else SettleAll(OneSettle(t, parent, key, sides[0]), parent, key, sides[1..])
  }

  /** The step has its one verdict, and nothing else happened to either run. */
  ghost predicate Decided(t0: Tables, t: Tables, parent: RunId, key: Key)
    requires ChildRunId(parent, key) in t0.rows
  {
    var child := ChildRunId(parent, key);
    && t.LogOf(parent) == t0.LogOf(parent) + [Verdict(t0.LogOf(parent), child, t0.rows[child], key)]
    && t.IsLive(parent)
    && t.rows.Keys == t0.rows.Keys && t.timers == t0.timers
    && (forall r :: r in t0.rows && r != parent ==> t.rows[r] == t0.rows[r])
    && (forall r :: r != parent ==> t.LogOf(r) == t0.LogOf(r))
  }

  /** What the parent's body gets for a verdict. */
  function OutcomeOf(e: Event): Outcome
    requires e.StepCompleted? || e.StepFailed?
  {
    if e.StepCompleted? then Returns(e.result) else Raises(e.error)
  }

  lemma VerdictFound(log: Log, child: RunId, row: RunRow, key: Key)
    requires !IsSettled(log, key)
    ensures var e := Verdict(log, child, row, key); var log' := log + [e];
      && (IsCompleted(log', key) <==> e.StepCompleted?)
      && (IsFailed(log', key) <==> e.StepFailed?)
      && (e.StepCompleted? ==> FirstResult(log', key) == e.result)
      && (e.StepFailed? ==> e.attempt == 1)
  {
    var e := Verdict(log, child, row, key);
    var log' := log + [e];
    assert forall x :: x in log' <==> x in log || x == e;
    FailuresAreFailed(log, key);
    if e.StepCompleted? {
      assert e in log';
      FirstResultAppended(log, e);
    } else {
      assert e in log';
    }
  }

  lemma {:induction false} FirstResultAppended(log: Log, e: Event)
    requires e.StepCompleted? && !IsCompleted(log, e.stepKey)
    ensures IsCompleted(log + [e], e.stepKey) && FirstResult(log + [e], e.stepKey) == e.result
  {
    var log' := log + [e];
    assert log'[|log|] == e && e in log';
    if log != [] {
      assert log'[0] == log[0] && log[0] in log;
      assert log'[1..] == log[1..] + [e];
      assert forall x :: x in log[1..] ==> x in log;
      FirstResultAppended(log[1..], e);
    }
  }

  /** From an undecided step, either side leaves the same verdict. */
  lemma FirstSettles(t: Tables, parent: RunId, key: Key, fromChild: bool)
    requires Waiting(t, parent, key)
    ensures Decided(t, OneSettle(t, parent, key, fromChild), parent, key)
    ensures var verdict := Verdict(t.LogOf(parent), ChildRunId(parent, key), t.rows[ChildRunId(parent, key)], key);
            !fromChild ==> SettledInline(t, parent, key, 0).1 == OutcomeOf(verdict)
  {
    DispatchFound(t.LogOf(parent), parent, key);
    VerdictFound(t.LogOf(parent), ChildRunId(parent, key), t.rows[ChildRunId(parent, key)], key);
  }

  /** After that, neither side does anything, and the parent sees the same outcome. */
  lemma LaterSettlesNothing(t0: Tables, t: Tables, parent: RunId, key: Key, fromChild: bool, spent: nat)
    requires Waiting(t0, parent, key) && Decided(t0, t, parent, key)
    ensures OneSettle(t, parent, key, fromChild) == t
    ensures SettledInline(t, parent, key, spent) ==
            (t, OutcomeOf(Verdict(t0.LogOf(parent), ChildRunId(parent, key), t0.rows[ChildRunId(parent, key)], key)))
  {
    var child := ChildRunId(parent, key);
    VerdictFound(t0.LogOf(parent), child, t0.rows[child], key);
    DispatchFound(t.LogOf(parent), parent, key);
    assert t.rows[child] == t0.rows[child];
  }

  lemma {:induction false} StaysDecided(t0: Tables, t: Tables, parent: RunId, key: Key, sides: seq<bool>)
    requires Waiting(t0, parent, key) && Decided(t0, t, parent, key)
    ensures SettleAll(t, parent, key, sides) == t
    decreases |sides|
  {
    if sides != [] {
      LaterSettlesNothing(t0, t, parent, key, sides[0], 0);
      StaysDecided(t0, t, parent, key, sides[1..]);
    }
  }

  /** The child-side settle and the parent-side one, in any order and any number of times, leave
      exactly one verdict, with one payload and attempt, and the parent sees one outcome. */
  lemma SettlesAgree(t: Tables, parent: RunId, key: Key, sides: seq<bool>, spent: nat)
    requires Waiting(t, parent, key) && sides != []
    ensures Decided(t, SettleAll(t, parent, key, sides), parent, key)
    ensures SettledInline(SettleAll(t, parent, key, sides), parent, key, spent).1 ==
            OutcomeOf(Verdict(t.LogOf(parent), ChildRunId(parent, key), t.rows[ChildRunId(parent, key)], key))
  {
    var t' := OneSettle(t, parent, key, sides[0]);
    FirstSettles(t, parent, key, sides[0]);
    StaysDecided(t, t', parent, key, sides[1..]);
    LaterSettlesNothing(t, t', parent, key, true, spent);
  }

  /** A child-side settle records a verdict and wakes the parent exactly when, as it reads, the
      child's row is terminal and names this live parent, whose log has the dispatch and no verdict
      on it; else it changes nothing. */
  lemma SettleWakesIff(t: Tables, parent: RunId, key: Key)
    ensures var child := ChildRunId(parent, key); var t' := Settled(t, child);
      && (t'.LogOf(parent) != t.LogOf(parent) <==> Waiting(t, parent, key))
      && (parent in t'.queue <==> parent in t.queue || Waiting(t, parent, key))
      && (t' == t <==> !Waiting(t, parent, key))
  {
    var child := ChildRunId(parent, key);
    DispatchFound(t.LogOf(parent), parent, key);
    if Settles(t, child) {
      var other := t.rows[child].parent.value;
      DispatchedByParent(t.LogOf(other), other, child);
    }
  }

  ghost predicate Told(t: Tables, t': Tables, parent: RunId, key: Key) {
    var child, log, log' := ChildRunId(parent, key), t.LogOf(parent), t'.LogOf(parent);
    && !Waiting(t', parent, key) && t'.timers == t.timers
    && (Waiting(t, parent, key) ==>
          && |log'| == |log| + 1 && log <= log' && Tells(Last(log'), child, t.rows[child], key)
          && (Last(log').StepFailed? ==> Last(log').attempt == 1)
          && parent in t'.rows && t'.rows[parent] == t.rows[parent].(status := Pending)
          && t'.queue == t.queue + {parent})
  }

  /** No parent waits for the run's verdict. */
  ghost predicate NobodyWaits(t: Tables, run: RunId) {
    run.ChildOf? ==> !Waiting(t, run.parent, run.stepKey)
  }

  /** A settle tells a waiting parent by one event, its first on the step, and leaves it pending and
      enqueued; afterwards the step waits no more. */
  lemma SettleTells(t: Tables, parent: RunId, key: Key)
    ensures Told(t, Settled(t, ChildRunId(parent, key)), parent, key)
  {
    var child := ChildRunId(parent, key);
    DispatchFound(t.LogOf(parent), parent, key);
    if Waiting(t, parent, key) {
      VerdictTells(t.LogOf(parent), child, t.rows[child], key);
      VerdictFound(t.LogOf(parent), child, t.rows[child], key);
      hide ChildResult, ChildError, ReadChildResult, CancelledError;
    } else {
      SettleWakesIff(t, parent, key);
    }
  }

  /** The parent's own settle tells its body the same: the child's output, or its error. */
  lemma InlineTells(t: Tables, parent: RunId, key: Key, spent: nat)
    requires ChildRunId(parent, key) in t.rows && !IsCompleted(t.LogOf(parent), key)
    ensures var child := ChildRunId(parent, key); var (t', outcome) := SettledInline(t, parent, key, spent);
            var log, log' := t.LogOf(parent), t'.LogOf(parent);
      && TellsBody(outcome, child, t.rows[child], key)
      && if log' == log then !t.rows[child].status.Completed? && IsFailed(log, key)
         else |log'| == |log| + 1 && log <= log' && Tells(Last(log'), child, t.rows[child], key)
              && OutcomeOf(Last(log')) == outcome
  {
    var child := ChildRunId(parent, key);
    ResultReadsBack(child, t.rows[child].outputRef);
    hide IsFailed, IsCompleted, Show, ReadChildResult, ChildResult, ApplyRow;
    AppendedOne(t, parent, InlineEvent(t, parent, key, spent));
  }

  /** What the parent's body is handed, or what is raised in it. */
  ghost predicate TellsBody(outcome: Outcome, child: RunId, row: RunRow, key: Key) {
    if row.status.Completed?
    then outcome.Returns? && ReadChildResult(outcome.value) == Some((Show(child), row.outputRef))
    else outcome.Raises? && Tells(StepFailed(key, outcome.error, 1, false), child, row, key)
  }

  lemma InlineTellsBody(t: Tables, parent: RunId, key: Key, spent: nat)
    requires ChildRunId(parent, key) in t.rows && !IsCompleted(t.LogOf(parent), key)
    ensures TellsBody(SettledInline(t, parent, key, spent).1, ChildRunId(parent, key), t.rows[ChildRunId(parent, key)],
              key)
  {
    InlineTells(t, parent, key, spent);
  }

  lemma AppendedOne(t: Tables, run: RunId, e: Event)
    ensures var log, log' := t.LogOf(run), RowApplied(Appended(t, run, e), run, e).LogOf(run);
            log' == log + [e] && log' != log && Last(log') == e
  {
    assert Last(t.LogOf(run) + [e]) == e;
  }

  /** A step that completed before gives the result of its first completion. */
  lemma {:induction false} FirstResultIsFirst(log: Log, key: Key) returns (i: nat)
    requires IsCompleted(log, key)
    ensures i < |log| && log[i] == StepCompleted(key, FirstResult(log, key)) && !IsCompleted(log[..i], key)
  {
    if log[0].StepCompleted? && log[0].stepKey == key {
      i := 0;
    } else {
      var e :| e in log && e.StepCompleted? && e.stepKey == key;
      assert e in log[1..];
      var j := FirstResultIsFirst(log[1..], key);
      i := j + 1;
      assert log[..i] == [log[0]] + log[1..][..j];
    }
  }

  /** A dispatch of `child` is in its own parent's log only: child ids are injective. */
  lemma {:induction false} DispatchedByParent(log: Log, parent: RunId, child: RunId)
    ensures DispatchKey(log, parent, child).Some? ==> child == ChildRunId(parent, DispatchKey(log, parent, child).value)
  {
    if log != [] {
      DispatchedByParent(Front(log), parent, child);
    }
  }

  /** Once a failure is on record, whatever becomes of the child: the child's side appends nothing,
      and the parent's side appends a completion exactly when the child's row is completed and the
      step has none. */
  lemma AfterFailure(t: Tables, parent: RunId, key: Key, spent: nat)
    requires ChildRunId(parent, key) in t.rows && IsFailed(t.LogOf(parent), key)
    ensures var child, log := ChildRunId(parent, key), t.LogOf(parent);
            var log' := SettledInline(t, parent, key, spent).0.LogOf(parent);
      && Settled(t, child) == t
      && (log' != log <==> t.rows[child].status.Completed? && !IsCompleted(log, key))
      && (log' != log ==> log' == log + [StepCompleted(key, ChildResult(child, t.rows[child].outputRef))])
  {
    SettleWakesIff(t, parent, key);
  }

  /** A verdict is final only while the child stays as it was: a failed child that is resumed and
      completes gives its step a completion beside the failure. */
  lemma ResumedChildSettlesTwice(t: Tables, parent: RunId, key: Key, output: Option<Uuid>)
    requires Waiting(t, parent, key) && t.rows[ChildRunId(parent, key)].status.Failed?
    ensures var child := ChildRunId(parent, key);
            var failed := Settled(t, child);
            var resumed := failed.(rows := failed.rows[child := ApplyRow(failed.rows[child], RunCompleted(output))]);
            var log := SettledInline(resumed, parent, key, 0).0.LogOf(parent);
            IsCompleted(log, key) && IsFailed(log, key)
  {
    var child := ChildRunId(parent, key);
    FirstSettles(t, parent, key, true);
    VerdictFound(t.LogOf(parent), child, t.rows[child], key);
    var failed := Settled(t, child);
    var resumed := failed.(rows := failed.rows[child := ApplyRow(failed.rows[child], RunCompleted(output))]);
    var verdict := Verdict(t.LogOf(parent), child, t.rows[child], key);
    var completion := StepCompleted(key, ChildResult(child, output));
    assert SettledInline(resumed, parent, key, 0).0.LogOf(parent) == t.LogOf(parent) + [verdict] + [completion];
    assert verdict in t.LogOf(parent) + [verdict] + [completion];
    assert completion in t.LogOf(parent) + [verdict] + [completion];
  }
}
