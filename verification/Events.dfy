/** The closed event set of a run's append-only log, the projection folded from it, and
    the counts and lookups the engine derives from it. */
module Events {
  import opened Prelude
  import opened Keys

  /** A JSON-canonicalised value. */
  type Value = string
  type Uuid = nat
  /** A JSON error object; an absent or empty one is falsy. */
  type Error = map<string, string>

  datatype StepKind = Skill | Execute | Gate | Sleep | Child | Intrinsic

  datatype RunStatus =
    | Pending | Running | WaitingGate | WaitingTimer
    | Completed | Failed | Cancelled
  {
    predicate IsTerminal() {
      Completed? || Failed? || Cancelled?
    }
  }

  datatype Decision = Approved | Rejected

  datatype Event =
    | RunStarted(name: string, version: string, input: Value, actor: string)
    | StepStarted(stepKey: Key, stepKind: StepKind)
    | StepCompleted(stepKey: Key, result: Value)
    | StepFailed(stepKey: Key, error: Error, attempt: nat, willRetry: bool)
    | GateOpened(stepKey: Key, gateKey: string, artifact: Uuid)
    | GateResolved(stepKey: Key, gateKey: string, decision: Decision, actor: string)
    | RunCompleted(outputRef: Option<Uuid>)
    | RunFailed(error: Error, failedStep: Key)
    | RunCancelled(actor: string, reason: string)
  {
    predicate EndsRun() {
      RunCompleted? || RunFailed? || RunCancelled?
    }
  }

  type Log = seq<Event>

  // ----- the projection -----

  /** The columns of a run row that follow from its log. */
  datatype Projection = Projection(
    name: Option<string>, version: Option<string>, input: Option<Value>,
    status: RunStatus, currentStep: Option<Key>, outputRef: Option<Uuid>, error: Option<Error>)

  const BLANK: Projection := Projection(None, None, None, Pending, None, None, None)

  /** One fold step of the projection. */
  function Fold(p: Projection, e: Event): Projection {
    match e
    case RunStarted(name, version, input, _) =>
      p.(name := Some(name), version := Some(version), input := Some(input), status := Pending)
    case StepStarted(key, kind) =>
      p.(currentStep := Some(key), status := if kind.Sleep? then WaitingTimer else Running)
    case StepCompleted(_, _) => p.(status := Running)
    case StepFailed(_, _, _, willRetry) => p.(status := if willRetry then WaitingTimer else Running)
    case GateOpened(_, _, _) => p.(status := WaitingGate)
    case GateResolved(_, _, _, _) => p.(status := Pending)
    case RunCompleted(outputRef) => p.(outputRef := outputRef, status := Completed)
    case RunFailed(error, failedStep) =>
      p.(error := Some(error), currentStep := Some(failedStep), status := Failed)
    case RunCancelled(_, _) => p.(status := Cancelled)
  }

  function Project(log: Log): Projection {
    if log == [] then BLANK else Fold(Project(Front(log)), Last(log))
  }

  lemma ProjectAppend(log: Log, e: Event)
    ensures Project(log + [e]) == Fold(Project(log), e)
  {
    assert Front(log + [e]) == log;
  }

  datatype Column = Step | Output | Failure | Request

  predicate Sets(e: Event, column: Column) {
    match column
    case Step => e.StepStarted? || e.RunFailed?
    case Output => e.RunCompleted?
    case Failure => e.RunFailed?
    case Request => e.RunStarted?
  }

  /** `i` is the latest entry of the log that sets the column, or -1 when none does. */
  ghost predicate IsLatest(log: Log, i: int, column: Column) {
    && -1 <= i < |log| && (i >= 0 ==> Sets(log[i], column))
    && forall j :: i < j < |log| ==> !Sets(log[j], column)
  }

  lemma LatestGrows(log: Log, i: int, column: Column)
    requires log != [] && IsLatest(Front(log), i, column)
    ensures IsLatest(log, if Sets(Last(log), column) then |log| - 1 else i, column)
  {
    assert forall j :: 0 <= j < |log| - 1 ==> Front(log)[j] == log[j];
  }

  /** The status is that of the latest event, whatever came before. */
  lemma StatusIsLatest(log: Log)
    requires log != []
    ensures Project(log).status ==
            match Last(log)
            case RunStarted(_, _, _, _) => Pending
            case StepStarted(_, kind) => if kind == Sleep then WaitingTimer else Running
            case StepCompleted(_, _) => Running
            case StepFailed(_, _, _, willRetry) => if willRetry then WaitingTimer else Running
            case GateOpened(_, _, _) => WaitingGate
            case GateResolved(_, _, _, _) => Pending
            case RunCompleted(_) => Completed
            case RunFailed(_, _) => Failed
            case RunCancelled(_, _) => Cancelled
  {
  }

  /** Every other column is that of the latest event which sets it: the step of a start or of the
      run's failure, the output of a completion, the error of a failure, the request of a start. */
  lemma {:induction false} ColumnsAreLatest(log: Log) returns (step: int, output: int, error: int, start: int)
    ensures IsLatest(log, step, Step)
    ensures Project(log).currentStep == if step < 0 then None
                                        else if log[step].StepStarted? then Some(log[step].stepKey)
                                        else Some(log[step].failedStep)
    ensures IsLatest(log, output, Output)
    ensures Project(log).outputRef == if output < 0 then None else log[output].outputRef
    ensures IsLatest(log, error, Failure)
    ensures Project(log).error == if error < 0 then None else Some(log[error].error)
    ensures IsLatest(log, start, Request)
    ensures var p := Project(log);
            if start < 0 then p.name.None? && p.version.None? && p.input.None?
            else p.name == Some(log[start].name) && p.version == Some(log[start].version)
                 && p.input == Some(log[start].input)
  {
    step, output, error, start := -1, -1, -1, -1;
    if log != [] {
      step, output, error, start := ColumnsAreLatest(Front(log));
      var e, n := Last(log), |log| - 1;
      LatestGrows(log, step, Step);
      LatestGrows(log, output, Output);
      LatestGrows(log, error, Failure);
      LatestGrows(log, start, Request);
      step := if e.StepStarted? || e.RunFailed? then n else step;
      output := if e.RunCompleted? then n else output;
      error := if e.RunFailed? then n else error;
      start := if e.RunStarted? then n else start;
    }
  }

  /** The fold, as the loop that rebuilds a run row from its log. */
  method ProjectRun(log: Log) returns (p: Projection)
    ensures p == Project(log)
  {
    p := BLANK;
    for i := 0 to |log|
      invariant p == Project(log[..i])
    {
      assert Front(log[..i + 1]) == log[..i];
      match log[i]
      case RunStarted(name, version, input, _) =>
        p := p.(name := Some(name), version := Some(version), input := Some(input));
        p := p.(status := Pending);
      case StepStarted(key, kind) =>
        p := p.(currentStep := Some(key));
        p := p.(status := if kind.Sleep? then WaitingTimer else Running);
      case StepCompleted(_, _) =>
        p := p.(status := Running);
      case StepFailed(_, _, _, willRetry) =>
        p := p.(status := if willRetry then WaitingTimer else Running);
      case GateOpened(_, _, _) =>
        p := p.(status := WaitingGate);
      case GateResolved(_, _, _, _) =>
        p := p.(status := Pending);
      case RunCompleted(outputRef) =>
        p := p.(outputRef := outputRef, status := Completed);
      case RunFailed(error, failedStep) =>
        p := p.(error := Some(error));
        p := p.(currentStep := Some(failedStep), status := Failed);
      case RunCancelled(_, _) =>
        p := p.(status := Cancelled);
    }
    assert log[..|log|] == log;
  }

  // ----- lookups -----

  /** The run has reached some terminal event. */
  predicate HasEnded(log: Log) {
    exists e | e in log :: e.EndsRun()
  }

  predicate Overrules(e: Event) {
    e.RunFailed? || e.RunCancelled?
  }

  /** A run_failed or run_cancelled is somewhere in the log. */
  predicate Overruled(log: Log) {
    exists e | e in log :: Overrules(e)
  }

  predicate WasCancelled(log: Log) {
    exists e | e in log :: e.RunCancelled?
  }

  predicate IsCompleted(log: Log, key: Key) {
    exists e | e in log :: e.StepCompleted? && e.stepKey == key
  }

  predicate IsFailed(log: Log, key: Key) {
    exists e | e in log :: e.StepFailed? && e.stepKey == key
  }

  predicate IsStarted(log: Log, key: Key, kind: StepKind) {
    StepStarted(key, kind) in log
  }

  predicate IsOpened(log: Log, key: Key) {
    exists e | e in log :: e.GateOpened? && e.stepKey == key
  }

  predicate IsResolved(log: Log, key: Key) {
    exists e | e in log :: e.GateResolved? && e.stepKey == key
  }

  /** Completed steps and their results: a later completion of a key overwrites an earlier one. */
  function Results(log: Log): map<Key, Value> {
    if log == [] then map[]
    else
      var prior := Results(Front(log));
      match Last(log)
      case StepCompleted(key, result) => prior[key := result]
      case _ => prior
  }

  /** Resolved gates and their decisions. */
  function Decisions(log: Log): map<Key, Value> {
    if log == [] then map[]
    else
      var prior := Decisions(Front(log));
      match Last(log)
      case GateResolved(key, _, decision, _) => prior[key := DecisionValue(decision)]
      case _ => prior
  }

  /** Opened gates and the labels they were opened under. */
  function Opened(log: Log): map<Key, string> {
    if log == [] then map[]
    else
      var prior := Opened(Front(log));
      match Last(log)
      case GateOpened(key, gateKey, _) => prior[key := gateKey]
      case _ => prior
  }

  /** What a decided gate hands the body. */
  function DecisionValue(d: Decision): Value {
    match d
    case Approved => "approved"
    case Rejected => "rejected"
  }

  /** How often each step completed. */
  function Completions(log: Log): multiset<Key> {
    if log == [] then multiset{}
    else Completions(Front(log)) + (if Last(log).StepCompleted? then multiset{Last(log).stepKey} else multiset{})
  }

  /** How often each step failed. */
  function Failures(log: Log): multiset<Key> {
    if log == [] then multiset{}
    else Failures(Front(log)) + (if Last(log).StepFailed? then multiset{Last(log).stepKey} else multiset{})
  }

  /** How often each gate was resolved. */
  function Resolutions(log: Log): multiset<Key> {
    if log == [] then multiset{}
    else Resolutions(Front(log)) + (if Last(log).GateResolved? then multiset{Last(log).stepKey} else multiset{})
  }

  lemma {:induction false} CompletionsAreResults(log: Log, key: Key)
    ensures key in Completions(log) <==> key in Results(log)
    ensures key in Results(log) <==> IsCompleted(log, key)
  {
    if log != [] {
      CompletionsAreResults(Front(log), key);
      assert forall e :: e in log <==> e in Front(log) || e == Last(log);
    }
  }

  lemma {:induction false} ResolutionsAreDecisions(log: Log, key: Key)
    ensures key in Resolutions(log) <==> key in Decisions(log)
    ensures key in Decisions(log) <==> IsResolved(log, key)
  {
    if log != [] {
      ResolutionsAreDecisions(Front(log), key);
      assert forall e :: e in log <==> e in Front(log) || e == Last(log);
    }
  }

  lemma {:induction false} FailuresAreFailed(log: Log, key: Key)
    ensures key in Failures(log) <==> IsFailed(log, key)
  {
    if log != [] {
      FailuresAreFailed(Front(log), key);
      assert forall e :: e in log <==> e in Front(log) || e == Last(log);
    }
  }

  lemma {:induction false} OpenedAreOpened(log: Log, key: Key)
    ensures key in Opened(log) <==> IsOpened(log, key)
  {
    if log != [] {
      OpenedAreOpened(Front(log), key);
      assert forall e :: e in log <==> e in Front(log) || e == Last(log);
    }
  }

  /** The counts and lookups of a log with one more event. */
  lemma AppendCounts(log: Log, e: Event)
    ensures Results(log + [e]) == if e.StepCompleted? then Results(log)[e.stepKey := e.result] else Results(log)
    ensures Decisions(log + [e]) == if e.GateResolved? then Decisions(log)[e.stepKey := DecisionValue(e.decision)]
              else Decisions(log)
    ensures Opened(log + [e]) == if e.GateOpened? then Opened(log)[e.stepKey := e.gateKey] else Opened(log)
    ensures Completions(log + [e]) == Completions(log) + if e.StepCompleted? then multiset{e.stepKey} else multiset{}
    ensures Failures(log + [e]) == Failures(log) + if e.StepFailed? then multiset{e.stepKey} else multiset{}
    ensures Resolutions(log + [e]) == Resolutions(log) + if e.GateResolved? then multiset{e.stepKey} else multiset{}
  {
    assert Front(log + [e]) == log;
  }
}
