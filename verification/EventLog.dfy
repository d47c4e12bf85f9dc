/** Appending to the event table: any number of appenders, each taking the run's advisory lock,
    reading the highest sequence number, inserting and committing, or rolling back at any point. */
module EventLog {
  import opened Prelude
  import opened Events
  import opened Tables

  datatype Entry = Entry(number: nat, event: Event)

  datatype Stage =
    | Idle
    | Locked(run: RunId)
    | Read(run: RunId, number: nat)
    | Inserted(run: RunId, number: nat, event: Event)

  /** The committed table, by run in commit order, each appender's transaction, and the holder of
      each lock. Runs may share a lock: its key is a hash. */
  datatype State = State(table: map<RunId, seq<Entry>>, stages: map<nat, Stage>, holders: map<int, nat>)

  datatype Step =
    | Acquire(who: nat, run: RunId)
    | ReadMax(who: nat)
    | Insert(who: nat, event: Event)
    | Commit(who: nat)
    | Abort(who: nat)

  const EMPTY: State := State(map[], map[], map[])

  function Entries(s: State, run: RunId): seq<Entry> {
    if run in s.table then s.table[run] else []
  }

  function StageOf(s: State, who: nat): Stage {
    if who in s.stages then s.stages[who] else Idle
  }

  /** The highest number in the table, or 0. */
  function MaxNumber(entries: seq<Entry>): (n: nat)
    ensures forall i :: 0 <= i < |entries| ==> entries[i].number <= n
    ensures n == 0 || exists i :: 0 <= i < |entries| && entries[i].number == n
  {
    if entries == [] then 0
    else
      var n := MaxNumber(Front(entries));
      if Last(entries).number > n then Last(entries).number else n
  }

  /** The primary key admits the row. */
  predicate Admits(entries: seq<Entry>, number: nat) {
    forall e | e in entries :: e.number != number
  }

  predicate Enabled(s: State, step: Step, lockOf: RunId -> int) {
    match step
    case Acquire(who, run) => StageOf(s, who).Idle? && lockOf(run) !in s.holders
    case ReadMax(who) => StageOf(s, who).Locked?
    case Insert(who, _) => StageOf(s, who).Read?
    case Commit(who) => StageOf(s, who).Inserted?
    case Abort(who) => !StageOf(s, who).Idle?
  }

  function Released(s: State, who: nat, run: RunId, lockOf: RunId -> int): State {
    s.(stages := s.stages[who := Idle], holders := s.holders - {lockOf(run)})
  }

  function Do(s: State, step: Step, lockOf: RunId -> int): State
    requires Enabled(s, step, lockOf)
  {
    match step
    case Acquire(who, run) => s.(stages := s.stages[who := Locked(run)], holders := s.holders[lockOf(run) := who])
    case ReadMax(who) =>
      var run := StageOf(s, who).run;
      s.(stages := s.stages[who := Read(run, MaxNumber(Entries(s, run)) + 1)])
    case Insert(who, event) =>
      var stage := StageOf(s, who);
      s.(stages := s.stages[who := Inserted(stage.run, stage.number, event)])
    case Commit(who) =>
      var stage := StageOf(s, who);
      var t := s.(table := s.table[stage.run := Entries(s, stage.run) + [Entry(stage.number, stage.event)]]);
      Released(t, who, stage.run, lockOf)
    case Abort(who) => Released(s, who, StageOf(s, who).run, lockOf)
  }

  // ----- what every step keeps -----

  /** The numbers of a run are 1, 2, ..., n, in commit order. */
  ghost predicate IsGapless(entries: seq<Entry>) {
    forall i :: 0 <= i < |entries| ==> entries[i].number == i + 1
  }

  /** An appender past its lock holds it alone, and the number it read is still the next one. */
  ghost predicate HoldsLock(s: State, who: nat, lockOf: RunId -> int) {
    var stage := StageOf(s, who);
    !stage.Idle? ==>
      && lockOf(stage.run) in s.holders && s.holders[lockOf(stage.run)] == who
      && (stage.Read? || stage.Inserted? ==> stage.number == |Entries(s, stage.run)| + 1)
  }

  ghost predicate Inv(s: State, lockOf: RunId -> int) {
    && (forall run :: IsGapless(Entries(s, run)))
    && (forall who :: HoldsLock(s, who, lockOf))
  }

  lemma GaplessMax(entries: seq<Entry>)
    requires IsGapless(entries)
    ensures MaxNumber(entries) == |entries|
  {
    if entries != [] {
      assert entries[|entries| - 1].number == |entries|;
    }
  }

  lemma StepKeeps(s: State, step: Step, lockOf: RunId -> int)
    requires Inv(s, lockOf) && Enabled(s, step, lockOf)
    ensures Inv(Do(s, step, lockOf), lockOf)
  {
    hide MaxNumber;
    var s' := Do(s, step, lockOf);
    forall run ensures IsGapless(Entries(s', run)) {
      assert IsGapless(Entries(s, run)) && HoldsLock(s, step.who, lockOf);
    }
    forall who: nat ensures HoldsLock(s', who, lockOf) {
      assert HoldsLock(s, who, lockOf) && HoldsLock(s, step.who, lockOf);
      if step.ReadMax? && who == step.who {
        GaplessMax(Entries(s, StageOf(s, who).run));
      }
    }
  }

  ghost predicate Runs(s: State, steps: seq<Step>, lockOf: RunId -> int)
    decreases |steps|
  {
    steps == [] || (Enabled(s, steps[0], lockOf) && Runs(Do(s, steps[0], lockOf), steps[1..], lockOf))
  }

  function After(s: State, steps: seq<Step>, lockOf: RunId -> int): State
    requires Runs(s, steps, lockOf)
    decreases |steps|
  {
    if steps == [] then s else After(Do(s, steps[0], lockOf), steps[1..], lockOf)
  }

  lemma {:induction false} RunKeeps(s: State, steps: seq<Step>, lockOf: RunId -> int)
    requires Inv(s, lockOf) && Runs(s, steps, lockOf)
    ensures Inv(After(s, steps, lockOf), lockOf)
    decreases |steps|
  {
    if steps != [] {
      StepKeeps(s, steps[0], lockOf);
      RunKeeps(Do(s, steps[0], lockOf), steps[1..], lockOf);
    }
  }

  /** However appenders interleave and wherever they roll back, a run's numbers are exactly 1 to
      n without repeats or holes, and no insert meets a number already taken. */
  lemma NumbersAreGapless(steps: seq<Step>, lockOf: RunId -> int, run: RunId, who: nat)
    requires Runs(EMPTY, steps, lockOf)
    ensures var s := After(EMPTY, steps, lockOf);
      && IsGapless(Entries(s, run))
      && (StageOf(s, who).Inserted? ==> Admits(Entries(s, StageOf(s, who).run), StageOf(s, who).number))
  {
    RunKeeps(EMPTY, steps, lockOf);
    assert HoldsLock(After(EMPTY, steps, lockOf), who, lockOf);
  }

  /** An aborted append leaves the table as it was. */
  lemma AbortLeavesNoHole(s: State, who: nat, lockOf: RunId -> int, run: RunId)
    requires Inv(s, lockOf) && Enabled(s, Abort(who), lockOf)
    ensures var s' := Do(s, Abort(who), lockOf);
      && Entries(s', run) == Entries(s, run)
      && (lockOf(StageOf(s, who).run) == lockOf(run) ==> forall other ::
           Enabled(s', Acquire(other, run), lockOf) <==> StageOf(s', other).Idle?)
  {
  }
}
