/**
 Idempotent persistence of device events (dealdata_common/ingestion.py and the lookup of
 gps_layer/gps_data/ingestion.py). Looking up, validating and inserting are separate steps
 that any number of workers interleave over one table with two partial unique keys.
 */
module EventIngestion {
  import opened Wrappers

  /** An event's idempotency keys and everything else. An empty key column constrains nothing. */
  datatype Columns = Columns(source: string, eventId: string, hash: string, content: string)

  /** Both the event contract and `save` fill the hash with a digest, which is never empty. */
  type Event = e: Columns | e.hash != "" witness Columns("", "", "0", "")

  /** Rows in order of insertion; a row is identified by its place. */
  type Table = seq<Event>

  predicate SameEventId(a: Event, b: Event) {
    a.source == b.source && a.eventId == b.eventId && a.eventId != ""
  }

  predicate SameHash(a: Event, b: Event) {
    a.source == b.source && a.hash == b.hash && a.hash != ""
  }

  predicate Conflicts(a: Event, b: Event) {
    SameEventId(a, b) || SameHash(a, b)
  }

  predicate Conflicted(table: Table, event: Event) {
    exists i :: 0 <= i < |table| && Conflicts(table[i], event)
  }

  /** The two partial unique constraints. */
  predicate Unique(table: Table) {
    forall i, j :: 0 <= i < j < |table| ==> !Conflicts(table[i], table[j])
  }

  lemma OneRowPerKey(table: Table, i: nat, j: nat)
    requires Unique(table) && i < |table| && j < |table|
    ensures Conflicts(table[i], table[j]) ==> i == j
  {
    assert Conflicts(table[i], table[j]) <==> Conflicts(table[j], table[i]);
  }

  function First(table: Table, matches: Event -> bool): (r: Option<nat>)
    ensures r.Some? ==> r.value < |table| && matches(table[r.value])
    ensures r.Some? ==> forall i :: 0 <= i < r.value ==> !matches(table[i])
    ensures r.None? ==> forall i :: 0 <= i < |table| ==> !matches(table[i])
  {
    if table == [] then None
    else if matches(table[0]) then Some(0)
    else
      match First(table[1..], matches)
      case None => assert forall i :: 0 < i < |table| ==> table[i] == table[1..][i - 1]; None
      case Some(i) => assert forall j :: 0 < j < |table| ==> table[j] == table[1..][j - 1]; Some(i + 1)
  }

  /** `find_existing_gps_event`: by event id first, then by payload hash. */
  function Find(table: Table, event: Event): Option<nat> {
    var byId := First(table, (row: Event) => SameEventId(row, event));
    if byId.Some? then byId else First(table, (row: Event) => SameHash(row, event))
  }

  /** The lookup finds a row exactly when the insertion would violate a constraint. */
  lemma FindsExactlyConflicts(table: Table, event: Event)
    ensures Find(table, event).Some? <==> Conflicted(table, event)
    ensures Find(table, event).Some? ==>
      Find(table, event).value < |table| && Conflicts(table[Find(table, event).value], event)
  {
  }

  /** The row that is an event's own: stored under its event id or, when it has none, under its hash. */
  predicate Identifies(row: Event, event: Event) {
    SameEventId(row, event) || (event.eventId == "" && SameHash(row, event))
  }

  /** An event is found as the row stored under its key, whatever the other columns say and however far the table has grown. */
  lemma StoredIsFound(table: Table, row: nat, event: Event)
    requires Unique(table) && row < |table| && Identifies(table[row], event)
    ensures Find(table, event) == Some(row)
  {
    if SameEventId(table[row], event) {
      forall i: nat | i < |table| && SameEventId(table[i], event) ensures i == row {
        OneRowPerKey(table, i, row);
      }
    } else {
      forall i: nat | i < |table| && SameHash(table[i], event) ensures i == row {
        OneRowPerKey(table, i, row);
      }
    }
  }

  datatype Answer = Created(row: nat) | Duplicate(row: nat) | Rejected | Raised

  // ----- one worker among others -----

  datatype Phase = Looking | Cleaning | Inserting | LookingAgain | Done(answer: Answer)

  datatype Worker = Worker(event: Event, phase: Phase)

  datatype State = State(table: Table, workers: map<nat, Worker>)

  /** One step of one worker; `cleans` is the field validation of `full_clean`, which also checks the constraints. */
  function Advance(s: State, id: nat, cleans: Event -> bool): State
    requires id in s.workers
  {
    var worker := s.workers[id];
    var event, table := worker.event, s.table;
    match worker.phase
    case Looking =>
      var found := Find(table, event);
      s.(workers := s.workers[id := worker.(phase := if found.Some? then Done(Duplicate(found.value)) else Cleaning)])
    case Cleaning =>
      s.(workers := s.workers[id := worker.(phase :=
        if !cleans(event) || Conflicted(table, event) then Done(Rejected) else Inserting)])
    case Inserting =>
      if Conflicted(table, event) then s.(workers := s.workers[id := worker.(phase := LookingAgain)])
      else State(table + [event], s.workers[id := worker.(phase := Done(Created(|table|)))])
    case LookingAgain =>
      var found := Find(table, event);
      s.(workers := s.workers[id := worker.(phase := Done(if found.Some? then Duplicate(found.value) else Raised))])
    case Done(_) => s
  }

  /** Workers arrive with an event, advance in any order, and may stop for good at any time. */
  datatype Step = Arrive(id: nat, event: Event) | Proceed(id: nat) | Stop(id: nat)

  predicate Enabled(s: State, step: Step) {
    match step
    case Arrive(id, event) => id !in s.workers
    case Proceed(id) => id in s.workers
    case Stop(id) => id in s.workers
  }

  function Apply(s: State, step: Step, cleans: Event -> bool): State
    requires Enabled(s, step)
  {
    match step
    case Arrive(id, event) => s.(workers := s.workers[id := Worker(event, Looking)])
    case Proceed(id) => Advance(s, id, cleans)
    case Stop(id) => s.(workers := s.workers - {id})
  }

  ghost predicate Legal(s: State, steps: seq<Step>, cleans: Event -> bool)
    decreases |steps|
  {
    steps != [] ==> Enabled(s, steps[0]) && Legal(Apply(s, steps[0], cleans), steps[1..], cleans)
  }

  ghost function Exec(s: State, steps: seq<Step>, cleans: Event -> bool): State
    requires Legal(s, steps, cleans)
    decreases |steps|
  {
    if steps == [] then s else Exec(Apply(s, steps[0], cleans), steps[1..], cleans)
  }

  predicate WorkerOk(table: Table, worker: Worker) {
    match worker.phase
    case Looking => true
    case Cleaning => true
    case Inserting => true
    case LookingAgain => Conflicted(table, worker.event)
    case Done(answer) =>
      match answer
      case Created(row) => row < |table| && table[row] == worker.event
      case Duplicate(row) => row < |table| && Conflicts(table[row], worker.event)
      case Rejected => true
      case Raised => false
  }

  ghost predicate Inv(s: State) {
    && Unique(s.table)
    && (forall id :: id in s.workers ==> WorkerOk(s.table, s.workers[id]))
  }

  lemma PrefixIsUnique(table: Table, more: Table)
    requires table <= more && Unique(more)
    ensures Unique(table)
  {
    forall i, j | 0 <= i < j < |table| ensures !Conflicts(table[i], table[j]) {
      assert table[i] == more[i] && table[j] == more[j];
    }
  }

  lemma ConflictStays(table: Table, more: Table, event: Event)
    requires table <= more && Conflicted(table, event)
    ensures Conflicted(more, event)
  {
    var i :| 0 <= i < |table| && Conflicts(table[i], event);
    assert more[i] == table[i];
  }

  lemma WorkerStays(table: Table, more: Table, worker: Worker)
    requires table <= more && WorkerOk(table, worker)
    ensures WorkerOk(more, worker)
  {
    if worker.phase.LookingAgain? { ConflictStays(table, more, worker.event); }
  }

  lemma StepIsSafe(s: State, step: Step, cleans: Event -> bool)
    requires Inv(s) && Enabled(s, step)
    ensures Inv(Apply(s, step, cleans)) && s.table <= Apply(s, step, cleans).table
  {
    var s' := Apply(s, step, cleans);
    if step.Proceed? {
      FindsExactlyConflicts(s.table, s.workers[step.id].event);
      assert WorkerOk(s.table, s.workers[step.id]);
    }
    forall id | id in s'.workers && id in s.workers && s'.workers[id] == s.workers[id]
      ensures WorkerOk(s'.table, s'.workers[id])
    {
      WorkerStays(s.table, s'.table, s.workers[id]);
    }
  }

  lemma {:induction false} RunIsSafe(s: State, steps: seq<Step>, cleans: Event -> bool)
    requires Inv(s) && Legal(s, steps, cleans)
    ensures Inv(Exec(s, steps, cleans)) && s.table <= Exec(s, steps, cleans).table
    decreases |steps|
  {
    hide Apply, Enabled;
    if steps != [] {
      StepIsSafe(s, steps[0], cleans);
      RunIsSafe(Apply(s, steps[0], cleans), steps[1..], cleans);
    }
  }

  const EMPTY := State([], map[])

  /** No two rows ever share a key, and the conflict that a lost race reports is always found again. */
  lemma RacesAreResolved(steps: seq<Step>, cleans: Event -> bool, id: nat)
    requires Legal(EMPTY, steps, cleans)
    ensures
      var s := Exec(EMPTY, steps, cleans);
      && Unique(s.table)
      && (id in s.workers ==> s.workers[id].phase != Done(Raised))
      && (id in s.workers && s.workers[id].phase.Done? && s.workers[id].phase.answer.Duplicate? ==>
           var row := s.workers[id].phase.answer.row;
           row < |s.table| && Conflicts(s.table[row], s.workers[id].event))
  {
    RunIsSafe(EMPTY, steps, cleans);
    var s := Exec(EMPTY, steps, cleans);
    if id in s.workers { assert WorkerOk(s.table, s.workers[id]); }
  }

  /** A worker whose event shares a key with `row` can only report a row that shares one, and `row` itself if that is the event's own. */
  predicate Answering(s: State, id: nat, row: nat) {
    id in s.workers ==>
      var event, phase := s.workers[id].event, s.workers[id].phase;
      && row < |s.table| && Conflicts(s.table[row], event)
      && (phase == Looking ||
          (&& phase.Done? && phase.answer.Duplicate?
           && phase.answer.row < |s.table| && Conflicts(s.table[phase.answer.row], event)
           && (Identifies(s.table[row], event) ==> phase.answer.row == row)))
  }

  lemma AnsweringStays(s: State, step: Step, cleans: Event -> bool, id: nat, row: nat)
    requires Inv(s) && Enabled(s, step) && Answering(s, id, row)
    requires step.Arrive? ==> step.id != id
    ensures Answering(Apply(s, step, cleans), id, row)
  {
    if step.Proceed? && step.id == id {
      FindsExactlyConflicts(s.table, s.workers[id].event);
      if Identifies(s.table[row], s.workers[id].event) { StoredIsFound(s.table, row, s.workers[id].event); }
    }
  }

  /**
   First writer wins: an event that shares a key with a stored row is never inserted, under any
   interleaving. Re-sent under its event id, or without one under its hash, it is answered with
   the row stored first, even if every other column differs.
   */
  lemma {:induction false} FirstWriterWins(s: State, steps: seq<Step>, cleans: Event -> bool, id: nat, row: nat)
    requires Inv(s) && Legal(s, steps, cleans)
    requires Answering(s, id, row)
    requires forall i :: 0 <= i < |steps| ==> !(steps[i].Arrive? && steps[i].id == id)
    ensures Answering(Exec(s, steps, cleans), id, row)
    ensures s.table <= Exec(s, steps, cleans).table
    decreases |steps|
  {
    hide Apply, Enabled, Answering;
    RunIsSafe(s, steps, cleans);
    if steps != [] {
      StepIsSafe(s, steps[0], cleans);
      AnsweringStays(s, steps[0], cleans, id, row);
      FirstWriterWins(Apply(s, steps[0], cleans), steps[1..], cleans, id, row);
    }
  }

  // ----- the answer of one worker among others -----

  /** The answer, from the tables that the lookup, the validation, the insertion and the second lookup meet. */
  function AnswerTo(event: Event, cleans: Event -> bool, looked: Table, validated: Table, inserted: Table, again: Table)
    : Answer
  {
    match Find(looked, event)
    case Some(row) => Duplicate(row)
    case None =>
      if !cleans(event) || Find(validated, event).Some? then Rejected
      else if Find(inserted, event).None? then Created(|inserted|)
      else
        match Find(again, event)
        case Some(row) => Duplicate(row)
        case None => Raised
  }

  /** Steps of others change nothing about a worker. */
  lemma {:induction false} OthersLeaveIt(s: State, others: seq<Step>, id: nat, cleans: Event -> bool)
    requires Legal(s, others, cleans) && id in s.workers
    requires forall i :: 0 <= i < |others| ==> others[i].id != id
    ensures id in Exec(s, others, cleans).workers && Exec(s, others, cleans).workers[id] == s.workers[id]
    decreases |others|
  {
    if others != [] {
      var next := Apply(s, others[0], cleans);
      assert next.workers[id] == s.workers[id];
      OthersLeaveIt(next, others[1..], id, cleans);
    }
  }

  /** A step of `id`, then any steps of others. */
  ghost predicate Turn(s: State, id: nat, others: seq<Step>, cleans: Event -> bool)
    ensures Turn(s, id, others, cleans) ==> id in s.workers
  {
    && id in s.workers
    && (forall i :: 0 <= i < |others| ==> others[i].id != id)
    && Legal(Advance(s, id, cleans), others, cleans)
  }

  ghost function AfterTurn(s: State, id: nat, others: seq<Step>, cleans: Event -> bool): (r: State)
    requires Turn(s, id, others, cleans)
    ensures id in r.workers && r.workers[id] == Advance(s, id, cleans).workers[id]
  {
    OthersLeaveIt(Advance(s, id, cleans), others, id, cleans);
    Exec(Advance(s, id, cleans), others, cleans)
  }

  /** Whatever others do between its four steps, a worker's answer is determined by the tables its steps meet. */
  lemma AnswerIsDetermined(s: State, id: nat, first: seq<Step>, second: seq<Step>, third: seq<Step>, cleans: Event -> bool)
    requires Turn(s, id, first, cleans) && s.workers[id].phase == Looking
    requires Turn(AfterTurn(s, id, first, cleans), id, second, cleans)
    requires Turn(AfterTurn(AfterTurn(s, id, first, cleans), id, second, cleans), id, third, cleans)
    ensures
      var s1 := AfterTurn(s, id, first, cleans);
      var s2 := AfterTurn(s1, id, second, cleans);
      var s3 := AfterTurn(s2, id, third, cleans);
      Advance(s3, id, cleans).workers[id].phase
        == Done(AnswerTo(s.workers[id].event, cleans, s.table, s1.table, s2.table, s3.table))
  {
    hide AfterTurn, Turn, Find, Conflicted;
    var event := s.workers[id].event;
    var s1 := AfterTurn(s, id, first, cleans);
    var s2 := AfterTurn(s1, id, second, cleans);
    FindsExactlyConflicts(s1.table, event);
    FindsExactlyConflicts(s2.table, event);
  }

  /**
   A valid event is rejected in a lost race exactly when no row conflicted at its lookup and one
   did at its validation, whatever the steps of others in between and afterwards.
   */
  lemma LostRaceIsRejected(s: State, id: nat, first: seq<Step>, second: seq<Step>, third: seq<Step>, cleans: Event -> bool)
    requires Turn(s, id, first, cleans) && s.workers[id].phase == Looking && cleans(s.workers[id].event)
    requires Turn(AfterTurn(s, id, first, cleans), id, second, cleans)
    requires Turn(AfterTurn(AfterTurn(s, id, first, cleans), id, second, cleans), id, third, cleans)
    ensures
      var event, s1 := s.workers[id].event, AfterTurn(s, id, first, cleans);
      var s3 := AfterTurn(AfterTurn(s1, id, second, cleans), id, third, cleans);
      var phase := Advance(s3, id, cleans).workers[id].phase;
      phase == Done(Rejected) <==> !Conflicted(s.table, event) && Conflicted(s1.table, event)
  {
    hide AfterTurn, Turn, Advance;
    AnswerIsDetermined(s, id, first, second, third, cleans);
    FindsExactlyConflicts(s.table, s.workers[id].event);
    FindsExactlyConflicts(AfterTurn(s, id, first, cleans).table, s.workers[id].event);
  }

  lemma {:induction false} RunExtends(s: State, steps: seq<Step>, step: Step, cleans: Event -> bool)
    requires Legal(s, steps, cleans) && Enabled(Exec(s, steps, cleans), step)
    ensures Legal(s, steps + [step], cleans)
    ensures Exec(s, steps + [step], cleans) == Apply(Exec(s, steps, cleans), step, cleans)
    decreases |steps|
  {
    hide Apply, Enabled;
    if steps == [] {
      assert ([] + [step])[1..] == [];
    } else {
      RunExtends(Apply(s, steps[0], cleans), steps[1..], step, cleans);
      assert (steps + [step])[1..] == steps[1..] + [step];
    }
  }

  /** Two workers with the same event, one of which stored it before the other validated. */
  function Race(event: Event, n: nat): State {
    var table := if n < 6 then [] else [event];
    var first :=
      if n < 3 then Looking else if n < 5 then Cleaning else if n == 5 then Inserting else Done(Created(0));
    var second := if n < 4 then Looking else if n < 7 then Cleaning else Done(Rejected);
    State(table, if n == 0 then map[] else if n == 1 then map[0 := Worker(event, first)]
                 else map[0 := Worker(event, first), 1 := Worker(event, second)])
  }

  function RaceStep(event: Event, n: nat): Step {
    if n < 2 then Arrive(n, event) else if n == 3 || n == 6 then Proceed(1) else Proceed(0)
  }

  lemma RaceSteps(event: Event, n: nat, cleans: Event -> bool)
    requires cleans(event) && n < 7
    ensures Enabled(Race(event, n), RaceStep(event, n))
    ensures Apply(Race(event, n), RaceStep(event, n), cleans) == Race(event, n + 1)
  {
    assert n == 6 ==> Conflicts(Race(event, n).table[0], event);
  }

  lemma {:induction false} RaceRuns(event: Event, n: nat, cleans: Event -> bool)
    requires cleans(event) && n <= 7
    ensures
      var steps := seq(n, i requires 0 <= i < n => RaceStep(event, i));
      Legal(EMPTY, steps, cleans) && Exec(EMPTY, steps, cleans) == Race(event, n)
  {
    hide Apply, Enabled;
    var steps := seq(n, i requires 0 <= i < n => RaceStep(event, i));
    if n > 0 {
      RaceRuns(event, n - 1, cleans);
      RaceSteps(event, n - 1, cleans);
      var earlier := seq(n - 1, i requires 0 <= i < n - 1 => RaceStep(event, i));
      RunExtends(EMPTY, earlier, RaceStep(event, n - 1), cleans);
      assert steps == earlier + [RaceStep(event, n - 1)];
    }
  }

  /** So every valid event can be stored by one worker and rejected, not recognised, for another that brought it too. */
  lemma RaceCanBeLost(event: Event, cleans: Event -> bool)
    requires cleans(event)
    ensures exists steps ::
      && Legal(EMPTY, steps, cleans)
      && Exec(EMPTY, steps, cleans).table == [event]
      && Exec(EMPTY, steps, cleans).workers ==
           map[0 := Worker(event, Done(Created(0))), 1 := Worker(event, Done(Rejected))]
  {
    hide Apply, Enabled;
    RaceRuns(event, 7, cleans);
  }

  // ----- the workflow as the code runs it -----

  class EventTable {
    var rows: Table

    constructor ()
      ensures rows == []
    {
      rows := [];
    }

    /**
     `persist_idempotent_event`. Other workers commit `beforeClean` between the lookup and the
     validation, and `beforeSave` between the validation and the insertion.
     */
    method Persist(event: Event, cleans: Event -> bool, beforeClean: Table, beforeSave: Table) returns (answer: Answer)
      requires Unique(rows + beforeClean + beforeSave)
      modifies this
      ensures Unique(rows)
      ensures
        var validated := old(rows) + beforeClean;
        var inserted := validated + beforeSave;
        answer == AnswerTo(event, cleans, old(rows), validated, inserted, inserted) != Raised
      ensures Find(old(rows), event).Some? ==> rows == old(rows) && answer == Duplicate(Find(old(rows), event).value)
      ensures answer.Rejected? <==>
        Find(old(rows), event).None? && (!cleans(event) || Conflicted(old(rows) + beforeClean, event))
      ensures answer.Rejected? ==> rows == old(rows) + beforeClean
      ensures Find(old(rows), event).None? && !answer.Rejected? ==>
        var raced := old(rows) + beforeClean + beforeSave;
        match Find(raced, event)
        case None => rows == raced + [event] && answer == Created(|raced|)
        case Some(row) => rows == raced && answer == Duplicate(row)
    {
      ghost var all := rows + beforeClean + beforeSave;
      PrefixIsUnique(rows, all);
      PrefixIsUnique(rows + beforeClean, all);
      var existing := Find(rows, event);
      FindsExactlyConflicts(rows, event);
      if existing.Some? { return Duplicate(existing.value); }
      rows := rows + beforeClean;
      if !cleans(event) || Conflicted(rows, event) { return Rejected; }
      rows := rows + beforeSave;
      assert rows == all;
      FindsExactlyConflicts(rows, event);
      if Conflicted(rows, event) {
        existing := Find(rows, event);
        return Duplicate(existing.value);
      }
      rows := rows + [event];
      return Created(|rows| - 1);
    }
  }
}
