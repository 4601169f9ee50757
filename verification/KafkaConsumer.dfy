/**
 The Kafka consumer of dealdata_common/kafka.py: poll a batch, ingest its records one by one,
 commit the offsets afterwards, and start again from the committed offsets after a crash anywhere.
 */
module KafkaConsumer {
  import opened EventIngestion

  type Partition = nat

  /** A record's value after decoding: no JSON object, an object outside the event contract, or an event. */
  datatype Message = Unreadable | Invalid | Carries(event: Event)

  /** The records ever appended to each partition. */
  type Log = Partition -> seq<Message>

  datatype Outcome = Inserted | Repeated | Refused

  /** `_process_message`, by the only writer of the table. */
  function OutcomeOf(table: Table, message: Message, cleans: Event -> bool): Outcome {
    if !message.Carries? then Refused
    else if Find(table, message.event).Some? then Repeated
    else if cleans(message.event) then Inserted
    else Refused
  }

  function Ingest(table: Table, message: Message, cleans: Event -> bool): Table {
    if OutcomeOf(table, message, cleans).Inserted? then table + [message.event] else table
  }

  /** One pass over `messages`. */
  function Pass(table: Table, messages: seq<Message>, cleans: Event -> bool): Table {
    if messages == [] then table
    else Ingest(Pass(table, messages[..|messages| - 1], cleans), messages[|messages| - 1], cleans)
  }

  function Tally(table: Table, messages: seq<Message>, cleans: Event -> bool, outcome: Outcome): nat {
    if messages == [] then 0
    else
      var earlier := messages[..|messages| - 1];
      var last := OutcomeOf(Pass(table, earlier, cleans), messages[|messages| - 1], cleans);
      Tally(table, earlier, cleans, outcome) + if last == outcome then 1 else 0
  }

  lemma PassExtends(table: Table, messages: seq<Message>, message: Message, cleans: Event -> bool)
    ensures Pass(table, messages + [message], cleans) == Ingest(Pass(table, messages, cleans), message, cleans)
    ensures forall outcome ::
      Tally(table, messages + [message], cleans, outcome) == Tally(table, messages, cleans, outcome)
        + if OutcomeOf(Pass(table, messages, cleans), message, cleans) == outcome then 1 else 0
  {
    assert (messages + [message])[..|messages|] == messages;
  }

  // ----- replaying a record that was handled before -----

  lemma AbsorbedStays(table: Table, message: Message, other: Message, cleans: Event -> bool)
    requires Ingest(table, message, cleans) == table
    ensures Ingest(Ingest(table, other, cleans), message, cleans) == Ingest(table, other, cleans)
  {
    if message.Carries? && cleans(message.event) {
      var more := Ingest(table, other, cleans);
      FindsExactlyConflicts(table, message.event);
      ConflictStays(table, more, message.event);
      FindsExactlyConflicts(more, message.event);
    }
  }

  lemma IngestAbsorbs(table: Table, message: Message, cleans: Event -> bool)
    ensures Ingest(Ingest(table, message, cleans), message, cleans) == Ingest(table, message, cleans)
  {
    if OutcomeOf(table, message, cleans).Inserted? {
      var more := table + [message.event];
      assert more[|table|] == message.event;
      FindsExactlyConflicts(more, message.event);
    }
  }

  lemma {:induction false} HandledIsAbsorbed(messages: seq<Message>, message: Message, cleans: Event -> bool)
    requires message in messages
    ensures var table := Pass([], messages, cleans); Ingest(table, message, cleans) == table
  {
    var earlier, last := messages[..|messages| - 1], messages[|messages| - 1];
    assert messages == earlier + [last];
    if message == last {
      IngestAbsorbs(Pass([], earlier, cleans), message, cleans);
    } else {
      HandledIsAbsorbed(earlier, message, cleans);
      AbsorbedStays(Pass([], earlier, cleans), message, last, cleans);
    }
  }

  // ----- the records of several partitions in the order of their first handling -----

  function Count(order: seq<Partition>, p: Partition): nat {
    if order == [] then 0
    else Count(order[..|order| - 1], p) + if order[|order| - 1] == p then 1 else 0
  }

  lemma CountExtends(order: seq<Partition>, q: Partition, p: Partition)
    ensures Count(order + [q], p) == Count(order, p) + if q == p then 1 else 0
  {
    assert (order + [q])[..|order|] == order;
  }

  lemma {:induction false} CountSplits(order: seq<Partition>, p: Partition)
    requires order != []
    ensures Count(order, p) == Count(order[1..], p) + if order[0] == p then 1 else 0
  {
    if |order| > 1 {
      var earlier := order[..|order| - 1];
      CountSplits(earlier, p);
      assert earlier[1..] == order[1..][..|order| - 2];
    }
  }

  ghost predicate Covered(log: Log, order: seq<Partition>) {
    forall p :: Count(order, p) <= |log(p)|
  }

  lemma PrefixIsCovered(log: Log, order: seq<Partition>)
    requires Covered(log, order) && order != []
    ensures Covered(log, order[..|order| - 1])
    ensures var p := order[|order| - 1]; Count(order[..|order| - 1], p) < |log(p)|
  {
    forall p ensures Count(order[..|order| - 1], p) <= |log(p)| {
      assert Count(order, p) <= |log(p)|;
    }
    assert Count(order, order[|order| - 1]) <= |log(order[|order| - 1])|;
  }

  /** The interleaving of partition prefixes that `order` names. */
  ghost function Records(log: Log, order: seq<Partition>): seq<Message>
    requires Covered(log, order)
  {
    if order == [] then []
    else
      PrefixIsCovered(log, order);
      var earlier, p := order[..|order| - 1], order[|order| - 1];
      Records(log, earlier) + [log(p)[Count(earlier, p)]]
  }

  lemma RecordsExtend(log: Log, order: seq<Partition>, p: Partition)
    requires Covered(log, order) && Count(order, p) < |log(p)|
    ensures Covered(log, order + [p])
    ensures Records(log, order + [p]) == Records(log, order) + [log(p)[Count(order, p)]]
  {
    forall q ensures Count(order + [p], q) <= |log(q)| {
      CountExtends(order, p, q);
      assert Count(order, q) <= |log(q)|;
    }
    assert (order + [p])[..|order|] == order;
  }

  /** Every record before the high-water mark of its partition is among those handled. */
  lemma {:induction false} BelowMarkIsHandled(log: Log, order: seq<Partition>, p: Partition, offset: nat)
    requires Covered(log, order) && offset < Count(order, p)
    ensures offset < |log(p)| && log(p)[offset] in Records(log, order)
  {
    assert Count(order, p) <= |log(p)|;
    PrefixIsCovered(log, order);
    var earlier := order[..|order| - 1];
    if offset < Count(earlier, p) { BelowMarkIsHandled(log, earlier, p, offset); }
  }

  // ----- the consumer as a state machine -----

  /**
   `cursor` is the offset of the next record to ingest, `pending` the rest of the polled batch by
   partition, and `order` the history of first handlings.
   */
  datatype Progress = Progress(
    table: Table,
    committed: map<Partition, nat>,
    cursor: map<Partition, nat>,
    pending: seq<Partition>,
    order: seq<Partition>
  )

  const START := Progress([], map[], map[], [], [])

  /** A partition without a committed offset is read from its beginning. */
  function At(offsets: map<Partition, nat>, p: Partition): nat {
    if p in offsets then offsets[p] else 0
  }

  datatype Step = Poll(batch: seq<Partition>) | Process | Commit | Crash

  ghost predicate Fetchable(log: Log, cursor: map<Partition, nat>, batch: seq<Partition>) {
    forall p :: At(cursor, p) + Count(batch, p) <= |log(p)|
  }

  ghost predicate Ready(log: Log, s: Progress, step: Step) {
    match step
    case Poll(batch) => s.pending == [] && s.cursor == s.committed && Fetchable(log, s.cursor, batch)
    case Process => s.pending != [] && At(s.cursor, s.pending[0]) < |log(s.pending[0])|
    case Commit => s.pending == []
    case Crash => true
  }

  function Processed(log: Log, s: Progress, cleans: Event -> bool): Progress
    requires s.pending != [] && At(s.cursor, s.pending[0]) < |log(s.pending[0])|
  {
    var p := s.pending[0];
    var offset := At(s.cursor, p);
    s.(table := Ingest(s.table, log(p)[offset], cleans), cursor := s.cursor[p := offset + 1], pending := s.pending[1..],
       order := if offset == Count(s.order, p) then s.order + [p] else s.order)
  }

  ghost function Apply(log: Log, s: Progress, step: Step, cleans: Event -> bool): Progress
    requires Ready(log, s, step)
  {
    match step
    case Poll(batch) => s.(pending := batch)
    case Process => Processed(log, s, cleans)
    case Commit => s.(committed := s.cursor)
    case Crash => s.(cursor := s.committed, pending := [])
  }

  ghost predicate Feasible(log: Log, s: Progress, steps: seq<Step>, cleans: Event -> bool)
    decreases |steps|, 0
  {
    steps != [] ==>
      var earlier := steps[..|steps| - 1];
      Feasible(log, s, earlier, cleans) && Ready(log, After(log, s, earlier, cleans), steps[|steps| - 1])
  }

  ghost function After(log: Log, s: Progress, steps: seq<Step>, cleans: Event -> bool): Progress
    requires Feasible(log, s, steps, cleans)
    decreases |steps|, 1
  {
    if steps == [] then s
    else Apply(log, After(log, s, steps[..|steps| - 1], cleans), steps[|steps| - 1], cleans)
  }

  ghost predicate Bounded(log: Log, s: Progress, p: Partition) {
    && At(s.committed, p) <= At(s.cursor, p) <= Count(s.order, p)
    && At(s.cursor, p) + Count(s.pending, p) <= |log(p)|
  }

  ghost predicate Inv(log: Log, s: Progress, cleans: Event -> bool) {
    && Covered(log, s.order)
    && s.table == Pass([], Records(log, s.order), cleans)
    && forall p :: Bounded(log, s, p)
  }

  lemma ProcessIsSafe(log: Log, s: Progress, cleans: Event -> bool)
    requires Inv(log, s, cleans) && Ready(log, s, Process)
    ensures Inv(log, Processed(log, s, cleans), cleans)
  {
    var p := s.pending[0];
    var offset := At(s.cursor, p);
    assert Bounded(log, s, p);
    var message, s' := log(p)[offset], Processed(log, s, cleans);
    if offset == Count(s.order, p) {
      RecordsExtend(log, s.order, p);
      PassExtends([], Records(log, s.order), message, cleans);
    } else {
      BelowMarkIsHandled(log, s.order, p, offset);
      HandledIsAbsorbed(Records(log, s.order), message, cleans);
    }
    forall q ensures Bounded(log, s', q) {
      assert Bounded(log, s, q);
      CountSplits(s.pending, q);
      CountExtends(s.order, p, q);
    }
  }

  lemma StepIsSafe(log: Log, s: Progress, step: Step, cleans: Event -> bool)
    requires Inv(log, s, cleans) && Ready(log, s, step)
    ensures Inv(log, Apply(log, s, step, cleans), cleans)
  {
    if step.Process? {
      ProcessIsSafe(log, s, cleans);
    } else {
      var s' := Apply(log, s, step, cleans);
      forall p ensures Bounded(log, s', p) {
        assert Bounded(log, s, p);
        if step.Poll? { assert At(s.cursor, p) + Count(step.batch, p) <= |log(p)|; }
      }
    }
  }

  lemma {:induction false} RunIsSafe(log: Log, steps: seq<Step>, cleans: Event -> bool)
    requires Feasible(log, START, steps, cleans)
    ensures Inv(log, After(log, START, steps, cleans), cleans)
    decreases |steps|
  {
    if steps == [] {
      assert forall p :: Count([], p) == 0;
      assert forall p :: Bounded(log, START, p);
    } else {
      var earlier := steps[..|steps| - 1];
      RunIsSafe(log, earlier, cleans);
      StepIsSafe(log, After(log, START, earlier, cleans), steps[|steps| - 1], cleans);
    }
  }

  /**
   However the consumer crashed and replayed, the table is that of one pass over the handled
   prefixes, and committed offsets stay within those prefixes.
   */
  lemma CrashSafe(log: Log, steps: seq<Step>, cleans: Event -> bool)
    requires Feasible(log, START, steps, cleans)
    ensures
      var s := After(log, START, steps, cleans);
      && Covered(log, s.order)
      && s.table == Pass([], Records(log, s.order), cleans)
      && forall p :: At(s.committed, p) <= Count(s.order, p)
  {
    RunIsSafe(log, steps, cleans);
    var s := After(log, START, steps, cleans);
    forall p ensures At(s.committed, p) <= Count(s.order, p) { assert Bounded(log, s, p); }
  }

  /** After a crash every partition is read again from its committed offset, and nothing that was stored is undone. */
  lemma RestartReplays(log: Log, s: Progress, cleans: Event -> bool, p: Partition)
    ensures
      var s' := Apply(log, s, Crash, cleans);
      At(s'.cursor, p) == At(s.committed, p) && s'.pending == [] && s'.table == s.table && s'.committed == s.committed
  {
  }

  /** No acceptable event is lost: below a committed offset, its key is in the table. */
  lemma CommittedIsStored(log: Log, steps: seq<Step>, cleans: Event -> bool, p: Partition, offset: nat)
    requires Feasible(log, START, steps, cleans)
    requires var s := After(log, START, steps, cleans); offset < At(s.committed, p)
    ensures offset < |log(p)|
    ensures
      var message := log(p)[offset];
      message.Carries? && cleans(message.event) ==>
        Conflicted(After(log, START, steps, cleans).table, message.event)
  {
    CrashSafe(log, steps, cleans);
    var s := After(log, START, steps, cleans);
    assert At(s.committed, p) <= Count(s.order, p);
    BelowMarkIsHandled(log, s.order, p, offset);
    var message := log(p)[offset];
    HandledIsAbsorbed(Records(log, s.order), message, cleans);
    if message.Carries? { FindsExactlyConflicts(s.table, message.event); }
  }

  lemma {:induction false} SingleOrder(log: Log, order: seq<Partition>, only: Partition)
    requires Covered(log, order)
    requires forall p :: p != only ==> log(p) == []
    ensures |order| == Count(order, only) <= |log(only)|
    ensures Records(log, order) == log(only)[..|order|]
  {
    if order != [] {
      PrefixIsCovered(log, order);
      SingleOrder(log, order[..|order| - 1], only);
    }
    assert Count(order, only) <= |log(only)|;
  }

  /** With one partition the schedule leaves no trace at all: the table is that of one pass over a log prefix. */
  lemma OnePartition(log: Log, steps: seq<Step>, cleans: Event -> bool, only: Partition)
    requires Feasible(log, START, steps, cleans)
    requires forall p :: p != only ==> log(p) == []
    ensures
      var s := After(log, START, steps, cleans);
      && At(s.committed, only) <= |s.order| <= |log(only)|
      && s.table == Pass([], log(only)[..|s.order|], cleans)
  {
    CrashSafe(log, steps, cleans);
    var s := After(log, START, steps, cleans);
    SingleOrder(log, s.order, only);
    assert At(s.committed, only) <= Count(s.order, only);
  }

  // ----- one iteration as the code runs it -----

  /** The steps of an iteration in which nothing fails. */
  function BatchSteps(batch: seq<Partition>, n: nat): seq<Step> {
    [Poll(batch)] + seq(n, _ => Process)
  }

  lemma {:induction false} PrefixCounts(batch: seq<Partition>, i: nat, p: Partition)
    requires i <= |batch|
    ensures Count(batch[..i], p) <= Count(batch, p)
  {
    if i < |batch| {
      PrefixCounts(batch[..|batch| - 1], i, p);
      assert batch[..|batch| - 1][..i] == batch[..i];
    } else {
      assert batch[..i] == batch;
    }
  }

  lemma Next(log: Log, cursor: map<Partition, nat>, batch: seq<Partition>, n: nat)
    requires Fetchable(log, cursor, batch) && n < |batch|
    ensures At(cursor, batch[n]) + Count(batch[..n], batch[n]) < |log(batch[n])|
    ensures forall p :: Count(batch[..n + 1], p) == Count(batch[..n], p) + if batch[n] == p then 1 else 0
  {
    assert batch[..n + 1] == batch[..n] + [batch[n]];
    forall p ensures Count(batch[..n + 1], p) == Count(batch[..n], p) + if batch[n] == p then 1 else 0 {
      CountExtends(batch[..n], batch[n], p);
    }
    PrefixCounts(batch, n + 1, batch[n]);
    assert At(cursor, batch[n]) + Count(batch, batch[n]) <= |log(batch[n])|;
  }

  /** The first `n` records that polling `batch` from `cursor` on delivers. */
  ghost function Fetched(log: Log, cursor: map<Partition, nat>, batch: seq<Partition>, n: nat): seq<Message>
    requires Fetchable(log, cursor, batch) && n <= |batch|
  {
    if n == 0 then []
    else
      Next(log, cursor, batch, n - 1);
      var p := batch[n - 1];
      Fetched(log, cursor, batch, n - 1) + [log(p)[At(cursor, p) + Count(batch[..n - 1], p)]]
  }

  function NextMessage(log: Log, s: Progress): Message
    requires s.pending != [] && At(s.cursor, s.pending[0]) < |log(s.pending[0])|
  {
    log(s.pending[0])[At(s.cursor, s.pending[0])]
  }

  /** `s` is the state that `n` records of a batch lead to from `start`. */
  ghost predicate Within(log: Log, start: Progress, batch: seq<Partition>, n: nat, cleans: Event -> bool, s: Progress)
    requires Fetchable(log, start.cursor, batch)
  {
    && n <= |batch| && s.pending == batch[n..]
    && s.committed == start.committed
    && (forall p :: At(s.cursor, p) == At(start.cursor, p) + Count(batch[..n], p))
    && s.table == Pass(start.table, Fetched(log, start.cursor, batch, n), cleans)
    && Feasible(log, start, BatchSteps(batch, n), cleans)
    && s == After(log, start, BatchSteps(batch, n), cleans)
  }

  lemma BatchStarts(log: Log, start: Progress, batch: seq<Partition>, cleans: Event -> bool)
    requires Ready(log, start, Poll(batch))
    ensures Fetchable(log, start.cursor, batch)
    ensures Within(log, start, batch, 0, cleans, start.(pending := batch))
    ensures forall outcome :: Tally(start.table, Fetched(log, start.cursor, batch, 0), cleans, outcome) == 0
  {
    assert BatchSteps(batch, 0) == [Poll(batch)];
    assert [Poll(batch)][..0] == [];
  }

  lemma StepsExtend(log: Log, start: Progress, batch: seq<Partition>, n: nat, cleans: Event -> bool)
    requires Feasible(log, start, BatchSteps(batch, n), cleans)
    requires Ready(log, After(log, start, BatchSteps(batch, n), cleans), Process)
    ensures Feasible(log, start, BatchSteps(batch, n + 1), cleans)
    ensures After(log, start, BatchSteps(batch, n + 1), cleans)
      == Processed(log, After(log, start, BatchSteps(batch, n), cleans), cleans)
  {
    var steps := BatchSteps(batch, n + 1);
    assert steps[..|steps| - 1] == BatchSteps(batch, n);
  }

  lemma BatchExtends(log: Log, start: Progress, batch: seq<Partition>, n: nat, cleans: Event -> bool, s: Progress)
    requires Fetchable(log, start.cursor, batch) && Within(log, start, batch, n, cleans, s) && s.pending != []
    ensures n < |batch| && Ready(log, s, Process)
    ensures Within(log, start, batch, n + 1, cleans, Processed(log, s, cleans))
    ensures forall outcome ::
      Tally(start.table, Fetched(log, start.cursor, batch, n + 1), cleans, outcome)
        == Tally(start.table, Fetched(log, start.cursor, batch, n), cleans, outcome)
          + if OutcomeOf(s.table, NextMessage(log, s), cleans) == outcome then 1 else 0
  {
    hide Ingest, OutcomeOf, Pass, Tally, Feasible, After, BatchSteps, Count;
    Next(log, start.cursor, batch, n);
    assert s.pending[0] == batch[n] && s.pending[1..] == batch[n + 1..];
    PassExtends(start.table, Fetched(log, start.cursor, batch, n), NextMessage(log, s), cleans);
    StepsExtend(log, start, batch, n, cleans);
  }

  lemma BatchEnds(log: Log, start: Progress, batch: seq<Partition>, cleans: Event -> bool, s: Progress)
    requires Fetchable(log, start.cursor, batch) && Within(log, start, batch, |batch|, cleans, s)
    ensures
      var steps := BatchSteps(batch, |batch|) + [Commit];
      && Feasible(log, start, steps, cleans)
      && After(log, start, steps, cleans) == s.(committed := s.cursor)
  {
    var steps := BatchSteps(batch, |batch|) + [Commit];
    assert steps[..|steps| - 1] == BatchSteps(batch, |batch|);
  }

  class Consumer {
    const events: EventTable
    var committed: map<Partition, nat>
    var cursor: map<Partition, nat>
    var pending: seq<Partition>
    ghost var order: seq<Partition>

    constructor ()
      ensures View() == START && fresh(events)
    {
      events := new EventTable();
      committed, cursor, pending, order := map[], map[], [], [];
    }

    ghost function View(): Progress
      reads this, events
    {
      Progress(events.rows, committed, cursor, pending, order)
    }

    method ProcessMessage(message: Message, cleans: Event -> bool) returns (outcome: Outcome)
      requires Unique(events.rows)
      modifies events
      ensures Unique(events.rows)
      ensures outcome == OutcomeOf(old(events.rows), message, cleans)
      ensures events.rows == Ingest(old(events.rows), message, cleans)
    {
      if !message.Carries? { return Refused; }
      assert events.rows + [] + [] == events.rows == events.rows + [];
      FindsExactlyConflicts(events.rows, message.event);
      var answer := events.Persist(message.event, cleans, [], []);
      match answer
      case Created(_) => return Inserted;
      case Duplicate(_) => return Repeated;
      case Rejected => return Refused;
    }

    /** One turn of the loop in `_process_records`. */
    method ProcessNext(log: Log, cleans: Event -> bool) returns (outcome: Outcome)
      requires Unique(events.rows) && Ready(log, View(), Process)
      modifies this, events
      ensures Unique(events.rows)
      ensures outcome == OutcomeOf(old(events.rows), NextMessage(log, old(View())), cleans)
      ensures View() == Processed(log, old(View()), cleans)
    {
      var p := pending[0];
      var offset := At(cursor, p);
      outcome := ProcessMessage(log(p)[offset], cleans);
      if offset == Count(order, p) { order := order + [p]; }
      cursor, pending := cursor[p := offset + 1], pending[1..];
    }

    /** `_process_records` and the commit after it: one iteration of `_consume_batches`. */
    method ConsumeBatch(log: Log, batch: seq<Partition>, cleans: Event -> bool)
      returns (inserted: nat, duplicates: nat, rejected: nat)
      requires Unique(events.rows) && Ready(log, View(), Poll(batch))
      modifies this, events
      ensures Unique(events.rows)
      ensures Fetchable(log, old(cursor), batch)
      ensures
        var messages := Fetched(log, old(cursor), batch, |batch|);
        && events.rows == Pass(old(events.rows), messages, cleans)
        && inserted == Tally(old(events.rows), messages, cleans, Inserted)
        && duplicates == Tally(old(events.rows), messages, cleans, Repeated)
        && rejected == Tally(old(events.rows), messages, cleans, Refused)
      ensures inserted + duplicates + rejected == |batch|
      ensures
        var steps := BatchSteps(batch, |batch|) + [Commit];
        Feasible(log, old(View()), steps, cleans) && View() == After(log, old(View()), steps, cleans)
    {
      hide Ready, Pass, Tally, OutcomeOf, Ingest, At, Count, Unique, Feasible, After, Processed, NextMessage;
      ghost var start, n := View(), 0;
      pending := batch;
      inserted, duplicates, rejected := 0, 0, 0;
      BatchStarts(log, start, batch, cleans);
      while pending != []
        invariant n <= |batch| && Fetchable(log, start.cursor, batch)
        invariant Unique(events.rows) && Within(log, start, batch, n, cleans, View())
        invariant inserted == Tally(start.table, Fetched(log, start.cursor, batch, n), cleans, Inserted)
        invariant duplicates == Tally(start.table, Fetched(log, start.cursor, batch, n), cleans, Repeated)
        invariant rejected == Tally(start.table, Fetched(log, start.cursor, batch, n), cleans, Refused)
        invariant inserted + duplicates + rejected == n
        decreases |pending|
      {
        BatchExtends(log, start, batch, n, cleans, View());
        var outcome := ProcessNext(log, cleans);
        match outcome {
          case Inserted => inserted := inserted + 1;
          case Repeated => duplicates := duplicates + 1;
          case Refused => rejected := rejected + 1;
        }
        n := n + 1;
      }
      BatchEnds(log, start, batch, cleans, View());
      committed := cursor;
    }
  }
}
