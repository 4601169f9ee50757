/**
 How long one operation can occupy the worker: over every schedule it is recorded as "still
 reconciling" at most 900 times and as "retrying" at most 4 times before it is terminal.
 */
module BoundedReconciliation {
  import opened Wrappers
  import opened RuntimeModel
  import opened Controller
  import opened WorkerTransactions
  import opened ApiTransactions
  import opened RuntimeProtocol
  import opened RuntimeInvariant
  import opened RuntimeRuns
  import opened RuntimeTheorems

  const MAX_POLLS: nat := 900
  const MAX_RETRIES: nat := 4

  /** A lease was given up with the operation still running: the controller was still at work. */
  predicate IsPoll(before: map<OperationId, Operation>, after: map<OperationId, Operation>, o: OperationId) {
    && o in before && o in after
    && before[o].leaseToken.Some? && after[o].leaseToken.None? && after[o].status == OpRunning
  }

  /** A lease was given up with the operation back in the queue: the controller call failed. */
  predicate IsRetry(before: map<OperationId, Operation>, after: map<OperationId, Operation>, o: OperationId) {
    && o in before && o in after
    && before[o].leaseToken.Some? && after[o].leaseToken.None? && after[o].status == OpQueued
  }

  function Polls(w: World, steps: seq<Step>, o: OperationId): nat
    requires Legal(w, steps)
    decreases |steps|
  {
    if steps == [] then 0
    else
      var front := steps[..|steps| - 1];
      Polls(w, front, o)
      + if IsPoll(Exec(w, front).db.operations, Exec(w, steps).db.operations, o) then 1 else 0
  }

  function Retries(w: World, steps: seq<Step>, o: OperationId): nat
    requires Legal(w, steps)
    decreases |steps|
  {
    if steps == [] then 0
    else
      var front := steps[..|steps| - 1];
      Retries(w, front, o)
      + if IsRetry(Exec(w, front).db.operations, Exec(w, steps).db.operations, o) then 1 else 0
  }

  /**
   The schedule of one row after a number of polls and retries: its next attempt, or the
   claim behind its current lease, lies two seconds per poll after its start.
   */
  predicate Paced(op: Operation, polls: nat, retries: nat) {
    && polls <= MAX_POLLS && retries <= MAX_RETRIES
    && (op.leaseToken.Some? <==> op.leaseExpiresAt.Some?)
    && (op.leaseToken.Some? ==> op.status == OpRunning)
    && (Active(op) ==> op.failures == retries)
    && (op.startedAt.None? ==> polls == 0 && op.nextAttemptAt.None? && op.leaseToken.None?)
    && (op.startedAt.Some? ==>
         var earliest := op.startedAt.value + POLL_DELAY * polls;
         && (op.nextAttemptAt.Some? ==> op.nextAttemptAt.value >= earliest)
         && (op.leaseExpiresAt.Some? ==> op.leaseExpiresAt.value >= earliest + LEASE)
         && (Active(op) && op.leaseToken.None? ==> op.nextAttemptAt.Some?))
  }

  lemma ClaimKeepsPace(op: Operation, token: LeaseToken, now: Time, polls: nat, retries: nat)
    requires Paced(op, polls, retries) && Claimable(op, now)
    ensures Paced(Leased(op, token, now), polls, retries)
  {
  }

  /** What a recording transaction can do to the operation row it holds. */
  predicate RecordedRow(op: Operation, op': Operation, now: Time) {
    && op'.startedAt == op.startedAt
    && op'.leaseToken.None? && op'.leaseExpiresAt.None?
    && match op'.status
       case OpRunning =>
         && op'.failures == op.failures
         && op'.nextAttemptAt == Some(now + POLL_DELAY)
         && now - StartOf(op) < MAX_RECONCILIATION_AGE
       case OpQueued =>
         && op'.failures == op.failures + 1 < MAX_CONTROLLER_FAILURES
         && op'.nextAttemptAt.Some? && op'.nextAttemptAt.value >= now
       case _ => op'.nextAttemptAt.None? || op'.nextAttemptAt == op.nextAttemptAt
  }

  lemma RecordedRowKeepsPace(op: Operation, op': Operation, claimedAt: Time, now: Time, polls: nat, retries: nat)
    requires Paced(op, polls, retries) && Active(op)
    requires op.leaseExpiresAt == Some(claimedAt + LEASE) && claimedAt <= now
    requires RecordedRow(op, op', now)
    ensures Paced(op', polls + if op'.status == OpRunning then 1 else 0,
                  retries + if op'.status == OpQueued then 1 else 0)
  {
  }

  lemma ObservationRow(op: Operation, deployment: Deployment, read: Operation, snapshot: Snapshot, now: Time)
    ensures
      var r := Observation(op, deployment, read, snapshot, now);
      r.Ok? ==> RecordedRow(op, r.value.operation, now)
  {
  }

  lemma BackoffIsPositive(attempts: nat)
    ensures Backoff(attempts) > 0
  {
    PowersArePositive(attempts);
  }

  lemma PowersArePositive(n: nat)
    ensures Pow2(n) > 0
  {
  }

  /** A recording transaction rewrites at most its own operation. */
  lemma RecordRow(db: Db, id: OperationId, token: LeaseToken, read: Operation, outcome: Outcome, now: Time)
    requires References(db, id)
    ensures
      var r := Record(db, id, token, read, outcome, now);
      r.Ok? ==>
        && id in r.value.operations
        && r.value.operations == db.operations[id := r.value.operations[id]]
        && (Holds(db, id, token) ==> RecordedRow(db.operations[id], r.value.operations[id], now))
        && (!Holds(db, id, token) ==> r.value == db)
  {
    hide Observation, RecordedRow;
    var op := db.operations[id];
    if Holds(db, id, token) {
      match outcome
      case GotSnapshot(snapshot) =>
        ObservationRow(op, db.deployments[op.deployment], read, snapshot, now);
      case GotLogs => FinishedRow(db, id, token, now);
      case ControllerFailed(error) => FailedRow(db, id, token, error, now);
      case WorkerFailed => UnexpectedRow(db, id, token, now);
    }
  }

  lemma FinishedRow(db: Db, id: OperationId, token: LeaseToken, now: Time)
    requires References(db, id) && Holds(db, id, token)
    ensures RecordedRow(db.operations[id], CompleteLogs(db, id, token, now).operations[id], now)
  {
  }

  lemma FailedRow(db: Db, id: OperationId, token: LeaseToken, error: ControllerError, now: Time)
    requires References(db, id) && Holds(db, id, token)
    ensures
      var operations := RecordControllerFailure(db, id, token, error, now).operations;
      id in operations && RecordedRow(db.operations[id], operations[id], now)
  {
    BackoffIsPositive(db.operations[id].attempts);
  }

  lemma UnexpectedRow(db: Db, id: OperationId, token: LeaseToken, now: Time)
    requires References(db, id) && Holds(db, id, token)
    ensures
      var operations := RecordUnexpectedFailure(db, id, token, now).operations;
      id in operations && RecordedRow(db.operations[id], operations[id], now)
  {
  }

  /** A request inserts at most one row, freshly queued, and rewrites none. */
  lemma RequestRow(w: World, s: Step, o: OperationId)
    requires s.Api? && ApiEnabled(w, s)
    ensures
      var operations := Perform(w.db, s.call, s.headers, s.seen, s.environment, s.newId, s.now).db.operations;
      && (o in w.db.operations ==> o in operations && operations[o] == w.db.operations[o])
      && (o in operations && o !in w.db.operations ==> Paced(operations[o], 0, 0))
  {
    hide KeyTaken, Busy, CapturingLogs, Deployed, Admission, Replay;
    match s.call
    case Create(_, _, _, _, _) =>
    case Reconfigure(_, _) =>
    case Remove(_) =>
    case Act(_, _, _) =>
    case FetchLogs(_, _) =>
  }

  /** One step keeps every row on its pace. */
  lemma StepKeepsPace(w: World, s: Step, o: OperationId, polls: nat, retries: nat)
    requires Inv(w) && Enabled(w, s)
    requires if o in w.db.operations then Paced(w.db.operations[o], polls, retries) else polls == 0 && retries == 0
    ensures
      var before, after := w.db.operations, Apply(w, s).db.operations;
      o in after ==>
        Paced(after[o], polls + if IsPoll(before, after, o) then 1 else 0,
              retries + if IsRetry(before, after, o) then 1 else 0)
  {
    hide Inv, DbInv, Paced, Record, Perform, RecordedRow, Claimable;
    match s
    case Tick(_) => Leasing(w.db.operations, o);
    case Load(_) => Leasing(w.db.operations, o);
    case Respond(_, _, _) => Leasing(w.db.operations, o);
    case Crash(_) => Leasing(w.db.operations, o);
    case Api(_, _, _, _, _, _) => RequestRow(w, s, o);
    case ClaimNext(id, token, now) =>
      if o == id { ClaimKeepsPace(w.db.operations[o], token, now, polls, retries); }
    case Recording(token, now) => RecordingKeepsPace(w, token, now, o, polls, retries);
  }

  lemma Leasing(operations: map<OperationId, Operation>, o: OperationId)
    ensures !IsPoll(operations, operations, o) && !IsRetry(operations, operations, o)
  {
  }

  lemma Unleased(before: map<OperationId, Operation>, after: map<OperationId, Operation>, o: OperationId)
    requires o in before && o in after && after[o] == before[o]
    ensures !IsPoll(before, after, o) && !IsRetry(before, after, o)
  {
  }

  lemma Counted(before: map<OperationId, Operation>, after: map<OperationId, Operation>, o: OperationId, now: Time)
    requires o in before && o in after && before[o].leaseToken.Some? && RecordedRow(before[o], after[o], now)
    ensures IsPoll(before, after, o) <==> after[o].status == OpRunning
    ensures IsRetry(before, after, o) <==> after[o].status == OpQueued
  {
  }

  lemma HolderKnowsItsClaim(w: World, token: LeaseToken)
    requires Inv(w) && token in w.workers
    ensures
      var worker := w.workers[token];
      && References(w.db, worker.operation)
      && (Holds(w.db, worker.operation, token) ==>
           && Active(w.db.operations[worker.operation])
           && w.db.operations[worker.operation].leaseExpiresAt == Some(worker.claimedAt + LEASE))
  {
    assert WorkerOk(w.db, w.issued, token, w.workers[token]);
    assert OperationOk(w.db, w.issued, w.workers[token].operation);
  }

  lemma RecordingKeepsPace(w: World, token: LeaseToken, now: Time, o: OperationId, polls: nat, retries: nat)
    requires Inv(w) && Enabled(w, Recording(token, now))
    requires if o in w.db.operations then Paced(w.db.operations[o], polls, retries) else polls == 0 && retries == 0
    ensures
      var before, after := w.db.operations, Apply(w, Recording(token, now)).db.operations;
      o in after ==>
        Paced(after[o], polls + if IsPoll(before, after, o) then 1 else 0,
              retries + if IsRetry(before, after, o) then 1 else 0)
  {
    hide Inv, Record, Paced, RecordedRow, IsPoll, IsRetry;
    var worker := w.workers[token];
    var id, read, outcome := worker.operation, worker.phase.view.operation, worker.phase.outcome;
    HolderKnowsItsClaim(w, token);
    RecordRow(w.db, id, token, read, outcome, now);
    Leasing(w.db.operations, o);
    var r := Record(w.db, id, token, read, outcome, now);
    if o == id && r.Ok? && Holds(w.db, id, token) {
      RecordedRowKeepsPace(w.db.operations[o], r.value.operations[o], worker.claimedAt, now, polls, retries);
      Counted(w.db.operations, r.value.operations, o, now);
    } else if o in w.db.operations && r.Ok? {
      Unleased(w.db.operations, r.value.operations, o);
    }
  }

  /** Rows are never deleted, and only an existing row is polled or retried. */
  lemma RowsStay(w: World, s: Step, o: OperationId)
    requires Inv(w) && Enabled(w, s)
    ensures
      var before, after := w.db.operations, Apply(w, s).db.operations;
      && (o in before ==> o in after)
      && (o !in before ==> !IsPoll(before, after, o) && !IsRetry(before, after, o))
  {
    StepIsSafe(w, s);
    hide Inv, Apply;
  }

  lemma {:induction false} RunKeepsPace(past: seq<Step>, o: OperationId)
    requires Legal(EMPTY_WORLD, past)
    ensures
      var operations := Exec(EMPTY_WORLD, past).db.operations;
      if o in operations then Paced(operations[o], Polls(EMPTY_WORLD, past, o), Retries(EMPTY_WORLD, past, o))
      else Polls(EMPTY_WORLD, past, o) == 0 && Retries(EMPTY_WORLD, past, o) == 0
    decreases |past|
  {
    hide Inv, Enabled, Apply, Paced, IsPoll, IsRetry;
    if past == [] {
      assert o !in EMPTY_WORLD.db.operations;
    } else {
      var front := past[..|past| - 1];
      var w := Exec(EMPTY_WORLD, front);
      RunKeepsPace(front, o);
      ReachedIsSafe(front);
      StepKeepsPace(w, past[|past| - 1], o, Polls(EMPTY_WORLD, front, o), Retries(EMPTY_WORLD, front, o));
      RowsStay(w, past[|past| - 1], o);
    }
  }

  /** At most 900 recorded polls and 4 recorded retries per operation, under every schedule. */
  lemma BoundedWork(past: seq<Step>, o: OperationId)
    requires Legal(EMPTY_WORLD, past)
    ensures Polls(EMPTY_WORLD, past, o) <= MAX_POLLS
    ensures Retries(EMPTY_WORLD, past, o) <= MAX_RETRIES
  {
    RunKeepsPace(past, o);
  }
}
