/**
 Whether the work can be brought to an end. Whatever the controller answers, workers that keep
 claiming the next row end every active operation within five claims each, as long as the attempts
 still fit their 16-bit column. Where they do not, a controller that keeps failing leaves the work
 unfinished for ever, and lapsed leases alone lead there from every state with an active operation.
 */
module RuntimeProgress {
  import opened RuntimeModel
  import opened ComponentSync
  import opened Controller
  import opened WorkerTransactions
  import opened RuntimeProtocol
  import opened RuntimeInvariant
  import opened RuntimeRuns
  import opened RuntimeTheorems

  type Operations = map<OperationId, Operation>

  /** A controller: the replies to a worker's calls, which may depend on everything that happened. */
  type Replies = (World, LeaseToken) -> (Reply, Reply)

  function ActiveIds(operations: Operations): set<OperationId> {
    set o | o in operations && Active(operations[o])
  }

  lemma IdsAreKeys(operations: Operations)
    ensures ActiveIds(operations) <= operations.Keys
  {
  }

  // ----- runs of workers alone -----

  /** Workers and time only: each claim takes the next row and each reply is the controller's own. */
  predicate Works(w: World, s: Step, replies: Replies) {
    match s
    case Tick(_) => true
    case ClaimNext(id, _, now) => IsNext(w.db.operations, now, id)
    case Load(_) => true
    case Respond(token, first, second) => (first, second) == replies(w, token)
    case Recording(_, _) => true
    case Api(_, _, _, _, _, _) => false
    case Crash(_) => false
  }

  ghost predicate Worked(w: World, steps: seq<Step>, replies: Replies)
    ensures Worked(w, steps, replies) ==> Legal(w, steps)
    decreases |steps|
  {
    Legal(w, steps) &&
    (steps != [] ==>
      var before := steps[..|steps| - 1];
      Worked(w, before, replies) && Works(Exec(w, before), steps[|steps| - 1], replies))
  }

  function Claims(steps: seq<Step>): nat {
    if steps == [] then 0 else Claims(steps[..|steps| - 1]) + if steps[|steps| - 1].ClaimNext? then 1 else 0
  }

  lemma StartsLegal(w: World)
    ensures Legal(w, []) && Exec(w, []) == w
  {
  }

  lemma NextStep(w: World, steps: seq<Step>, s: Step)
    requires Legal(w, steps) && Enabled(Exec(w, steps), s)
    ensures Legal(w, steps + [s]) && Exec(w, steps + [s]) == Apply(Exec(w, steps), s)
  {
    hide Enabled, Apply;
    assert (steps + [s])[..|steps|] == steps;
  }

  lemma {:induction false} LegalCompose(w: World, first: seq<Step>, second: seq<Step>)
    requires Legal(w, first) && Legal(Exec(w, first), second)
    ensures Legal(w, first + second) && Exec(w, first + second) == Exec(Exec(w, first), second)
    decreases |second|
  {
    hide Enabled, Apply;
    var whole := first + second;
    if second == [] {
      assert whole == first;
    } else {
      LegalCompose(w, first, second[..|second| - 1]);
      assert whole[..|whole| - 1] == first + second[..|second| - 1];
    }
  }

  lemma {:induction false} RunsCompose(w: World, first: seq<Step>, second: seq<Step>, replies: Replies)
    requires Worked(w, first, replies) && Worked(Exec(w, first), second, replies)
    ensures Worked(w, first + second, replies)
    ensures Exec(w, first + second) == Exec(Exec(w, first), second)
    ensures Claims(first + second) == Claims(first) + Claims(second)
    decreases |second|
  {
    hide Enabled, Apply, Works;
    var whole := first + second;
    if second == [] {
      assert whole == first;
    } else {
      RunsCompose(w, first, second[..|second| - 1], replies);
      assert whole[..|whole| - 1] == first + second[..|second| - 1];
    }
  }

  lemma Then(w: World, steps: seq<Step>, s: Step, replies: Replies)
    requires Worked(w, steps, replies)
    requires Enabled(Exec(w, steps), s) && Works(Exec(w, steps), s, replies)
    ensures Worked(w, steps + [s], replies)
    ensures Exec(w, steps + [s]) == Apply(Exec(w, steps), s)
    ensures Claims(steps + [s]) == Claims(steps) + if s.ClaimNext? then 1 else 0
  {
    hide Enabled, Apply, Works;
    assert (steps + [s])[..|steps|] == steps;
  }

  // ----- when every active operation can be claimed -----

  predicate Ripe(op: Operation, now: Time) {
    LeaseLapsed(op, now) && Due(op, now) && (op.startedAt.Some? ==> op.startedAt.value <= now)
  }

  function Later(a: Time, b: Time): Time {
    if a < b then b else a
  }

  lemma {:induction false} Horizon(operations: Operations, ids: set<OperationId>, clock: Time) returns (now: Time)
    requires ids <= operations.Keys
    ensures clock <= now && forall o :: o in ids ==> Ripe(operations[o], now)
    decreases ids
  {
    if ids == {} {
      now := clock;
    } else {
      var o :| o in ids;
      var op := operations[o];
      now := Horizon(operations, ids - {o}, clock);
      if op.leaseExpiresAt.Some? { now := Later(now, op.leaseExpiresAt.value); }
      if op.nextAttemptAt.Some? { now := Later(now, op.nextAttemptAt.value); }
      if op.startedAt.Some? { now := Later(now, op.startedAt.value); }
    }
  }

  lemma {:induction false} UnusedToken(issued: set<LeaseToken>) returns (token: LeaseToken)
    ensures forall t :: t in issued ==> t < token
    decreases issued
  {
    if issued == {} {
      token := 0;
    } else {
      var t :| t in issued;
      var rest := UnusedToken(issued - {t});
      token := if rest <= t then t + 1 else rest;
      forall u | u in issued ensures u < token {
        if u != t { assert u in issued - {t}; }
      }
    }
  }

  /** The active operation that was requested first is the one every worker turns to. */
  predicate Oldest(operations: Operations, id: OperationId) {
    && id in operations && Active(operations[id])
    && forall o :: o in operations && Active(operations[o]) ==> operations[id].requestedAt <= operations[o].requestedAt
  }

  lemma OldestIsNext(operations: Operations, id: OperationId, now: Time)
    requires Oldest(operations, id) && forall o :: o in ActiveIds(operations) ==> Ripe(operations[o], now)
    ensures IsNext(operations, now, id) && Ripe(operations[id], now)
  {
    assert id in ActiveIds(operations);
  }

  // ----- one attempt -----

  /** The failures an operation has left, each of which takes one claim. */
  function Need(op: Operation): nat {
    if op.failures < MAX_CONTROLLER_FAILURES then MAX_CONTROLLER_FAILURES - op.failures else 1
  }

  /** The claims an operation may still need fit the column that counts them. */
  predicate Affordable(op: Operation) {
    op.attempts + Need(op) <= SMALLINT_MAX
  }

  /** Only row `id` differs: it cost one claim, and is no longer active or has fewer failures left. */
  predicate Attempted(before: Operations, after: Operations, id: OperationId)
    requires id in before
  {
    && after.Keys == before.Keys
    && (forall o :: o in before && o != id ==> after[o] == before[o])
    && after[id].requestedAt == before[id].requestedAt
    && after[id].attempts == before[id].attempts + 1
    && (Active(after[id]) ==> Need(after[id]) < Need(before[id]))
  }

  lemma FailureIsAttempt(db: Db, id: OperationId, token: LeaseToken, error: ControllerError, claimed: Time, now: Time)
    requires References(db, id)
    ensures Attempted(
      db.operations, RecordControllerFailure(Claim(db, id, token, claimed), id, token, error, now).operations, id)
  {
    hide Backoff, Prefix;
  }

  lemma UnexpectedIsAttempt(db: Db, id: OperationId, token: LeaseToken, claimed: Time, now: Time)
    requires References(db, id)
    ensures Attempted(db.operations, RecordUnexpectedFailure(Claim(db, id, token, claimed), id, token, now).operations, id)
  {
  }

  lemma LogsAreAttempt(db: Db, id: OperationId, token: LeaseToken, claimed: Time, now: Time)
    requires References(db, id)
    ensures Attempted(db.operations, CompleteLogs(Claim(db, id, token, claimed), id, token, now).operations, id)
  {
  }

  /** A snapshot ends an operation that has been reconciling for long enough, or raises a fault. */
  lemma SnapshotEndsOldRow(op: Operation, deployment: Deployment, read: Operation, snapshot: Snapshot, now: Time)
    ensures
      var r := Observation(op, deployment, read, snapshot, now);
      && (r.Ok? && now - StartOf(op) >= MAX_RECONCILIATION_AGE ==> !Active(r.value.operation))
      && (r.Ok? ==>
           && r.value.operation.deployment == op.deployment
           && r.value.operation.requestedAt == op.requestedAt
           && r.value.operation.attempts == op.attempts)
  {
    hide Sync, Satisfies;
  }

  lemma SnapshotIsAttempt(db: Db, id: OperationId, token: LeaseToken, read: Operation, snapshot: Snapshot, claimed: Time)
    requires References(db, id) && Ripe(db.operations[id], claimed)
    ensures
      var r := RecordSnapshot(
        Claim(db, id, token, claimed), id, token, read, snapshot, claimed + MAX_RECONCILIATION_AGE);
      r.Ok? ==> Attempted(db.operations, r.value.operations, id)
  {
    hide Observation;
    var op := Leased(db.operations[id], token, claimed);
    SnapshotEndsOldRow(op, db.deployments[op.deployment], read, snapshot, claimed + MAX_RECONCILIATION_AGE);
  }

  /** Whatever outcome is recorded half an hour after the claim, the transaction commits an attempt or raises. */
  lemma RecordIsAttempt(db: Db, id: OperationId, token: LeaseToken, read: Operation, outcome: Outcome, claimed: Time)
    requires References(db, id) && Ripe(db.operations[id], claimed)
    ensures References(Claim(db, id, token, claimed), id)
    ensures
      var r := Record(Claim(db, id, token, claimed), id, token, read, outcome, claimed + MAX_RECONCILIATION_AGE);
      && (r.Ok? ==> Attempted(db.operations, r.value.operations, id))
      && (r.Err? ==> outcome.GotSnapshot?)
  {
    hide RecordSnapshot, RecordControllerFailure, RecordUnexpectedFailure, CompleteLogs, Attempted;
    var now := claimed + MAX_RECONCILIATION_AGE;
    match outcome
    case GotSnapshot(snapshot) => SnapshotIsAttempt(db, id, token, read, snapshot, claimed);
    case ControllerFailed(error) => FailureIsAttempt(db, id, token, error, claimed, now);
    case GotLogs => LogsAreAttempt(db, id, token, claimed, now);
    case WorkerFailed => UnexpectedIsAttempt(db, id, token, claimed, now);
  }

  lemma ClaimOldest(w: World, id: OperationId, replies: Replies)
    returns (steps: seq<Step>, token: LeaseToken, now: Time)
    requires Oldest(w.db.operations, id) && Countable(w.db.operations[id])
    ensures Worked(w, steps, replies) && now <= Exec(w, steps).clock && Claims(steps) == 1
    ensures id in w.db.operations && Ripe(w.db.operations[id], now)
    ensures Exec(w, steps).db == Claim(w.db, id, token, now)
    ensures token in Exec(w, steps).workers && Exec(w, steps).workers[token] == Worker(id, now, Claimed)
  {
    hide Claim, ActiveIds, Legal, Exec, Ripe, Worked, Claims;
    IdsAreKeys(w.db.operations);
    now := Horizon(w.db.operations, ActiveIds(w.db.operations), w.clock);
    token := UnusedToken(w.issued);
    OldestIsNext(w.db.operations, id, now);
    NoSteps(w, replies);
    Then(w, [], Tick(now - w.clock), replies);
    steps := [] + [Tick(now - w.clock)];
    Then(w, steps, ClaimNext(id, token, now), replies);
    steps := steps + [ClaimNext(id, token, now)];
  }

  lemma NoSteps(w: World, replies: Replies)
    ensures Worked(w, [], replies) && Exec(w, []) == w && Claims([]) == 0
  {
  }

  /** A worker that has claimed `id` reads its rows, hears the controller, and takes half an hour over it. */
  lemma HearReply(w: World, id: OperationId, token: LeaseToken, now: Time, replies: Replies) returns (steps: seq<Step>)
    requires References(w.db, id) && token in w.workers && w.workers[token] == Worker(id, now, Claimed)
    ensures Worked(w, steps, replies) && Claims(steps) == 0
    ensures Exec(w, steps).db == w.db && Exec(w, steps).clock == w.clock + MAX_RECONCILIATION_AGE
    ensures token in Exec(w, steps).workers
    ensures
      var worker := Exec(w, steps).workers[token];
      worker.operation == id && worker.claimedAt == now && worker.phase.Ready?
  {
    hide Execute, Legal, Exec, Worked, Claims;
    NoSteps(w, replies);
    Then(w, [], Load(token), replies);
    steps := [] + [Load(token)];
    var (first, second) := replies(Apply(w, Load(token)), token);
    Then(w, steps, Respond(token, first, second), replies);
    steps := steps + [Respond(token, first, second)];
    Then(w, steps, Tick(MAX_RECONCILIATION_AGE), replies);
    steps := steps + [Tick(MAX_RECONCILIATION_AGE)];
  }

  /** Recording what was heard, and the fault if that transaction raised. */
  lemma RecordReply(db: Db, w: World, id: OperationId, token: LeaseToken, claimed: Time, replies: Replies)
    returns (steps: seq<Step>)
    requires References(db, id) && Ripe(db.operations[id], claimed) && w.db == Claim(db, id, token, claimed)
    requires token in w.workers && w.workers[token].operation == id && w.workers[token].phase.Ready?
    requires w.workers[token].claimedAt == claimed && claimed + MAX_RECONCILIATION_AGE <= w.clock
    ensures Worked(w, steps, replies) && Claims(steps) == 0
    ensures Attempted(db.operations, Exec(w, steps).db.operations, id)
  {
    hide Record, Attempted, Claim, Legal, Exec, Worked, Claims, Ripe;
    var phase, step := w.workers[token].phase, Recording(token, claimed + MAX_RECONCILIATION_AGE);
    RecordIsAttempt(db, id, token, phase.view.operation, phase.outcome, claimed);
    NoSteps(w, replies);
    Then(w, [], step, replies);
    steps := [] + [step];
    var w' := Apply(w, step);
    if token in w'.workers {
      RecordIsAttempt(db, id, token, phase.view.operation, w'.workers[token].phase.outcome, claimed);
      Then(w, steps, step, replies);
      steps := steps + [step];
    }
  }

  lemma Attempt(w: World, id: OperationId, replies: Replies) returns (later: seq<Step>)
    requires Inv(w) && Oldest(w.db.operations, id) && Countable(w.db.operations[id])
    ensures Worked(w, later, replies) && Claims(later) == 1 && Inv(Exec(w, later))
    ensures Attempted(w.db.operations, Exec(w, later).db.operations, id)
  {
    hide DbInv, WorkerOk, Attempted, Legal, Exec, Claim, Worked, Claims, Ripe;
    KnownOldest(w, id);
    var claim, token, now := ClaimOldest(w, id, replies);
    ClaimKeepsReferences(w.db, id, token, now);
    var hear := HearReply(Exec(w, claim), id, token, now, replies);
    RunsCompose(w, claim, hear, replies);
    var recording := RecordReply(w.db, Exec(w, claim + hear), id, token, now, replies);
    RunsCompose(w, claim + hear, recording, replies);
    later := claim + hear + recording;
    WorkedIsSafe(w, later, replies);
  }

  lemma WorkedIsSafe(w: World, steps: seq<Step>, replies: Replies)
    requires Inv(w) && Worked(w, steps, replies)
    ensures Legal(w, steps) && Inv(Exec(w, steps))
  {
    RunIsSafe(w, steps);
  }

  lemma KnownOldest(w: World, id: OperationId)
    requires Inv(w) && Oldest(w.db.operations, id)
    ensures References(w.db, id)
  {
    ReferencesHold(w.db, w.issued, id);
  }

  lemma ClaimKeepsReferences(db: Db, id: OperationId, token: LeaseToken, now: Time)
    requires References(db, id)
    ensures References(Claim(db, id, token, now), id)
  {
  }

  // ----- draining -----

  lemma StaysOldest(before: Operations, after: Operations, id: OperationId)
    requires Oldest(before, id) && Attempted(before, after, id) && Active(after[id])
    ensures Oldest(after, id)
  {
  }

  /** Only row `id` differs, and it is active no longer. */
  predicate Ended(before: Operations, after: Operations, id: OperationId) {
    && ActiveIds(after) == ActiveIds(before) - {id}
    && after.Keys == before.Keys
    && forall o :: o in before && o != id ==> after[o] == before[o]
  }

  lemma AttemptsEnd(before: Operations, after: Operations, id: OperationId)
    requires Oldest(before, id) && Attempted(before, after, id) && !Active(after[id])
    ensures Ended(before, after, id)
  {
  }

  lemma AttemptsAdd(before: Operations, between: Operations, after: Operations, id: OperationId)
    requires id in before && Attempted(before, between, id) && Active(before[id]) && Active(between[id])
    requires Ended(between, after, id)
    ensures Ended(before, after, id)
  {
    assert ActiveIds(between) == ActiveIds(before);
  }

  /** Against any controller, the active operation requested first ends within the failures it has left. */
  lemma {:induction false} FinishOldest(w: World, id: OperationId, replies: Replies) returns (later: seq<Step>)
    requires Inv(w) && Oldest(w.db.operations, id) && Affordable(w.db.operations[id])
    ensures Worked(w, later, replies) && Inv(Exec(w, later))
    ensures Claims(later) <= Need(w.db.operations[id]) <= MAX_CONTROLLER_FAILURES
    ensures Ended(w.db.operations, Exec(w, later).db.operations, id)
    decreases Need(w.db.operations[id])
  {
    hide Inv, Enabled, Apply, Legal, Exec, ActiveIds, Worked, Claims, Ended;
    later := Attempt(w, id, replies);
    var w' := Exec(w, later);
    if Active(w'.db.operations[id]) {
      StaysOldest(w.db.operations, w'.db.operations, id);
      var rest := FinishOldest(w', id, replies);
      RunsCompose(w, later, rest, replies);
      AttemptsAdd(w.db.operations, w'.db.operations, Exec(w', rest).db.operations, id);
      later := later + rest;
    } else {
      AttemptsEnd(w.db.operations, w'.db.operations, id);
    }
  }

  predicate AllAffordable(operations: Operations) {
    forall o :: o in operations && Active(operations[o]) ==> Affordable(operations[o])
  }

  lemma StaysAffordable(before: Operations, after: Operations, id: OperationId)
    requires AllAffordable(before) && Ended(before, after, id)
    ensures AllAffordable(after)
  {
    forall o | o in after && Active(after[o]) ensures Affordable(after[o]) {
      assert o in ActiveIds(after);
    }
  }

  lemma {:induction false} Drain(w: World, replies: Replies) returns (later: seq<Step>)
    requires Inv(w) && AllAffordable(w.db.operations)
    ensures Worked(w, later, replies) && Inv(Exec(w, later))
    ensures Claims(later) <= MAX_CONTROLLER_FAILURES * |ActiveIds(w.db.operations)|
    ensures ActiveIds(Exec(w, later).db.operations) == {}
    decreases |ActiveIds(w.db.operations)|
  {
    hide Inv, Enabled, Apply, Legal, Exec, Worked, Claims;
    var active := ActiveIds(w.db.operations);
    if active == {} {
      NoSteps(w, replies);
      later := [];
    } else {
      var now := Horizon(w.db.operations, active, w.clock);
      var id := SomeRowIsNext(w.db.operations, now, active);
      var first := FinishOldest(w, id, replies);
      StaysAffordable(w.db.operations, Exec(w, first).db.operations, id);
      var rest := Drain(Exec(w, first), replies);
      RunsCompose(w, first, rest, replies);
      later := first + rest;
    }
  }

  /** No operation is active, and every deployment has converged or says failed or unknown. */
  ghost predicate Settled(db: Db) {
    && (forall o :: o in db.operations ==> !Active(db.operations[o]))
    && (forall id :: id in db.deployments ==> Inconclusive(db.deployments[id].observed) || Converged(db.deployments[id]))
  }

  lemma DrainedIsSettled(w: World)
    requires Inv(w) && ActiveIds(w.db.operations) == {}
    ensures Settled(w.db)
  {
    forall o | o in w.db.operations ensures !Active(w.db.operations[o]) {
      assert o !in ActiveIds(w.db.operations);
    }
    forall id | id in w.db.deployments
      ensures Inconclusive(w.db.deployments[id].observed) || Converged(w.db.deployments[id])
    {
      assert DeploymentOk(w.db, id);
    }
  }

  /** Workers alone can settle everything against this controller, with at most five claims per active operation. */
  ghost predicate CanSettle(w: World, replies: Replies) {
    exists later ::
      && Worked(w, later, replies)
      && Claims(later) <= MAX_CONTROLLER_FAILURES * |ActiveIds(w.db.operations)|
      && Settled(Exec(w, later).db)
  }

  /** Work that can still be counted can be settled, from every reachable state and against every controller. */
  lemma CountableWorkSettles(past: seq<Step>, replies: Replies)
    requires Legal(EMPTY_WORLD, past) && AllAffordable(Exec(EMPTY_WORLD, past).db.operations)
    ensures CanSettle(Exec(EMPTY_WORLD, past), replies)
  {
    hide Enabled, Apply, Claims;
    ReachedIsSafe(past);
    var w := Exec(EMPTY_WORLD, past);
    var later := Drain(w, replies);
    DrainedIsSettled(Exec(w, later));
  }
}
