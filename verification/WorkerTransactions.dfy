/**
 The transactions of the runtime worker (apps/hosting/runtime_worker.py) as functions of
 the database: claiming a lease, and recording what the controller answered. A transaction
 that raises leaves no trace, so it is a value of `Result<Db, Fault>`.
 */
module WorkerTransactions {
  import opened Wrappers
  import opened RuntimeModel
  import opened Controller
  import opened ComponentSync

  // ----- leasing -----

  predicate Due(op: Operation, now: Time) {
    op.nextAttemptAt.None? || op.nextAttemptAt.value <= now
  }

  predicate LeaseLapsed(op: Operation, now: Time) {
    op.leaseExpiresAt.None? || op.leaseExpiresAt.value <= now
  }

  predicate Claimable(op: Operation, now: Time) {
    && (op.status == OpQueued || (op.status == OpRunning && LeaseLapsed(op, now)))
    && Due(op, now)
  }

  /** The attempts column is 16-bit: beyond its limit the claim raises and nothing is written. */
  predicate Countable(op: Operation) {
    op.attempts < SMALLINT_MAX
  }

  /** The row `_claim` takes: claimable, and requested no later than any other claimable row. */
  predicate IsNext(operations: map<OperationId, Operation>, now: Time, id: OperationId) {
    && id in operations
    && Claimable(operations[id], now)
    && forall other :: other in operations && Claimable(operations[other], now) ==>
      operations[id].requestedAt <= operations[other].requestedAt
  }

  /** Some claimable row was requested no later than all the others. */
  lemma {:induction false} SomeRowIsNext(operations: map<OperationId, Operation>, now: Time, candidates: set<OperationId>)
    returns (id: OperationId)
    requires candidates != {} && candidates <= operations.Keys
    requires forall o :: o in candidates ==> Claimable(operations[o], now)
    ensures id in candidates
    ensures forall o :: o in candidates ==> operations[id].requestedAt <= operations[o].requestedAt
    decreases candidates
  {
    var o :| o in candidates;
    if candidates == {o} {
      id := o;
    } else {
      var rest := SomeRowIsNext(operations, now, candidates - {o});
      id := if operations[o].requestedAt <= operations[rest].requestedAt then o else rest;
    }
  }

  function Leased(op: Operation, token: LeaseToken, now: Time): Operation {
    op.(status := OpRunning,
        startedAt := if op.startedAt.Some? then op.startedAt else Some(now),
        attempts := op.attempts + 1,
        leaseToken := Some(token),
        leaseExpiresAt := Some(now + LEASE),
        nextAttemptAt := None)
  }

  function Claim(db: Db, id: OperationId, token: LeaseToken, now: Time): Db
    requires id in db.operations
  {
    db.(operations := db.operations[id := Leased(db.operations[id], token, now)])
  }

  // ----- talking to the controller -----

  /** The rows `process_next` reads after its claim, outside any lock. */
  datatype View = View(operation: Operation, deployment: Deployment)

  /** The power action that a call names. */
  datatype Verb = ToStart | ToStop | ToRestart

  datatype Call =
    | DeployCall(id: string)
    | UpdateCall(id: string)
    | ActionCall(id: string, verb: Verb)
    | UndeployCall(id: string)
    | StatusCall(id: string)
    | LogsCall(id: string, query: LogQuery)

  /** What comes back: a JSON object, log lines, an error with its HTTP status, or an unforeseen exception. */
  datatype Reply =
    | Replied(data: RawSnapshot)
    | RepliedLogs
    | Rejected(status: Option<int>)
    | Broken

  datatype ControllerError = ControllerError(status: Option<int>, detail: string)

  datatype Outcome =
    | GotSnapshot(snapshot: Snapshot)
    | GotLogs
    | ControllerFailed(error: ControllerError)
    | WorkerFailed

  predicate AlreadyDispatched(op: Operation) {
    op.result == Dispatched
  }

  function UndeployTarget(id: DeploymentId, deployment: Deployment): string {
    if deployment.controllerId != "" then deployment.controllerId else id
  }

  /** The first call of `_execute`; none when the generation has moved on. */
  function FirstCall(id: DeploymentId, view: View): Option<Call> {
    var op, deployment := view.operation, view.deployment;
    if op.kind == LogSnapshot && op.payload.LogPayload? then
      Some(LogsCall(deployment.controllerId, op.payload.query))
    else if deployment.generation != op.target then
      None
    else if AlreadyDispatched(op) then
      Some(StatusCall(deployment.controllerId))
    else
      match op.kind
      case Deploy => Some(DeployCall(id))
      case Configure => Some(UpdateCall(deployment.controllerId))
      case Scale => Some(UpdateCall(deployment.controllerId))
      case Start => Some(ActionCall(deployment.controllerId, ToStart))
      case Stop => Some(ActionCall(deployment.controllerId, ToStop))
      case Restart => Some(ActionCall(deployment.controllerId, ToRestart))
      case Undeploy => Some(UndeployCall(UndeployTarget(id, deployment)))
      case LogSnapshot => None
  }

  predicate ValidLogQuery(query: LogQuery) {
    ValidSlug(query.component) && 1 <= query.tailLines <= 1000 && 1 <= query.sinceSeconds <= 604_800
  }

  /** The client method behind one call, applied to the reply. */
  function Interpret(call: Call, reply: Reply): Outcome {
    if !ValidIdentifier(call.id) || (call.LogsCall? && !ValidLogQuery(call.query)) then
      ControllerFailed(ControllerError(None, "Runtime controller request is invalid."))
    else
      match reply
      case Broken => WorkerFailed
      case Rejected(status) => ControllerFailed(ControllerError(status, "Runtime controller rejected the request."))
      case RepliedLogs =>
        if call.LogsCall? then GotLogs
        else ControllerFailed(ControllerError(None, "Runtime controller returned an invalid response."))
      case Replied(data) =>
        if call.LogsCall? then
          ControllerFailed(ControllerError(None, "Runtime controller returned an invalid log response."))
        else
          var r := if call.DeployCall? then Validate(data, "", true, call.id)
                   else Validate(data, call.id, false, call.id);
          match r
          case Ok(snapshot) => GotSnapshot(snapshot)
          case Err(detail) => ControllerFailed(ControllerError(None, detail))
  }

  /** A dispatched undeploy whose controller state is already gone is retried as a DELETE. */
  predicate LostUndeploy(view: View, call: Call, outcome: Outcome) {
    && call.StatusCall?
    && view.operation.kind == Undeploy
    && outcome.ControllerFailed?
    && outcome.error.status == Some(404)
  }

  /** `_execute` up to its recording transaction, for arbitrary replies to its at most two calls. */
  function Execute(id: DeploymentId, view: View, first: Reply, second: Reply): Outcome {
    var call := FirstCall(id, view);
    if call.None? then
      ControllerFailed(ControllerError(Some(409), "The queued operation no longer matches the deployment generation."))
    else
      var outcome := Interpret(call.value, first);
      if LostUndeploy(view, call.value, outcome) then
        Interpret(UndeployCall(UndeployTarget(id, view.deployment)), second)
      else
        outcome
  }

  // ----- recording -----

  /** Referential integrity of the operation table. */
  predicate References(db: Db, id: OperationId) {
    id in db.operations && db.operations[id].deployment in db.deployments
  }

  predicate WaitingForGeneration(op: Operation, snapshot: Snapshot) {
    snapshot.observedGeneration < op.target && !Inconclusive(snapshot.state)
  }

  predicate ValidGeneration(deployment: Deployment, snapshot: Snapshot, target: nat) {
    deployment.observedGeneration <= snapshot.observedGeneration <= target
  }

  function Polled(deployment: Deployment, snapshot: Snapshot, now: Time): Deployment {
    deployment.(controllerId := snapshot.controllerId,
                revision := deployment.revision + 1,
                lastReconciledAt := Some(now))
  }

  function StartOf(op: Operation): Time {
    if op.startedAt.Some? then op.startedAt.value else op.requestedAt
  }

  function FailedOperation(op: Operation, error: OperationError, now: Time): Operation {
    Released(op.(status := OpFailed, error := Some(error), finishedAt := Some(now)))
  }

  function FailedDeployment(deployment: Deployment, detail: string): Deployment {
    deployment.(observed := Failed, lastError := detail)
  }

  function Concluded(deployment: Deployment, snapshot: Snapshot, now: Time): Deployment {
    deployment.(controllerId := snapshot.controllerId,
                observed := snapshot.state,
                observedGeneration := snapshot.observedGeneration,
                lastError := if snapshot.state.Degraded? || Inconclusive(snapshot.state) then snapshot.message else "",
                deletedAt := if snapshot.state == Deleted then Some(now) else deployment.deletedAt,
                revision := deployment.revision + 1,
                lastReconciledAt := Some(now))
  }

  function Wanted(op: Operation, deployment: Deployment): DesiredState {
    if op.payload.DesiredPayload? then op.payload.desired else deployment.desired
  }

  predicate TerminalStateError(op: Operation, deployment: Deployment, state: ObservedState) {
    !Inconclusive(state) && !Satisfies(Wanted(op, deployment), state)
  }

  const TERMINAL_STATE_DETAIL := "Runtime controller reported an unexpected terminal state."
  const TIMEOUT_DETAIL := "Runtime reconciliation timed out."
  const UNEXPECTED_DETAIL := "The runtime worker failed unexpectedly."

  function Save(db: Db, id: OperationId, op: Operation, deployment: Deployment): Db {
    Db(db.deployments[op.deployment := deployment], db.operations[id := op])
  }

  /** The two rows a recording transaction rewrites. */
  datatype Rows = Rows(operation: Operation, deployment: Deployment)

  /** The "still reconciling" branch of `_record_snapshot`. */
  function Poll(op: Operation, deployment: Deployment, snapshot: Snapshot, now: Time): Result<Rows, Fault> {
    if !ValidGeneration(deployment, snapshot, op.target) then Err(ControllerFault)
    else
      var checked := Sync(deployment.components, snapshot, false);
      if checked.Err? then Err(checked.error)
      else
        var polled := Polled(deployment, snapshot, now);
        if now - StartOf(op) >= MAX_RECONCILIATION_AGE then
          Ok(Rows(FailedOperation(op.(nextAttemptAt := None),
                                  OperationError("runtime_reconciliation_timeout", true), now),
                  FailedDeployment(polled, TIMEOUT_DETAIL)))
        else
          Ok(Rows(Released(op.(status := OpRunning, result := Dispatched,
                               nextAttemptAt := Some(now + POLL_DELAY))),
                  polled))
  }

  /** The terminal branch of `_record_snapshot`; `read` is the row as the worker read it before the call. */
  function Conclude(op: Operation, deployment: Deployment, read: Operation, snapshot: Snapshot, now: Time)
    : Result<Rows, Fault>
  {
    if !ValidGeneration(deployment, snapshot, op.target) then Err(ControllerFault)
    else
      var rows := Sync(deployment.components, snapshot, true);
      if rows.Err? then Err(rows.error)
      else
        var concluded := Concluded(deployment, snapshot, now).(components := rows.value);
        var ended := op.(nextAttemptAt := None);
        var error := OperationError("runtime_reconciliation_failed", true);
        if TerminalStateError(read, deployment, snapshot.state) then
          Ok(Rows(FailedOperation(ended, error, now), FailedDeployment(concluded, TERMINAL_STATE_DETAIL)))
        else if Inconclusive(snapshot.state) then
          Ok(Rows(FailedOperation(ended, error, now), concluded))
        else
          Ok(Rows(Released(ended.(status := OpSucceeded,
                                  result := Reconciled(snapshot.state, snapshot.observedGeneration),
                                  error := None,
                                  finishedAt := Some(now))),
                  concluded))
  }

  function Observation(op: Operation, deployment: Deployment, read: Operation, snapshot: Snapshot, now: Time)
    : Result<Rows, Fault>
  {
    if Transitional(snapshot.state) || WaitingForGeneration(op, snapshot) then Poll(op, deployment, snapshot, now)
    else Conclude(op, deployment, read, snapshot, now)
  }

  /** Whether the token still holds the lease; every recording transaction starts here. */
  predicate Holds(db: Db, id: OperationId, token: LeaseToken)
    requires id in db.operations
  {
    db.operations[id].leaseToken == Some(token)
  }

  function RecordSnapshot(
    db: Db, id: OperationId, token: LeaseToken, read: Operation, snapshot: Snapshot, now: Time)
    : Result<Db, Fault>
    requires References(db, id)
  {
    if !Holds(db, id, token) then Ok(db)
    else
      var op := db.operations[id];
      match Observation(op, db.deployments[op.deployment], read, snapshot, now)
      case Ok(rows) => Ok(Save(db, id, rows.operation, rows.deployment))
      case Err(fault) => Err(fault)
  }

  function CompleteLogs(db: Db, id: OperationId, token: LeaseToken, now: Time): Db
    requires id in db.operations
  {
    if !Holds(db, id, token) then db
    else
      var op := db.operations[id];
      db.(operations := db.operations[id :=
        Released(op.(status := OpSucceeded, result := LogCaptured, error := None, finishedAt := Some(now)))])
  }

  predicate Retryable(error: ControllerError) {
    !(error.status.Some? && 400 <= error.status.value < 500 && error.status.value != 408 && error.status.value != 429)
  }

  function Pow2(n: nat): nat {
    if n == 0 then 1 else 2 * Pow2(n - 1)
  }

  function Backoff(attempts: nat): Time {
    (if Pow2(attempts) < 60 then Pow2(attempts) else 60) * SECOND
  }

  /** A failure that ends the operation also fails its deployment, unless it was a log request. */
  function EndInFailure(db: Db, id: OperationId, op: Operation, error: OperationError, detail: string, now: Time): Db
    requires op.deployment in db.deployments
  {
    var failed := FailedOperation(op, error, now);
    if op.kind == LogSnapshot then
      db.(operations := db.operations[id := failed])
    else
      var deployment := db.deployments[op.deployment];
      Save(db, id, failed, FailedDeployment(deployment, detail).(revision := deployment.revision + 1))
  }

  function RecordControllerFailure(
    db: Db, id: OperationId, token: LeaseToken, error: ControllerError, now: Time): Db
    requires References(db, id)
  {
    if !Holds(db, id, token) then db
    else
      var op := db.operations[id].(failures := db.operations[id].failures + 1);
      if Retryable(error) && op.failures < MAX_CONTROLLER_FAILURES then
        db.(operations := db.operations[id :=
          Released(op.(status := OpQueued, nextAttemptAt := Some(now + Backoff(op.attempts))))])
      else
        EndInFailure(db, id, op, OperationError("runtime_controller_error", Retryable(error)),
                     Prefix(error.detail, 500), now)
  }

  function RecordUnexpectedFailure(db: Db, id: OperationId, token: LeaseToken, now: Time): Db
    requires References(db, id)
  {
    if !Holds(db, id, token) then db
    else
      EndInFailure(db, id, db.operations[id], OperationError("runtime_worker_error", true),
                   UNEXPECTED_DETAIL, now)
  }

  /** The recording transaction that follows an outcome. */
  function Record(db: Db, id: OperationId, token: LeaseToken, read: Operation, outcome: Outcome, now: Time)
    : Result<Db, Fault>
    requires References(db, id)
  {
    match outcome
    case GotSnapshot(snapshot) => RecordSnapshot(db, id, token, read, snapshot, now)
    case GotLogs => Ok(CompleteLogs(db, id, token, now))
    case ControllerFailed(error) => Ok(RecordControllerFailure(db, id, token, error, now))
    case WorkerFailed => Ok(RecordUnexpectedFailure(db, id, token, now))
  }

  /** The outcome `process_next` records after a recording transaction raised. */
  function AfterFault(fault: Fault): Outcome {
    match fault
    case ControllerFault => ControllerFailed(ControllerError(None, "Runtime controller broke its contract."))
    case StoreFault => WorkerFailed
  }
}
