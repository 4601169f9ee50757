/**
 Every step of the protocol keeps the invariant and only moves the tables forward, so both
 hold of every run.
 */
module RuntimeSafety {
  import opened Wrappers
  import opened RuntimeModel
  import opened Controller
  import opened ComponentSync
  import opened WorkerTransactions
  import opened ApiTransactions
  import opened RuntimeInvariant
  import opened RuntimeShapes

  // ----- moving forward -----

  /** A lease changes hands only by being released or by a token never drawn before. */
  predicate OperationAdvances(before: Operation, after: Operation, issued: set<LeaseToken>) {
    && SameRequest(before, after)
    && (!Active(before) ==> after == before)
    && (after.leaseToken != before.leaseToken ==> after.leaseToken.None? || after.leaseToken.value !in issued)
    && (after.leaseToken == before.leaseToken && after.leaseToken.Some? && after.leaseToken.value in issued ==>
         after.leaseExpiresAt == before.leaseExpiresAt)
  }

  /** A row change raises the revision; a deleted row never changes again. */
  predicate DeploymentAdvances(before: Deployment, after: Deployment, id: DeploymentId) {
    && (after != before ==> after.revision > before.revision && before.deletedAt.None?)
    && after.application == before.application
    && after.environment == before.environment
    && after.release == before.release
    && before.generation <= after.generation
    && before.observedGeneration <= after.observedGeneration
    && (before.controllerId == id ==> after.controllerId == id)
    && after.components.Keys == before.components.Keys
    && (forall slug :: slug in before.components ==>
         after.components[slug].imageDigest == before.components[slug].imageDigest)
  }

  ghost predicate Advances(before: Db, after: Db, issued: set<LeaseToken>) {
    && (forall o :: o in before.operations ==>
         o in after.operations && OperationAdvances(before.operations[o], after.operations[o], issued))
    && (forall d :: d in before.deployments ==>
         d in after.deployments && DeploymentAdvances(before.deployments[d], after.deployments[d], d))
    && (forall o :: o in after.operations && o !in before.operations ==>
         after.operations[o].leaseToken.None? || after.operations[o].leaseToken.value !in issued)
  }

  lemma StillAdvances(db: Db, issued: set<LeaseToken>)
    ensures Advances(db, db, issued)
  {
  }

  lemma AdvancesTransitively(a: Db, b: Db, c: Db, issued: set<LeaseToken>, issued': set<LeaseToken>)
    requires Advances(a, b, issued) && Advances(b, c, issued') && issued <= issued'
    ensures Advances(a, c, issued)
  {
    forall d | d in a.deployments ensures DeploymentAdvances(a.deployments[d], c.deployments[d], d) {
      assert DeploymentAdvances(a.deployments[d], b.deployments[d], d);
      assert DeploymentAdvances(b.deployments[d], c.deployments[d], d);
    }
    forall o | o in a.operations ensures OperationAdvances(a.operations[o], c.operations[o], issued) {
      assert OperationAdvances(a.operations[o], b.operations[o], issued);
      assert OperationAdvances(b.operations[o], c.operations[o], issued');
    }
  }

  // ----- the worker's transactions -----

  /** The tables differ in one operation row at most. */
  predicate OnlyRow(before: Db, after: Db, id: OperationId) {
    && after.deployments == before.deployments
    && id in after.operations
    && after.operations == before.operations[id := after.operations[id]]
  }

  lemma LeasesAreOk(db: Db, issued: set<LeaseToken>)
    requires DbInv(db, issued)
    ensures forall o :: o in db.operations ==> LeaseOk(db.operations[o], issued)
  {
    forall o | o in db.operations ensures LeaseOk(db.operations[o], issued) {
      assert OperationOk(db, issued, o);
    }
  }

  lemma ClaimIsSafe(db: Db, issued: set<LeaseToken>, id: OperationId, token: LeaseToken, now: Time)
    requires DbInv(db, issued) && token !in issued && id in db.operations
    requires Claimable(db.operations[id], now) && Countable(db.operations[id])
    ensures DbInv(Claim(db, id, token, now), issued + {token})
    ensures Advances(db, Claim(db, id, token, now), issued)
    ensures
      var op, db' := db.operations[id], Claim(db, id, token, now);
      && OnlyRow(db, db', id)
      && db'.operations[id] == op.(
           status := OpRunning, startedAt := if op.startedAt.Some? then op.startedAt else Some(now),
           attempts := op.attempts + 1, leaseToken := Some(token), leaseExpiresAt := Some(now + 90 * SECOND),
           nextAttemptAt := None)
  {
    hide DbInv, Advances;
    var op := Leased(db.operations[id], token, now);
    LeasesAreOk(db, issued);
    RewriteKeepsInv(db, issued, issued + {token}, id, op);
    RewriteAdvances(db, issued, id, op);
  }

  /** The rows a recording transaction finds when it still holds the lease. */
  ghost predicate Recordings(db: Db, issued: set<LeaseToken>, id: OperationId, token: LeaseToken) {
    DbInv(db, issued) && References(db, id) && Holds(db, id, token)
  }

  /** A lease holder finds its operation running and its deployment waiting for exactly that operation. */
  predicate RunningRows(op: Operation, deployment: Deployment) {
    && op.status == OpRunning && op.nextAttemptAt.None? && op.attempts <= SMALLINT_MAX
    && (deployment.controllerId == "" || deployment.controllerId == op.deployment)
    && deployment.revision >= 1
    && deployment.observedGeneration <= deployment.generation
    && (Reconciles(op) ==>
         && op.payload == DesiredPayload(deployment.desired)
         && op.target == deployment.generation
         && Transitional(deployment.observed)
         && deployment.deletedAt.None?)
  }

  lemma HolderIsRunning(db: Db, issued: set<LeaseToken>, id: OperationId, token: LeaseToken)
    requires Recordings(db, issued, id, token)
    ensures RunningRows(db.operations[id], db.deployments[db.operations[id].deployment])
  {
    var op := db.operations[id];
    assert OperationOk(db, issued, id) && DeploymentOk(db, op.deployment);
    if Reconciles(op) { assert Busy(db, op.deployment); }
  }

  lemma SaveAdvances(db: Db, issued: set<LeaseToken>, id: OperationId, op: Operation, deployment: Deployment)
    requires References(db, id)
    requires OperationAdvances(db.operations[id], op, issued)
    requires DeploymentAdvances(db.deployments[op.deployment], deployment, op.deployment)
    ensures Advances(db, Save(db, id, op, deployment), issued)
  {
  }

  lemma RewriteAdvances(db: Db, issued: set<LeaseToken>, id: OperationId, op: Operation)
    requires id in db.operations && OperationAdvances(db.operations[id], op, issued)
    ensures Advances(db, db.(operations := db.operations[id := op]), issued)
  {
  }

  /** What one snapshot may do to the two rows. */
  predicate RowsAreSafe(op: Operation, deployment: Deployment, rows: Rows, issued: set<LeaseToken>) {
    && SettlesRows(op, rows.operation, deployment, rows.deployment)
    && OperationAdvances(op, rows.operation, issued)
    && DeploymentAdvances(deployment, rows.deployment, op.deployment)
  }

  lemma PollIsSafe(op: Operation, deployment: Deployment, snapshot: Snapshot, now: Time, issued: set<LeaseToken>)
    requires RunningRows(op, deployment) && Reconciles(op) && snapshot.controllerId == op.deployment
    ensures
      var r := Poll(op, deployment, snapshot, now);
      r.Ok? ==> RowsAreSafe(op, deployment, r.value, issued)
  {
    hide Sync, StartOf;
    var r := Poll(op, deployment, snapshot, now);
    if r.Ok? {
      if now - StartOf(op) >= MAX_RECONCILIATION_AGE {
        assert r.value.operation.status == OpFailed;
      } else {
        assert r.value.deployment == Polled(deployment, snapshot, now);
      }
    }
  }

  lemma ConclusionIsSafe(op: Operation, deployment: Deployment, read: Operation, snapshot: Snapshot, now: Time,
                         issued: set<LeaseToken>)
    requires RunningRows(op, deployment) && Reconciles(op) && SameRequest(read, op)
    requires snapshot.controllerId == op.deployment
    requires !Transitional(snapshot.state) && !WaitingForGeneration(op, snapshot)
    ensures
      var r := Conclude(op, deployment, read, snapshot, now);
      r.Ok? ==> RowsAreSafe(op, deployment, r.value, issued)
  {
    hide Sync;
    SyncKeepsRelease(deployment.components, snapshot, true);
  }

  lemma ObservationIsSafe(op: Operation, deployment: Deployment, read: Operation, snapshot: Snapshot, now: Time,
                          issued: set<LeaseToken>)
    requires RunningRows(op, deployment) && Reconciles(op) && SameRequest(read, op)
    requires snapshot.controllerId == op.deployment
    ensures
      var r := Observation(op, deployment, read, snapshot, now);
      r.Ok? ==> RowsAreSafe(op, deployment, r.value, issued)
  {
    hide Poll, Conclude, RowsAreSafe;
    if Transitional(snapshot.state) || WaitingForGeneration(op, snapshot) {
      PollIsSafe(op, deployment, snapshot, now, issued);
    } else {
      ConclusionIsSafe(op, deployment, read, snapshot, now, issued);
    }
  }

  lemma SnapshotIsSafe(db: Db, issued: set<LeaseToken>, id: OperationId, token: LeaseToken, read: Operation,
                       snapshot: Snapshot, now: Time)
    requires Recordings(db, issued, id, token)
    requires Reconciles(db.operations[id]) && snapshot.controllerId == db.operations[id].deployment
    requires SameRequest(read, db.operations[id])
    ensures
      var r := RecordSnapshot(db, id, token, read, snapshot, now);
      r.Ok? ==> DbInv(r.value, issued) && Advances(db, r.value, issued)
  {
    hide DbInv, Advances;
    HolderIsRunning(db, issued, id, token);
    var op := db.operations[id];
    var deployment := db.deployments[op.deployment];
    ObservationIsSafe(op, deployment, read, snapshot, now, issued);
    var r := Observation(op, deployment, read, snapshot, now);
    if r.Ok? {
      SettleKeepsInv(db, issued, id, r.value.operation, r.value.deployment);
      SaveAdvances(db, issued, id, r.value.operation, r.value.deployment);
    }
  }

  /** The end of an operation that failed for good. */
  lemma FailureIsSafe(db: Db, issued: set<LeaseToken>, id: OperationId, token: LeaseToken, failures: nat,
                      error: OperationError, detail: string, now: Time)
    requires Recordings(db, issued, id, token)
    ensures
      var db' := EndInFailure(db, id, db.operations[id].(failures := failures), error, detail, now);
      DbInv(db', issued) && Advances(db, db', issued)
  {
    hide DbInv, Advances;
    HolderIsRunning(db, issued, id, token);
    var db' := EndInFailure(db, id, db.operations[id].(failures := failures), error, detail, now);
    var op := db'.operations[id];
    if op.kind == LogSnapshot {
      RewriteKeepsInv(db, issued, issued, id, op);
      RewriteAdvances(db, issued, id, op);
    } else {
      var deployment := db'.deployments[op.deployment];
      SettleKeepsInv(db, issued, id, op, deployment);
      SaveAdvances(db, issued, id, op, deployment);
    }
  }

  /** A status that no repetition can mend: a client error other than 408 and 429. */
  predicate ClientError(error: ControllerError) {
    error.status.Some? && 400 <= error.status.value <= 499 && error.status.value != 408 && error.status.value != 429
  }

  /** The failed deployment row next to a failed operation; a log request leaves the deployment alone. */
  predicate FailsDeployment(before: Db, after: Db, op: Operation, detail: string)
    requires op.deployment in before.deployments
  {
    var deployment := before.deployments[op.deployment];
    after.deployments ==
      if op.kind == LogSnapshot then before.deployments
      else before.deployments[op.deployment :=
        deployment.(observed := Failed, lastError := detail, revision := deployment.revision + 1)]
  }

  /** A failure that ends nothing costs one attempt; otherwise operation and deployment fail together. */
  predicate RetriedOrFailed(db: Db, after: Db, id: OperationId, error: ControllerError, now: Time)
    requires References(db, id)
  {
    var op := db.operations[id];
    var counted := op.(failures := op.failures + 1, leaseToken := None, leaseExpiresAt := None);
    if ClientError(error) || op.failures >= 4 then
      && after.operations == db.operations[id := counted.(
           status := OpFailed, finishedAt := Some(now),
           error := Some(OperationError("runtime_controller_error", !ClientError(error))))]
      && FailsDeployment(db, after, op, Prefix(error.detail, 500))
    else
      && after.deployments == db.deployments
      && after.operations == db.operations[id := counted.(
           status := OpQueued, nextAttemptAt := Some(now + Backoff(op.attempts)))]
  }

  lemma FailureIsRecorded(db: Db, id: OperationId, token: LeaseToken, error: ControllerError, now: Time)
    requires References(db, id) && Holds(db, id, token)
    ensures RetriedOrFailed(db, RecordControllerFailure(db, id, token, error, now), id, error, now)
  {
    hide Backoff, Prefix;
  }

  /** The delay before a retry starts at one second, doubles with every attempt and stops at a minute. */
  lemma BackoffDoubles(attempts: nat)
    ensures Backoff(0) == SECOND
    ensures Backoff(attempts + 1) == if 2 * Backoff(attempts) < 60 * SECOND then 2 * Backoff(attempts) else 60 * SECOND
  {
    assert Pow2(attempts + 1) == 2 * Pow2(attempts);
  }

  lemma ControllerFailureIsSafe(db: Db, issued: set<LeaseToken>, id: OperationId, token: LeaseToken,
                                error: ControllerError, now: Time)
    requires Recordings(db, issued, id, token)
    ensures
      var db' := RecordControllerFailure(db, id, token, error, now);
      DbInv(db', issued) && Advances(db, db', issued) && RetriedOrFailed(db, db', id, error, now)
  {
    hide DbInv, Advances, RetriedOrFailed;
    FailureIsRecorded(db, id, token, error, now);
    var op := db.operations[id].(failures := db.operations[id].failures + 1);
    if Retryable(error) && op.failures < MAX_CONTROLLER_FAILURES {
      HolderIsRunning(db, issued, id, token);
      var retried := Released(op.(status := OpQueued, nextAttemptAt := Some(now + Backoff(op.attempts))));
      RewriteKeepsInv(db, issued, issued, id, retried);
      RewriteAdvances(db, issued, id, retried);
    } else {
      FailureIsSafe(db, issued, id, token, op.failures,
                    OperationError("runtime_controller_error", Retryable(error)), Prefix(error.detail, 500), now);
    }
  }

  lemma LogsAreSafe(db: Db, issued: set<LeaseToken>, id: OperationId, token: LeaseToken, now: Time)
    requires Recordings(db, issued, id, token) && db.operations[id].kind == LogSnapshot
    ensures
      var db' := CompleteLogs(db, id, token, now);
      && DbInv(db', issued) && Advances(db, db', issued)
      && OnlyRow(db, db', id)
      && db'.operations[id] == db.operations[id].(
           status := OpSucceeded, result := LogCaptured, error := None, finishedAt := Some(now),
           leaseToken := None, leaseExpiresAt := None)
  {
    hide DbInv, Advances;
    HolderIsRunning(db, issued, id, token);
    var op := CompleteLogs(db, id, token, now).operations[id];
    RewriteKeepsInv(db, issued, issued, id, op);
    RewriteAdvances(db, issued, id, op);
  }

  /** Whatever the controller answered, the recording transaction is safe. */
  lemma RecordIsSafe(db: Db, issued: set<LeaseToken>, id: OperationId, token: LeaseToken, read: Operation,
                     outcome: Outcome, now: Time)
    requires DbInv(db, issued) && References(db, id)
    requires OutcomeOk(outcome, db.operations[id]) && SameRequest(read, db.operations[id])
    ensures
      var r := Record(db, id, token, read, outcome, now);
      r.Ok? ==> DbInv(r.value, issued) && Advances(db, r.value, issued)
  {
    hide DbInv, Advances;
    if Holds(db, id, token) {
      match outcome
      case GotSnapshot(snapshot) =>
        SnapshotIsSafe(db, issued, id, token, read, snapshot, now);
      case GotLogs => LogsAreSafe(db, issued, id, token, now);
      case ControllerFailed(error) => ControllerFailureIsSafe(db, issued, id, token, error, now);
      case WorkerFailed =>
        FailureIsSafe(db, issued, id, token, db.operations[id].failures,
                      OperationError("runtime_worker_error", true), UNEXPECTED_DETAIL, now);
    } else {
      StillAdvances(db, issued);
    }
  }
}
