/**
 What every reachable state of the runtime protocol satisfies. The conjuncts only hold
 jointly: they link lease, status, generation, observation and identity across the two
 tables and the work in flight.
 */
module RuntimeInvariant {
  import opened Wrappers
  import opened RuntimeModel
  import opened Controller
  import opened WorkerTransactions
  import opened ApiTransactions
  import opened RuntimeProtocol

  /** Kinds whose controller call addresses an existing controller object. */
  predicate NeedsIdentity(kind: OperationKind) {
    !kind.Deploy? && !kind.Undeploy?
  }

  /** Lease token, expiry, status and next attempt move together, and the attempts fit their column. */
  predicate LeaseOk(op: Operation, issued: set<LeaseToken>) {
    && op.attempts <= SMALLINT_MAX
    && (op.leaseToken.Some? <==> op.leaseExpiresAt.Some?)
    && (op.leaseToken.Some? ==>
         op.leaseToken.value in issued && op.status == OpRunning && op.nextAttemptAt.None?)
  }

  /** The controller reported the deployment's own generation in a state that satisfies it. */
  predicate Converged(deployment: Deployment) {
    deployment.observedGeneration == deployment.generation && Satisfies(deployment.desired, deployment.observed)
  }

  /** The newest operation of a deployment tells what is known about it. */
  predicate OutcomeShown(op: Operation, deployment: Deployment) {
    Reconciles(op) && op.target == deployment.generation ==>
      match op.status
      case OpQueued => Transitional(deployment.observed)
      case OpRunning => Transitional(deployment.observed)
      case OpSucceeded =>
        Converged(deployment) && op.result == Reconciled(deployment.observed, deployment.observedGeneration)
      case OpFailed => Inconclusive(deployment.observed)
  }

  /** The kind and payload of an operation say what the request that queued it asked for. */
  predicate AnswersRequest(op: Operation) {
    match op.requestHash
    case CreateBody(_, _, _, _, _, _) => op.kind == Deploy && op.payload == DesiredPayload(WantRunning)
    case ConfigureBody(id, _) =>
      id == op.deployment && (op.kind == Configure || op.kind == Deploy)
      && (op.payload == DesiredPayload(WantRunning) || op.payload == DesiredPayload(WantStopped))
    case UndeployBody(id) => id == op.deployment && op.kind == Undeploy && op.payload == DesiredPayload(WantAbsent)
    case LogBody(id, query) => id == op.deployment && op.kind == LogSnapshot && op.payload == LogPayload(query)
    case ActionBody(id, action) =>
      id == op.deployment &&
      match action
      case StartAction => (op.kind == Start || op.kind == Deploy) && op.payload == DesiredPayload(WantRunning)
      case StopAction => op.kind == Stop && op.payload == DesiredPayload(WantStopped)
      case RestartAction => op.kind == Restart && op.payload == DesiredPayload(WantRunning)
      case ScaleAction(_, _) =>
        op.kind == Scale && (op.payload == DesiredPayload(WantRunning) || op.payload == DesiredPayload(WantStopped))
  }

  predicate RequestOk(op: Operation, deployment: Deployment) {
    && 1 <= op.target <= deployment.generation
    && (Reconciles(op) <==> op.payload.DesiredPayload?)
    && AnswersRequest(op)
    && (Reconciles(op) && Active(op) ==> op.target == deployment.generation)
    && (Reconciles(op) && op.target == deployment.generation ==> op.payload == DesiredPayload(deployment.desired))
    && OutcomeShown(op, deployment)
  }

  predicate IdentityOk(op: Operation, deployment: Deployment) {
    NeedsIdentity(op.kind) || op.result == Dispatched ==> deployment.controllerId == op.deployment
  }

  predicate OperationOk(db: Db, issued: set<LeaseToken>, id: OperationId) {
    && References(db, id)
    && var op := db.operations[id];
    && LeaseOk(op, issued)
    && RequestOk(op, db.deployments[op.deployment])
    && IdentityOk(op, db.deployments[op.deployment])
  }

  /** A deletion leaves `deleted` behind where it was wanted and `failed` where it was not, and nothing else shows `deleted`. */
  predicate TombstoneOk(deployment: Deployment) {
    && (deployment.deletedAt.Some? ==>
         deployment.observed == if deployment.desired == WantAbsent then Deleted else Failed)
    && (deployment.observed == Deleted ==> deployment.deletedAt.Some?)
  }

  predicate DeploymentOk(db: Db, id: DeploymentId) {
    && id in db.deployments
    && var deployment := db.deployments[id];
    && IsUuid(id)
    && (deployment.controllerId == "" || deployment.controllerId == id)
    && deployment.revision >= 1
    && deployment.generation >= 1
    && deployment.observedGeneration <= deployment.generation
    && (Transitional(deployment.observed) <==> Busy(db, id))
    && (!Transitional(deployment.observed) ==> Inconclusive(deployment.observed) || Converged(deployment))
    && TombstoneOk(deployment)
  }

  predicate TokensDistinct(ops: map<OperationId, Operation>) {
    forall a, b :: a in ops && b in ops && a != b && ops[a].leaseToken.Some? ==>
      ops[a].leaseToken != ops[b].leaseToken
  }

  predicate KeysDistinct(ops: map<OperationId, Operation>) {
    forall a, b :: a in ops && b in ops && ops[a].key == ops[b].key ==> a == b
  }

  predicate TargetsDistinct(ops: map<OperationId, Operation>) {
    forall a, b | a in ops && b in ops && Reconciles(ops[a]) && Reconciles(ops[b])
      && ops[a].deployment == ops[b].deployment && ops[a].target == ops[b].target :: a == b
  }

  predicate OneActiveLog(ops: map<OperationId, Operation>) {
    forall a, b | a in ops && b in ops && !Reconciles(ops[a]) && !Reconciles(ops[b])
      && Active(ops[a]) && Active(ops[b]) && ops[a].deployment == ops[b].deployment :: a == b
  }

  predicate Carries(op: Operation, id: DeploymentId, generation: nat) {
    Reconciles(op) && op.deployment == id && op.target == generation
  }

  predicate HasGeneration(ops: map<OperationId, Operation>, id: DeploymentId, generation: nat) {
    exists o :: o in ops && Carries(ops[o], id, generation)
  }

  ghost predicate LedgerComplete(db: Db) {
    forall id, generation: nat :: id in db.deployments && 1 <= generation <= db.deployments[id].generation ==>
      HasGeneration(db.operations, id, generation)
  }

  predicate OnePerEnvironment(deployments: map<DeploymentId, Deployment>) {
    forall a, b | a in deployments && b in deployments
      && deployments[a].deletedAt.None? && deployments[b].deletedAt.None?
      && deployments[a].application == deployments[b].application
      && deployments[a].environment == deployments[b].environment :: a == b
  }

  ghost predicate DbInv(db: Db, issued: set<LeaseToken>) {
    && (forall o :: o in db.operations ==> OperationOk(db, issued, o))
    && (forall id :: id in db.deployments ==> DeploymentOk(db, id))
    && TokensDistinct(db.operations)
    && KeysDistinct(db.operations)
    && TargetsDistinct(db.operations)
    && OneActiveLog(db.operations)
    && LedgerComplete(db)
    && OnePerEnvironment(db.deployments)
  }

  // ----- work in flight -----

  /** What an unlocked read still tells about the rows as they are now. */
  predicate ViewOk(view: View, db: Db, id: OperationId)
    requires References(db, id)
  {
    var op := db.operations[id];
    && SameRequest(view.operation, op)
    && (view.deployment.controllerId == "" || view.deployment.controllerId == op.deployment)
    && (NeedsIdentity(op.kind) || view.operation.result == Dispatched ==>
         view.deployment.controllerId == op.deployment)
    && (Reconciles(op) && view.deployment.generation != op.target ==> !Active(op))
  }

  predicate OutcomeOk(outcome: Outcome, op: Operation) {
    && (outcome.GotSnapshot? ==>
         && Reconciles(op)
         && outcome.snapshot.controllerId == op.deployment
         && DistinctSlugs(outcome.snapshot.components))
    && (outcome.GotLogs? ==> op.kind == LogSnapshot)
  }

  predicate WorkerOk(db: Db, issued: set<LeaseToken>, token: LeaseToken, worker: Worker) {
    && token in issued
    && References(db, worker.operation)
    && var op := db.operations[worker.operation];
    && (op.leaseToken == Some(token) ==> op.leaseExpiresAt == Some(worker.claimedAt + LEASE))
    && (forall o :: o in db.operations && db.operations[o].leaseToken == Some(token) ==> o == worker.operation)
    && (!worker.phase.Claimed? ==> ViewOk(worker.phase.view, db, worker.operation))
    && (worker.phase.Ready? ==> OutcomeOk(worker.phase.outcome, op))
  }

  ghost predicate Inv(w: World) {
    && DbInv(w.db, w.issued)
    && (forall token :: token in w.workers ==> WorkerOk(w.db, w.issued, token, w.workers[token]))
  }
}
