/**
 Rows of the DEALHost runtime tables (apps/hosting/models.py) and the values that
 travel between the admin API, the worker and the isolated controller.
 */
module RuntimeModel {
  import opened Wrappers

  /** Instants are microseconds on the shared clock. */
  type Time = int
  type DeploymentId = string
  type OperationId = nat
  type LeaseToken = nat

  const SECOND: Time := 1_000_000
  const LEASE: Time := 90 * SECOND
  const POLL_DELAY: Time := 2 * SECOND
  const MAX_RECONCILIATION_AGE: Time := 30 * 60 * SECOND
  const MAX_CONTROLLER_FAILURES: nat := 5
  const SMALLINT_MAX: nat := 32_767

  datatype DesiredState = WantRunning | WantStopped | WantAbsent

  datatype ObservedState =
    | Pending | Reconciling | Running | Degraded | Stopped
    | Deleting | Deleted | Failed | Unknown

  datatype OperationKind =
    | Deploy | Configure | Start | Stop | Restart | Scale | Undeploy | LogSnapshot

  datatype OperationStatus = OpQueued | OpRunning | OpSucceeded | OpFailed

  datatype ScalingPolicy = Fixed(replicas: nat) | Autoscaled(minReplicas: nat)

  datatype Component = Component(
    imageDigest: string,
    desiredReplicas: nat,
    readyReplicas: nat,
    availableReplicas: nat,
    state: string,
    health: string,
    restartCount: nat,
    lastError: string)

  /** A deployment row together with its component rows, keyed by slug. */
  datatype Deployment = Deployment(
    application: nat,
    environment: string,
    release: nat,
    desired: DesiredState,
    observed: ObservedState,
    controllerId: string,
    configuration: string,
    secretRefs: string,
    scaling: map<string, ScalingPolicy>,
    generation: nat,
    observedGeneration: nat,
    revision: nat,
    lastError: string,
    lastReconciledAt: Option<Time>,
    deletedAt: Option<Time>,
    components: map<string, Component>)

  datatype LogQuery = LogQuery(component: string, tailLines: nat, sinceSeconds: nat)

  datatype Payload = DesiredPayload(desired: DesiredState) | LogPayload(query: LogQuery)

  datatype OperationResult =
    | NoResult
    | Dispatched
    | Reconciled(state: ObservedState, observedGeneration: nat)
    | LogCaptured

  datatype OperationError = OperationError(code: string, retryable: bool)

  datatype Changes = Changes(
    configuration: Option<string>,
    secretRefs: Option<string>,
    scaling: Option<map<string, ScalingPolicy>>)

  datatype Action =
    | StartAction
    | StopAction
    | RestartAction
    | ScaleAction(component: string, replicas: nat)

  /**
   The request that `_request_hash` digests: scope and canonical payload. The digest
   is taken to be injective, so the request itself stands for its hash.
   */
  datatype RequestBody =
    | CreateBody(application: nat, environment: string, version: string,
                 configuration: string, secretRefs: string, scaling: map<string, ScalingPolicy>)
    | ConfigureBody(deployment: DeploymentId, changes: Changes)
    | UndeployBody(deployment: DeploymentId)
    | ActionBody(deployment: DeploymentId, action: Action)
    | LogBody(deployment: DeploymentId, query: LogQuery)

  datatype Operation = Operation(
    deployment: DeploymentId,
    kind: OperationKind,
    status: OperationStatus,
    payload: Payload,
    result: OperationResult,
    error: Option<OperationError>,
    key: string,
    requestHash: RequestBody,
    target: nat,
    attempts: nat,
    failures: nat,
    nextAttemptAt: Option<Time>,
    leaseToken: Option<LeaseToken>,
    leaseExpiresAt: Option<Time>,
    requestedAt: Time,
    startedAt: Option<Time>,
    finishedAt: Option<Time>)

  datatype Db = Db(
    deployments: map<DeploymentId, Deployment>,
    operations: map<OperationId, Operation>)

  const EMPTY_DB := Db(map[], map[])

  predicate Transitional(state: ObservedState) {
    state.Pending? || state.Reconciling? || state.Deleting?
  }

  predicate Inconclusive(state: ObservedState) {
    state.Failed? || state.Unknown?
  }

  /** The terminal observations that satisfy a desired state. */
  predicate Satisfies(desired: DesiredState, state: ObservedState) {
    match desired
    case WantRunning => state.Running? || state.Degraded?
    case WantStopped => state == Stopped
    case WantAbsent => state == Deleted
  }

  predicate ActiveStatus(status: OperationStatus) {
    status.OpQueued? || status.OpRunning?
  }

  predicate Active(op: Operation) {
    ActiveStatus(op.status)
  }

  /** A row that asks the controller to reconcile, as opposed to a log snapshot. */
  predicate Reconciles(op: Operation) {
    op.kind != LogSnapshot
  }

  function Replicas(policy: ScalingPolicy): nat {
    match policy
    case Fixed(replicas) => replicas
    case Autoscaled(minReplicas) => minReplicas
  }

  /** The columns of an operation that no transaction rewrites after its insertion. */
  predicate SameRequest(a: Operation, b: Operation) {
    && a.deployment == b.deployment
    && a.kind == b.kind
    && a.payload == b.payload
    && a.key == b.key
    && a.requestHash == b.requestHash
    && a.target == b.target
    && a.requestedAt == b.requestedAt
  }

  /** An operation row without its lease columns. */
  function Released(op: Operation): Operation {
    op.(leaseToken := None, leaseExpiresAt := None)
  }
}
