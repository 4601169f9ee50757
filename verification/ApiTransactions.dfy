/**
 The mutating requests of the admin API (`RuntimeDeploymentViewSet`,
 apps/hosting/runtime_views.py) as functions of the database. Each is one transaction under
 the lock of the deployment row (of the application row, for a creation).

 The lookup of the idempotency key is not covered by that lock, so its answer `seen` is an
 input: it may miss a row that another request commits before this one does.
 */
module ApiTransactions {
  import opened Wrappers
  import opened RuntimeModel
  import opened Preconditions

  datatype Headers = Headers(key: Option<string>, ifMatch: Option<string>)

  datatype LogContract = LogsUnsupported | LogsInvalid | MaxLines(limit: int)

  /** Settings and environment columns that a request consults; their editing is outside the model. */
  datatype Environment = Environment(
    runtimeEnabled: bool,
    enabled: bool,
    startStop: bool,
    restart: bool,
    fixedScaling: bool,
    logs: LogContract)

  /** The immutable release a creation binds to: image digest per component slug. */
  datatype Release = Release(id: nat, images: map<string, string>)

  datatype Validated = Validated(
    configuration: string,
    secretRefs: string,
    scaling: map<string, ScalingPolicy>)

  datatype Response = Accepted(operation: OperationId) | Replayed(operation: OperationId) | Problem(code: Code)

  datatype ApiResult = ApiResult(db: Db, response: Response)

  predicate KeyTaken(operations: map<OperationId, Operation>, key: string) {
    exists id :: id in operations && operations[id].key == key
  }

  /** `_idempotency_replay`: an early answer, or none. */
  function Replay(db: Db, headers: Headers, body: RequestBody, seen: Option<OperationId>): Option<Response> {
    var key := KeyOf(headers.key);
    if key.None? then Some(Problem(IdempotencyKeyRequired))
    else if !ValidKey(key.value) then Some(Problem(InvalidIdempotencyKey))
    else if seen.None? || seen.value !in db.operations then None
    else if db.operations[seen.value].requestHash != body then Some(Problem(IdempotencyConflict))
    else Some(Replayed(seen.value))
  }

  /** `_busy_response`. */
  predicate Busy(db: Db, id: DeploymentId) {
    exists o :: o in db.operations && db.operations[o].deployment == id
      && Active(db.operations[o]) && Reconciles(db.operations[o])
  }

  predicate CapturingLogs(db: Db, id: DeploymentId) {
    exists o :: o in db.operations && db.operations[o].deployment == id
      && Active(db.operations[o]) && !Reconciles(db.operations[o])
  }

  function NewOperation(id: DeploymentId, deployment: Deployment, kind: OperationKind, payload: Payload,
                        key: string, body: RequestBody, now: Time): Operation {
    Operation(id, kind, OpQueued, payload, NoResult, None, key, body, deployment.generation,
              0, 0, None, None, None, now, None, None)
  }

  /**
   `_create_operation` as the last act of a transaction that has already rewritten the
   deployment row: a violated key constraint undoes the rewriting too.
   */
  function Enqueue(db: Db, id: DeploymentId, deployment: Deployment, newId: OperationId, kind: OperationKind,
                   payload: Payload, headers: Headers, body: RequestBody, now: Time): ApiResult
    requires KeyOf(headers.key).Some?
  {
    var op := NewOperation(id, deployment, kind, payload, KeyOf(headers.key).value, body, now);
    if KeyTaken(db.operations, op.key) then ApiResult(db, Problem(IdempotencyConflict))
    else ApiResult(Db(db.deployments[id := deployment], db.operations[newId := op]), Accepted(newId))
  }

  /** The checks shared by every request on an existing deployment, in their order. */
  function Admission(db: Db, id: DeploymentId, headers: Headers, body: RequestBody,
                     seen: Option<OperationId>, environment: Environment): Option<Response> {
    if id !in db.deployments then Some(Problem(NotFound))
    else
      var replay := Replay(db, headers, body, seen);
      if replay.Some? then replay
      else if !environment.runtimeEnabled then Some(Problem(BackendUnavailable))
      else
        var precondition := CheckRevision(headers.ifMatch, db.deployments[id].revision);
        if precondition.Refused? then Some(Problem(precondition.code)) else None
  }

  // ----- configure -----

  function Changed(deployment: Deployment, changes: Changes): Deployment {
    deployment.(
      configuration := if changes.configuration.Some? then changes.configuration.value else deployment.configuration,
      secretRefs := if changes.secretRefs.Some? then changes.secretRefs.value else deployment.secretRefs,
      scaling := if changes.scaling.Some? then changes.scaling.value else deployment.scaling)
  }

  /** The columns every accepted mutation rewrites. */
  function NextGeneration(deployment: Deployment, observed: ObservedState): Deployment {
    deployment.(generation := deployment.generation + 1,
                revision := deployment.revision + 1,
                observed := observed,
                lastError := "")
  }

  /** `_sync_component_scaling`. */
  function Rescaled(components: map<string, Component>, scaling: map<string, ScalingPolicy>): map<string, Component>
    requires components.Keys <= scaling.Keys
  {
    map slug | slug in components :: components[slug].(desiredReplicas := Replicas(scaling[slug]))
  }

  function ConfigureDeployment(db: Db, id: DeploymentId, changes: Changes, headers: Headers,
                               seen: Option<OperationId>, environment: Environment,
                               newId: OperationId, now: Time): ApiResult
  {
    var body := ConfigureBody(id, changes);
    var refused := Admission(db, id, headers, body, seen, environment);
    if refused.Some? then ApiResult(db, refused.value)
    else
      var deployment := db.deployments[id];
      if !environment.enabled then ApiResult(db, Problem(EnvironmentDisabled))
      else if Busy(db, id) then ApiResult(db, Problem(OperationInProgress))
      else if deployment.deletedAt.Some? then ApiResult(db, Problem(DeploymentDeleted))
      else if deployment.desired == WantAbsent then ApiResult(db, Problem(DeploymentDeleting))
      else
        var changed := NextGeneration(Changed(deployment, changes), Reconciling);
        if !(changed.components.Keys <= changed.scaling.Keys) then ApiResult(db, Problem(ServerError))
        else
          Enqueue(db, id, changed.(components := Rescaled(changed.components, changed.scaling)), newId,
                  if deployment.controllerId != "" then Configure else Deploy,
                  DesiredPayload(changed.desired), headers, body, now)
  }

  // ----- undeploy -----

  function UndeployDeployment(db: Db, id: DeploymentId, headers: Headers, seen: Option<OperationId>,
                              environment: Environment, newId: OperationId, now: Time): ApiResult
  {
    var body := UndeployBody(id);
    var refused := Admission(db, id, headers, body, seen, environment);
    if refused.Some? then ApiResult(db, refused.value)
    else
      var deployment := db.deployments[id];
      if Busy(db, id) then ApiResult(db, Problem(OperationInProgress))
      else if deployment.deletedAt.Some? then ApiResult(db, Problem(DeploymentDeleted))
      else
        Enqueue(db, id, NextGeneration(deployment.(desired := WantAbsent), Deleting), newId,
                Undeploy, DesiredPayload(WantAbsent), headers, body, now)
  }

  // ----- actions -----

  predicate Capable(environment: Environment, action: Action) {
    match action
    case StartAction => environment.startStop
    case StopAction => environment.startStop
    case RestartAction => environment.restart
    case ScaleAction(_, _) => environment.fixedScaling
  }

  /** `_validate_transition` for a deployment that is not deleted. */
  predicate TransitionAllowed(state: ObservedState, action: Action) {
    match action
    case StartAction => state in {Stopped, Failed, Unknown}
    case StopAction => state in {Running, Degraded, Failed, Unknown}
    case RestartAction => state in {Running, Degraded}
    case ScaleAction(_, _) => state in {Running, Degraded, Stopped}
  }

  function ActionKind(action: Action, controllerId: string): OperationKind {
    match action
    case StartAction => if controllerId == "" then Deploy else Start
    case StopAction => Stop
    case RestartAction => Restart
    case ScaleAction(_, _) => Scale
  }

  /** The desired-state columns an action rewrites; `None` refuses an unknown component or a rejected scaling. */
  function Acted(deployment: Deployment, action: Action, verdict: Option<map<string, ScalingPolicy>>)
    : Result<Deployment, Code>
  {
    match action
    case StartAction => Ok(deployment.(desired := WantRunning))
    case StopAction => Ok(deployment.(desired := WantStopped))
    case RestartAction => Ok(deployment)
    case ScaleAction(slug, replicas) =>
      if slug !in deployment.components then Err(ComponentNotFound)
      else if verdict.None? then Err(InvalidScaling)
      else Ok(deployment.(
        scaling := verdict.value,
        components := deployment.components[slug := deployment.components[slug].(desiredReplicas := replicas)]))
  }

  /** An action that passed every check. */
  function CarryOut(db: Db, id: DeploymentId, action: Action, verdict: Option<map<string, ScalingPolicy>>,
                   headers: Headers, newId: OperationId, now: Time): ApiResult
    requires id in db.deployments && KeyOf(headers.key).Some?
  {
    var deployment := db.deployments[id];
    var acted := Acted(deployment, action, verdict);
    if acted.Err? then ApiResult(db, Problem(acted.error))
    else
      Enqueue(db, id, NextGeneration(acted.value, Reconciling), newId,
              ActionKind(action, deployment.controllerId), DesiredPayload(acted.value.desired),
              headers, ActionBody(id, action), now)
  }

  function ActOnDeployment(db: Db, id: DeploymentId, action: Action, verdict: Option<map<string, ScalingPolicy>>,
                           headers: Headers, seen: Option<OperationId>, environment: Environment,
                           newId: OperationId, now: Time): ApiResult
  {
    var body := ActionBody(id, action);
    var refused := Admission(db, id, headers, body, seen, environment);
    if refused.Some? then ApiResult(db, refused.value)
    else
      var deployment := db.deployments[id];
      if !environment.enabled then ApiResult(db, Problem(EnvironmentDisabled))
      else if Busy(db, id) then ApiResult(db, Problem(OperationInProgress))
      else if !Capable(environment, action) then ApiResult(db, Problem(CapabilityUnavailable))
      else if deployment.deletedAt.Some? then ApiResult(db, Problem(DeploymentDeleted))
      else if !TransitionAllowed(deployment.observed, action) then ApiResult(db, Problem(InvalidTransition))
      else if deployment.controllerId == "" && action != StartAction then
        ApiResult(db, Problem(IdentityUnavailable))
      else
        CarryOut(db, id, action, verdict, headers, newId, now)
  }

  // ----- log requests -----

  function RequestLogs(db: Db, id: DeploymentId, query: LogQuery, headers: Headers, seen: Option<OperationId>,
                       environment: Environment, newId: OperationId, now: Time): ApiResult
  {
    var body := LogBody(id, query);
    var refused := Admission(db, id, headers, body, seen, environment);
    if refused.Some? then ApiResult(db, refused.value)
    else
      var deployment := db.deployments[id];
      if !environment.enabled then ApiResult(db, Problem(EnvironmentDisabled))
      else if CapturingLogs(db, id) then ApiResult(db, Problem(LogSnapshotInProgress))
      else if deployment.controllerId == "" then ApiResult(db, Problem(IdentityUnavailable))
      else if Transitional(deployment.observed) || deployment.observed == Deleted then
        ApiResult(db, Problem(InvalidTransition))
      else if query.component !in deployment.components then ApiResult(db, Problem(ComponentNotFound))
      else if environment.logs.LogsUnsupported? then ApiResult(db, Problem(CapabilityUnavailable))
      else if environment.logs.LogsInvalid? || !(1 <= environment.logs.limit <= 1000) then
        ApiResult(db, Problem(EnvironmentInvalid))
      else if query.tailLines > environment.logs.limit then ApiResult(db, Problem(LogLimitExceeded))
      else
        Enqueue(db, id, deployment, newId, LogSnapshot, LogPayload(query), headers, body, now)
  }

  // ----- create -----

  predicate Deployed(db: Db, application: nat, environment: string) {
    exists id :: id in db.deployments && db.deployments[id].deletedAt.None?
      && db.deployments[id].application == application && db.deployments[id].environment == environment
  }

  function NewComponent(image: string, policy: ScalingPolicy): Component {
    Component(image, Replicas(policy), 0, 0, "pending", "unknown", 0, "")
  }

  /** `_create_components`. */
  function NewComponents(images: map<string, string>, scaling: map<string, ScalingPolicy>): map<string, Component>
    requires images.Keys <= scaling.Keys
  {
    map slug | slug in images :: NewComponent(images[slug], scaling[slug])
  }

  function NewDeployment(body: RequestBody, release: Release, validated: Validated): Deployment
    requires body.CreateBody? && release.images.Keys <= validated.scaling.Keys
  {
    Deployment(body.application, body.environment, release.id, WantRunning, Pending, "",
               validated.configuration, validated.secretRefs, validated.scaling,
               1, 0, 1, "", None, None,
               NewComponents(release.images, validated.scaling))
  }

  /** `release` and `verdict` are the answers of the release lookup and of the serializer validators. */
  function CreateDeployment(db: Db, body: RequestBody, applicationRevision: nat, release: Result<Release, Code>,
                            verdict: Option<Validated>, headers: Headers, seen: Option<OperationId>,
                            environment: Environment, newDeployment: DeploymentId, newId: OperationId, now: Time)
    : ApiResult
    requires body.CreateBody?
  {
    var replay := Replay(db, headers, body, seen);
    if replay.Some? then ApiResult(db, replay.value)
    else if !environment.runtimeEnabled then ApiResult(db, Problem(BackendUnavailable))
    else
      var precondition := CheckRevision(headers.ifMatch, applicationRevision);
      if precondition.Refused? then ApiResult(db, Problem(precondition.code))
      else if Deployed(db, body.application, body.environment) then ApiResult(db, Problem(DeploymentExists))
      else if release.Err? then ApiResult(db, Problem(release.error))
      else if verdict.None? then ApiResult(db, Problem(InvalidRequest))
      else if !(release.value.images.Keys <= verdict.value.scaling.Keys) then ApiResult(db, Problem(ServerError))
      else
        Enqueue(db, newDeployment, NewDeployment(body, release.value, verdict.value), newId,
                Deploy, DesiredPayload(WantRunning), headers, body, now)
  }
}
