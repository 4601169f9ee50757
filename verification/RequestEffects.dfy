/**
 What an accepted request of the admin API leaves behind, column by column, and when a request is
 accepted at all. Nothing else in the tables changes.
 */
module RequestEffects {
  import opened Wrappers
  import opened RuntimeModel
  import opened Preconditions
  import opened ApiTransactions

  /** A row fresh from `_create_operation`. */
  function QueuedRow(id: DeploymentId, kind: OperationKind, payload: Payload, key: string, body: RequestBody,
                     target: nat, now: Time): Operation {
    Operation(id, kind, OpQueued, payload, NoResult, None, key, body, target, 0, 0, None, None, None, now, None, None)
  }

  /** The request was accepted, and these two rows are all that changed. */
  predicate Wrote(before: Db, r: ApiResult, id: DeploymentId, deployment: Deployment, newId: OperationId, op: Operation) {
    && r.response == Accepted(newId)
    && r.db.deployments == before.deployments[id := deployment]
    && r.db.operations == before.operations[newId := op]
  }

  /** The conditions shared by every request on an existing deployment. */
  predicate Admitted(db: Db, id: DeploymentId, headers: Headers, seen: Option<OperationId>, environment: Environment) {
    && id in db.deployments
    && Keyed(db, headers, seen)
    && environment.runtimeEnabled
    && Names(headers, db.deployments[id].revision)
  }

  /** A valid idempotency key that neither the lookup nor the insertion finds taken. */
  predicate Keyed(db: Db, headers: Headers, seen: Option<OperationId>) {
    && headers.key.Some? && headers.key.value != "" && ValidKey(Strip(headers.key.value))
    && (seen.Some? ==> seen.value !in db.operations)
    && forall o :: o in db.operations ==> db.operations[o].key != Strip(headers.key.value)
  }

  predicate Names(headers: Headers, revision: nat) {
    headers.ifMatch.Some? && revision > 0 && Strip(headers.ifMatch.value) == Etag(revision)
  }

  predicate Idle(db: Db, id: DeploymentId) {
    forall o :: o in db.operations && db.operations[o].deployment == id && db.operations[o].kind != LogSnapshot ==>
      db.operations[o].status == OpSucceeded || db.operations[o].status == OpFailed
  }

  lemma AdmissionExactly(db: Db, id: DeploymentId, headers: Headers, body: RequestBody, seen: Option<OperationId>,
                         environment: Environment)
    ensures
      (Admission(db, id, headers, body, seen, environment).None? && !KeyTaken(db.operations, KeyOf(headers.key).value))
        <==> Admitted(db, id, headers, seen, environment)
  {
    hide ValidKey, Strip, Etag, ParseEtag;
    if id in db.deployments && headers.ifMatch.Some? {
      ParsesExactlyItsEtag(headers.ifMatch.value, db.deployments[id].revision);
    }
  }

  /** The early answers shared by requests on a deployment, each with its own reason and in this order. */
  lemma AdmissionAnswers(db: Db, id: DeploymentId, headers: Headers, body: RequestBody, seen: Option<OperationId>,
                         environment: Environment)
    ensures
      var early := Admission(db, id, headers, body, seen, environment);
      if id !in db.deployments then early == Some(Problem(NotFound))
      else if headers.key.None? || headers.key.value == "" then early == Some(Problem(IdempotencyKeyRequired))
      else if !ValidKey(Strip(headers.key.value)) then early == Some(Problem(InvalidIdempotencyKey))
      else if seen.Some? && seen.value in db.operations then
        early == Some(if db.operations[seen.value].requestHash == body then Replayed(seen.value) else Problem(IdempotencyConflict))
      else if !environment.runtimeEnabled then early == Some(Problem(BackendUnavailable))
      else PreconditionAnswer(headers, db.deployments[id].revision, early)
  {
    hide ValidKey, Strip, ParseEtag;
    PreconditionAnswers(headers, if id in db.deployments then db.deployments[id].revision else 0);
  }

  /** No header, a header that is no ETag, the ETag of another revision, or the right one. */
  ghost predicate PreconditionAnswer(headers: Headers, revision: nat, early: Option<Response>) {
    if headers.ifMatch.None? then early == Some(Problem(PreconditionRequired))
    else if Names(headers, revision) then early == None
    else if exists other :: Names(headers, other) then early == Some(Problem(StaleRevision))
    else early == Some(Problem(InvalidPrecondition))
  }

  lemma PreconditionAnswers(headers: Headers, revision: nat)
    ensures
      var r := CheckRevision(headers.ifMatch, revision);
      PreconditionAnswer(headers, revision, if r.Refused? then Some(Problem(r.code)) else None)
  {
    hide Strip, Etag, ParseEtag;
    if headers.ifMatch.Some? {
      forall other: nat ensures ParseEtag(headers.ifMatch.value) == Some(other) <==> Names(headers, other) {
        ParsesExactlyItsEtag(headers.ifMatch.value, other);
      }
      if ParseEtag(headers.ifMatch.value).Some? { assert Names(headers, ParseEtag(headers.ifMatch.value).value); }
    }
  }

  lemma BusyExactly(db: Db, id: DeploymentId)
    ensures Busy(db, id) <==> !Idle(db, id)
  {
  }

  // ----- actions -----

  /** The states in which an action makes sense. */
  predicate StateFits(state: ObservedState, action: Action) {
    match action
    case StartAction => state == Stopped || state == Failed || state == Unknown
    case StopAction => state == Running || state == Degraded || state == Failed || state == Unknown
    case RestartAction => state == Running || state == Degraded
    case ScaleAction(_, _) => state == Running || state == Degraded || state == Stopped
  }

  predicate EnvironmentFits(environment: Environment, action: Action) {
    if action.RestartAction? then environment.restart
    else if action.ScaleAction? then environment.fixedScaling
    else environment.startStop
  }

  /** What an action asks of the row and its environment. */
  predicate ActionFits(deployment: Deployment, action: Action, verdict: Option<map<string, ScalingPolicy>>, environment: Environment) {
    && EnvironmentFits(environment, action)
    && deployment.deletedAt.None?
    && StateFits(deployment.observed, action)
    && (deployment.controllerId != "" || action == StartAction)
    && (action.ScaleAction? ==> action.component in deployment.components && verdict.Some?)
  }

  /** What an accepted action makes of the row: start wants it running, stop wants it stopped, scale sets one component. */
  function ActionRow(deployment: Deployment, action: Action, verdict: Option<map<string, ScalingPolicy>>): Deployment
    requires action.ScaleAction? ==> action.component in deployment.components && verdict.Some?
  {
    var next := deployment.(
      observed := Reconciling, lastError := "",
      generation := deployment.generation + 1, revision := deployment.revision + 1);
    match action
    case StartAction => next.(desired := WantRunning)
    case StopAction => next.(desired := WantStopped)
    case RestartAction => next
    case ScaleAction(slug, replicas) =>
      next.(scaling := verdict.value,
            components := deployment.components[slug := deployment.components[slug].(desiredReplicas := replicas)])
  }

  function ActionOperation(deployment: Deployment, action: Action): (OperationKind, DesiredState) {
    match action
    case StartAction => (if deployment.controllerId == "" then Deploy else Start, WantRunning)
    case StopAction => (Stop, WantStopped)
    case RestartAction => (Restart, deployment.desired)
    case ScaleAction(_, _) => (Scale, deployment.desired)
  }

  /** An action is accepted exactly when it fits an idle deployment, and then does what it names. */
  lemma ActionDecides(db: Db, id: DeploymentId, action: Action, verdict: Option<map<string, ScalingPolicy>>,
                      headers: Headers, seen: Option<OperationId>, environment: Environment, newId: OperationId, now: Time)
    ensures
      var r := ActOnDeployment(db, id, action, verdict, headers, seen, environment, newId, now);
      if && Admitted(db, id, headers, seen, environment) && environment.enabled && Idle(db, id)
         && ActionFits(db.deployments[id], action, verdict, environment)
      then
        var deployment := db.deployments[id];
        var (kind, desired) := ActionOperation(deployment, action);
        Wrote(db, r, id, ActionRow(deployment, action, verdict), newId,
              QueuedRow(id, kind, DesiredPayload(desired), Strip(headers.key.value), ActionBody(id, action),
                        deployment.generation + 1, now))
      else !r.response.Accepted? && r.db == db
  {
    hide Admission, Admitted, Busy, Idle, KeyTaken;
    AdmissionExactly(db, id, headers, ActionBody(id, action), seen, environment);
    EarlyAnswers(db, id, headers, ActionBody(id, action), seen, environment);
    BusyExactly(db, id);
  }

  /** Why an admitted action is refused, in this order. */
  lemma ActionRefusals(db: Db, id: DeploymentId, action: Action, verdict: Option<map<string, ScalingPolicy>>,
                       headers: Headers, seen: Option<OperationId>, environment: Environment, newId: OperationId, now: Time)
    requires Admission(db, id, headers, ActionBody(id, action), seen, environment).None?
    ensures
      var response := ActOnDeployment(db, id, action, verdict, headers, seen, environment, newId, now).response;
      && id in db.deployments
      && var deployment := db.deployments[id];
      if !environment.enabled then response == Problem(EnvironmentDisabled)
      else if !Idle(db, id) then response == Problem(OperationInProgress)
      else if !EnvironmentFits(environment, action) then response == Problem(CapabilityUnavailable)
      else if deployment.deletedAt.Some? then response == Problem(DeploymentDeleted)
      else if !StateFits(deployment.observed, action) then response == Problem(InvalidTransition)
      else if deployment.controllerId == "" && action != StartAction then response == Problem(IdentityUnavailable)
      else if action.ScaleAction? && action.component !in deployment.components then response == Problem(ComponentNotFound)
      else if action.ScaleAction? && verdict.None? then response == Problem(InvalidScaling)
      else response == Accepted(newId) || response == Problem(IdempotencyConflict)
  {
    hide Admission, Busy, Idle, KeyTaken;
    EarlyAnswers(db, id, headers, ActionBody(id, action), seen, environment);
    BusyExactly(db, id);
  }

  lemma EarlyAnswers(db: Db, id: DeploymentId, headers: Headers, body: RequestBody, seen: Option<OperationId>,
                     environment: Environment)
    ensures
      var early := Admission(db, id, headers, body, seen, environment);
      && (early.Some? ==> !early.value.Accepted?)
      && (early.None? ==> id in db.deployments && headers.key.Some? && KeyOf(headers.key) == Some(Strip(headers.key.value)))
  {
    hide ValidKey, Strip;
  }

  // ----- configuration -----

  /** The row after a reconfiguration: the named columns are replaced, and every component follows its policy. */
  predicate ConfiguredRow(before: Deployment, changes: Changes, after: Deployment) {
    && after == before.(
         configuration := if changes.configuration.Some? then changes.configuration.value else before.configuration,
         secretRefs := if changes.secretRefs.Some? then changes.secretRefs.value else before.secretRefs,
         scaling := if changes.scaling.Some? then changes.scaling.value else before.scaling,
         observed := Reconciling, lastError := "",
         generation := before.generation + 1, revision := before.revision + 1,
         components := after.components)
    && after.components.Keys == before.components.Keys
    && forall slug :: slug in before.components ==>
         && slug in after.scaling
         && after.components[slug] == before.components[slug].(desiredReplicas := PolicyReplicas(after.scaling[slug]))
  }

  function PolicyReplicas(policy: ScalingPolicy): nat {
    if policy.Fixed? then policy.replicas else policy.minReplicas
  }

  predicate ConfigurationFits(deployment: Deployment, changes: Changes) {
    && deployment.deletedAt.None? && deployment.desired != WantAbsent
    && forall slug :: slug in deployment.components ==>
         slug in if changes.scaling.Some? then changes.scaling.value else deployment.scaling
  }

  lemma ConfigureDecides(db: Db, id: DeploymentId, changes: Changes, headers: Headers, seen: Option<OperationId>,
                         environment: Environment, newId: OperationId, now: Time)
    ensures
      var r := ConfigureDeployment(db, id, changes, headers, seen, environment, newId, now);
      if && Admitted(db, id, headers, seen, environment) && environment.enabled && Idle(db, id)
         && ConfigurationFits(db.deployments[id], changes)
      then
        var deployment := db.deployments[id];
        && id in r.db.deployments && ConfiguredRow(deployment, changes, r.db.deployments[id])
        && Wrote(db, r, id, r.db.deployments[id], newId,
                 QueuedRow(id, if deployment.controllerId == "" then Deploy else Configure,
                           DesiredPayload(deployment.desired), Strip(headers.key.value), ConfigureBody(id, changes),
                           deployment.generation + 1, now))
      else !r.response.Accepted? && r.db == db
  {
    hide Admission, Admitted, Busy, Idle, KeyTaken;
    AdmissionExactly(db, id, headers, ConfigureBody(id, changes), seen, environment);
    EarlyAnswers(db, id, headers, ConfigureBody(id, changes), seen, environment);
    BusyExactly(db, id);
  }

  /** Why an admitted reconfiguration is refused, in this order. */
  lemma ConfigureRefusals(db: Db, id: DeploymentId, changes: Changes, headers: Headers, seen: Option<OperationId>,
                          environment: Environment, newId: OperationId, now: Time)
    requires Admission(db, id, headers, ConfigureBody(id, changes), seen, environment).None?
    ensures
      var response := ConfigureDeployment(db, id, changes, headers, seen, environment, newId, now).response;
      && id in db.deployments
      && var deployment := db.deployments[id];
      if !environment.enabled then response == Problem(EnvironmentDisabled)
      else if !Idle(db, id) then response == Problem(OperationInProgress)
      else if deployment.deletedAt.Some? then response == Problem(DeploymentDeleted)
      else if deployment.desired == WantAbsent then response == Problem(DeploymentDeleting)
      else if !ConfigurationFits(deployment, changes) then response == Problem(ServerError)
      else response == Accepted(newId) || response == Problem(IdempotencyConflict)
  {
    hide Admission, Busy, Idle, KeyTaken;
    EarlyAnswers(db, id, headers, ConfigureBody(id, changes), seen, environment);
    BusyExactly(db, id);
  }

  // ----- undeployment -----

  /** Why an admitted undeployment is refused, in this order. */
  lemma UndeployRefusals(db: Db, id: DeploymentId, headers: Headers, seen: Option<OperationId>,
                         environment: Environment, newId: OperationId, now: Time)
    requires Admission(db, id, headers, UndeployBody(id), seen, environment).None?
    ensures
      var response := UndeployDeployment(db, id, headers, seen, environment, newId, now).response;
      && id in db.deployments
      && if !Idle(db, id) then response == Problem(OperationInProgress)
         else if db.deployments[id].deletedAt.Some? then response == Problem(DeploymentDeleted)
         else response == Accepted(newId) || response == Problem(IdempotencyConflict)
  {
    hide Admission, Busy, Idle, KeyTaken;
    EarlyAnswers(db, id, headers, UndeployBody(id), seen, environment);
    BusyExactly(db, id);
  }

  lemma UndeployDecides(db: Db, id: DeploymentId, headers: Headers, seen: Option<OperationId>,
                        environment: Environment, newId: OperationId, now: Time)
    ensures
      var r := UndeployDeployment(db, id, headers, seen, environment, newId, now);
      if Admitted(db, id, headers, seen, environment) && Idle(db, id) && db.deployments[id].deletedAt.None? then
        var deployment := db.deployments[id];
        Wrote(db, r, id,
              deployment.(desired := WantAbsent, observed := Deleting, lastError := "",
                          generation := deployment.generation + 1, revision := deployment.revision + 1),
              newId,
              QueuedRow(id, Undeploy, DesiredPayload(WantAbsent), Strip(headers.key.value), UndeployBody(id),
                        deployment.generation + 1, now))
      else !r.response.Accepted? && r.db == db
  {
    hide Admission, Admitted, Busy, Idle, KeyTaken;
    AdmissionExactly(db, id, headers, UndeployBody(id), seen, environment);
    EarlyAnswers(db, id, headers, UndeployBody(id), seen, environment);
    BusyExactly(db, id);
  }

  // ----- log requests -----

  predicate LogsFit(db: Db, id: DeploymentId, query: LogQuery, environment: Environment)
    requires id in db.deployments
  {
    var deployment := db.deployments[id];
    var state := deployment.observed;
    && (forall o :: o in db.operations && db.operations[o].deployment == id && db.operations[o].kind == LogSnapshot ==>
         db.operations[o].status == OpSucceeded || db.operations[o].status == OpFailed)
    && deployment.controllerId != ""
    && (state == Running || state == Degraded || state == Stopped || state == Failed || state == Unknown)
    && query.component in deployment.components
    && environment.logs.MaxLines? && query.tailLines <= environment.logs.limit && 1 <= environment.logs.limit <= 1000
  }

  lemma LogsDecide(db: Db, id: DeploymentId, query: LogQuery, headers: Headers, seen: Option<OperationId>,
                   environment: Environment, newId: OperationId, now: Time)
    ensures
      var r := RequestLogs(db, id, query, headers, seen, environment, newId, now);
      if Admitted(db, id, headers, seen, environment) && environment.enabled && LogsFit(db, id, query, environment) then
        var deployment := db.deployments[id];
        Wrote(db, r, id, deployment, newId,
              QueuedRow(id, LogSnapshot, LogPayload(query), Strip(headers.key.value), LogBody(id, query),
                        deployment.generation, now))
      else !r.response.Accepted? && r.db == db
  {
    hide Admission, Admitted, KeyTaken;
    AdmissionExactly(db, id, headers, LogBody(id, query), seen, environment);
    EarlyAnswers(db, id, headers, LogBody(id, query), seen, environment);
  }

  /** Why an admitted log request is refused, in this order. */
  lemma LogRefusals(db: Db, id: DeploymentId, query: LogQuery, headers: Headers, seen: Option<OperationId>,
                    environment: Environment, newId: OperationId, now: Time)
    requires Admission(db, id, headers, LogBody(id, query), seen, environment).None?
    ensures
      var response := RequestLogs(db, id, query, headers, seen, environment, newId, now).response;
      && id in db.deployments
      && var deployment := db.deployments[id];
      if !environment.enabled then response == Problem(EnvironmentDisabled)
      else if exists o :: o in db.operations && db.operations[o].deployment == id && db.operations[o].kind == LogSnapshot
                          && db.operations[o].status != OpSucceeded && db.operations[o].status != OpFailed then
        response == Problem(LogSnapshotInProgress)
      else if deployment.controllerId == "" then response == Problem(IdentityUnavailable)
      else if deployment.observed in {Pending, Reconciling, Deleting, Deleted} then response == Problem(InvalidTransition)
      else if query.component !in deployment.components then response == Problem(ComponentNotFound)
      else if environment.logs.LogsUnsupported? then response == Problem(CapabilityUnavailable)
      else if environment.logs.LogsInvalid? || environment.logs.limit < 1 || environment.logs.limit > 1000 then
        response == Problem(EnvironmentInvalid)
      else if query.tailLines > environment.logs.limit then response == Problem(LogLimitExceeded)
      else response == Accepted(newId) || response == Problem(IdempotencyConflict)
  {
    hide Admission, KeyTaken;
    EarlyAnswers(db, id, headers, LogBody(id, query), seen, environment);
  }

  // ----- creation -----

  /** A new deployment, wanted running, with one pending component per image of its release. */
  predicate CreatedRow(body: RequestBody, release: Release, verdict: Validated, after: Deployment)
    requires body.CreateBody?
  {
    && after == Deployment(
         body.application, body.environment, release.id, WantRunning, Pending, "", verdict.configuration,
         verdict.secretRefs, verdict.scaling, 1, 0, 1, "", None, None, after.components)
    && after.components.Keys == release.images.Keys
    && forall slug :: slug in release.images ==>
         && slug in verdict.scaling
         && after.components[slug]
              == Component(release.images[slug], PolicyReplicas(verdict.scaling[slug]), 0, 0, "pending", "unknown", 0, "")
  }

  predicate CreationFits(db: Db, body: RequestBody, release: Result<Release, Code>, verdict: Option<Validated>)
    requires body.CreateBody?
  {
    && (forall d :: d in db.deployments && db.deployments[d].deletedAt.None? ==>
         db.deployments[d].application != body.application || db.deployments[d].environment != body.environment)
    && release.Ok? && verdict.Some? && forall slug :: slug in release.value.images ==> slug in verdict.value.scaling
  }

  lemma CreateDecides(db: Db, body: RequestBody, revision: nat, release: Result<Release, Code>, verdict: Option<Validated>,
                      headers: Headers, seen: Option<OperationId>, environment: Environment, newDeployment: DeploymentId,
                      newId: OperationId, now: Time)
    requires body.CreateBody?
    ensures
      var r := CreateDeployment(db, body, revision, release, verdict, headers, seen, environment, newDeployment, newId, now);
      if && Keyed(db, headers, seen) && environment.runtimeEnabled && Names(headers, revision)
         && CreationFits(db, body, release, verdict)
      then
        && newDeployment in r.db.deployments
        && CreatedRow(body, release.value, verdict.value, r.db.deployments[newDeployment])
        && Wrote(db, r, newDeployment, r.db.deployments[newDeployment], newId,
                 QueuedRow(newDeployment, Deploy, DesiredPayload(WantRunning), Strip(headers.key.value), body, 1, now))
      else !r.response.Accepted? && r.db == db
  {
    hide ValidKey, Strip, CheckRevision, Names, Replay, Keyed;
    PassesExactly(headers, revision);
    KeyExactly(db, headers, body, seen);
  }

  lemma PassesExactly(headers: Headers, revision: nat)
    ensures CheckRevision(headers.ifMatch, revision).Passed? <==> Names(headers, revision)
  {
    hide Strip, Etag, ParseEtag;
    if headers.ifMatch.Some? { ParsesExactlyItsEtag(headers.ifMatch.value, revision); }
  }

  lemma KeyExactly(db: Db, headers: Headers, body: RequestBody, seen: Option<OperationId>)
    ensures
      var early := Replay(db, headers, body, seen);
      && (early.Some? ==> !early.value.Accepted?)
      && (early.None? ==> headers.key.Some? && KeyOf(headers.key) == Some(Strip(headers.key.value)))
      && (early.None? && !KeyTaken(db.operations, KeyOf(headers.key).value) <==> Keyed(db, headers, seen))
  {
    hide ValidKey, Strip;
  }

  /** Why a creation is refused, in this order; a request seen before is answered before all else but its key. */
  lemma CreateRefusals(db: Db, body: RequestBody, revision: nat, release: Result<Release, Code>, verdict: Option<Validated>,
                       headers: Headers, seen: Option<OperationId>, environment: Environment, newDeployment: DeploymentId,
                       newId: OperationId, now: Time)
    requires body.CreateBody?
    ensures
      var response :=
        CreateDeployment(db, body, revision, release, verdict, headers, seen, environment, newDeployment, newId, now).response;
      if headers.key.None? || headers.key.value == "" then response == Problem(IdempotencyKeyRequired)
      else if !ValidKey(Strip(headers.key.value)) then response == Problem(InvalidIdempotencyKey)
      else if seen.Some? && seen.value in db.operations then
        response == if db.operations[seen.value].requestHash == body then Replayed(seen.value) else Problem(IdempotencyConflict)
      else if !environment.runtimeEnabled then response == Problem(BackendUnavailable)
      else if !Names(headers, revision) then PreconditionAnswer(headers, revision, Some(response))
      else if exists d :: d in db.deployments && db.deployments[d].deletedAt.None?
                          && db.deployments[d].application == body.application
                          && db.deployments[d].environment == body.environment then response == Problem(DeploymentExists)
      else if release.Err? then response == Problem(release.error)
      else if verdict.None? then response == Problem(InvalidRequest)
      else if exists slug :: slug in release.value.images && slug !in verdict.value.scaling then
        response == Problem(ServerError)
      else response == Accepted(newId) || response == Problem(IdempotencyConflict)
  {
    hide ValidKey, Strip, Etag, ParseEtag, KeyTaken, CheckRevision;
    PreconditionAnswers(headers, revision);
  }
}
