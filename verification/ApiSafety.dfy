/** Every request of the admin API keeps the table invariant and only moves the tables forward. */
module ApiSafety {
  import opened Wrappers
  import opened RuntimeModel
  import opened Controller
  import opened ApiTransactions
  import opened Preconditions
  import opened RuntimeProtocol
  import opened RuntimeInvariant
  import opened RuntimeShapes
  import opened RuntimeSafety

  lemma InsertAdvances(db: Db, issued: set<LeaseToken>, id: DeploymentId, deployment: Deployment,
                       newId: OperationId, op: Operation)
    requires newId !in db.operations && op.leaseToken.None?
    requires id in db.deployments ==> DeploymentAdvances(db.deployments[id], deployment, id)
    ensures Advances(db, Db(db.deployments[id := deployment], db.operations[newId := op]), issued)
  {
  }

  /** What an accepted mutation writes over an idle, undeleted deployment. */
  predicate Mutates(before: Deployment, after: Deployment, id: DeploymentId) {
    && DeploymentAdvances(before, after, id)
    && before.deletedAt.None? && after.deletedAt.None?
    && after.generation == before.generation + 1
    && after.revision == before.revision + 1
    && after.observedGeneration == before.observedGeneration
    && after.controllerId == before.controllerId
    && Transitional(after.observed)
  }

  /** One request moves one row by one generation and one revision, and queues one operation for it. */
  predicate OneGeneration(before: Db, after: Db, id: DeploymentId, newId: OperationId) {
    && id in before.deployments && id in after.deployments
    && after.deployments == before.deployments[id := after.deployments[id]]
    && after.deployments[id].generation == before.deployments[id].generation + 1
    && after.deployments[id].revision == before.deployments[id].revision + 1
    && newId in after.operations
    && after.operations == before.operations[newId := after.operations[newId]]
    && Carries(after.operations[newId], id, after.deployments[id].generation)
    && after.operations[newId].status == OpQueued
  }

  /** An accepted mutation moves its row by one generation; any other answer leaves the tables alone. */
  predicate AllOrNothing(before: Db, r: ApiResult, id: DeploymentId, newId: OperationId) {
    if r.response.Accepted? then OneGeneration(before, r.db, id, newId) else r.db == before
  }

  lemma MutationIsSafe(db: Db, issued: set<LeaseToken>, id: DeploymentId, deployment: Deployment,
                       newId: OperationId, kind: OperationKind, headers: Headers, body: RequestBody, now: Time)
    requires DbInv(db, issued)
    requires id in db.deployments && newId !in db.operations && KeyOf(headers.key).Some?
    requires !Busy(db, id) && Mutates(db.deployments[id], deployment, id)
    requires kind != LogSnapshot
    requires AnswersRequest(
      NewOperation(id, deployment, kind, DesiredPayload(deployment.desired), KeyOf(headers.key).value, body, now))
    requires NeedsIdentity(kind) ==> deployment.controllerId == id
    ensures
      var r := Enqueue(db, id, deployment, newId, kind, DesiredPayload(deployment.desired), headers, body, now);
      DbInv(r.db, issued) && Advances(db, r.db, issued) && AllOrNothing(db, r, id, newId)
  {
    hide DbInv, Advances;
    var op := NewOperation(id, deployment, kind, DesiredPayload(deployment.desired), KeyOf(headers.key).value, body, now);
    if KeyTaken(db.operations, op.key) {
      StillAdvances(db, issued);
    } else {
      MutationKeepsInv(db, issued, id, deployment, newId, op);
      InsertAdvances(db, issued, id, deployment, newId, op);
    }
  }

  /** The identity column is empty or the deployment's own id. */
  lemma IdentityColumn(db: Db, issued: set<LeaseToken>, id: DeploymentId)
    requires DbInv(db, issued) && id in db.deployments
    ensures db.deployments[id].controllerId == "" || db.deployments[id].controllerId == id
    ensures db.deployments[id].revision >= 1
  {
    assert DeploymentOk(db, id);
  }

  /** What an idle deployment shows tells what is wanted of it. */
  lemma IdleShowsDesire(db: Db, issued: set<LeaseToken>, id: DeploymentId)
    requires DbInv(db, issued) && id in db.deployments && !Busy(db, id)
    ensures
      var deployment := db.deployments[id];
      && (deployment.observed == Running || deployment.observed == Degraded ==> deployment.desired == WantRunning)
      && (deployment.observed == Stopped ==> deployment.desired == WantStopped)
  {
    assert DeploymentOk(db, id);
  }

  lemma ConfigureIsSafe(db: Db, issued: set<LeaseToken>, id: DeploymentId, changes: Changes, headers: Headers,
                        seen: Option<OperationId>, environment: Environment, newId: OperationId, now: Time)
    requires DbInv(db, issued) && newId !in db.operations
    ensures
      var r := ConfigureDeployment(db, id, changes, headers, seen, environment, newId, now);
      DbInv(r.db, issued) && Advances(db, r.db, issued) && AllOrNothing(db, r, id, newId)
  {
    hide DbInv, Advances, Busy, Enqueue, OneGeneration;
    StillAdvances(db, issued);
    var body := ConfigureBody(id, changes);
    if Admission(db, id, headers, body, seen, environment).None? && environment.enabled && !Busy(db, id) {
      var deployment := db.deployments[id];
      var changed := NextGeneration(Changed(deployment, changes), Reconciling);
      if deployment.deletedAt.None? && deployment.desired != WantAbsent && changed.components.Keys <= changed.scaling.Keys {
        IdentityColumn(db, issued, id);
        MutationIsSafe(db, issued, id, changed.(components := Rescaled(changed.components, changed.scaling)), newId,
                       if deployment.controllerId != "" then Configure else Deploy, headers, body, now);
      }
    }
  }

  lemma UndeployIsSafe(db: Db, issued: set<LeaseToken>, id: DeploymentId, headers: Headers,
                       seen: Option<OperationId>, environment: Environment, newId: OperationId, now: Time)
    requires DbInv(db, issued) && newId !in db.operations
    ensures
      var r := UndeployDeployment(db, id, headers, seen, environment, newId, now);
      DbInv(r.db, issued) && Advances(db, r.db, issued) && AllOrNothing(db, r, id, newId)
  {
    hide DbInv, Advances, Busy, Enqueue, OneGeneration;
    StillAdvances(db, issued);
    var body := UndeployBody(id);
    if Admission(db, id, headers, body, seen, environment).None? && !Busy(db, id) {
      var deployment := db.deployments[id];
      if deployment.deletedAt.None? {
        MutationIsSafe(db, issued, id, NextGeneration(deployment.(desired := WantAbsent), Deleting), newId,
                       Undeploy, headers, body, now);
      }
    }
  }

  lemma ActedMutates(deployment: Deployment, action: Action, verdict: Option<map<string, ScalingPolicy>>, id: DeploymentId)
    requires Acted(deployment, action, verdict).Ok? && deployment.deletedAt.None?
    ensures Mutates(deployment, NextGeneration(Acted(deployment, action, verdict).value, Reconciling), id)
  {
  }

  lemma ActionIsSafe(db: Db, issued: set<LeaseToken>, id: DeploymentId, action: Action,
                     verdict: Option<map<string, ScalingPolicy>>, headers: Headers, seen: Option<OperationId>,
                     environment: Environment, newId: OperationId, now: Time)
    requires DbInv(db, issued) && newId !in db.operations
    ensures
      var r := ActOnDeployment(db, id, action, verdict, headers, seen, environment, newId, now);
      DbInv(r.db, issued) && Advances(db, r.db, issued) && AllOrNothing(db, r, id, newId)
  {
    hide DbInv, Advances, Busy, Enqueue, Mutates, OneGeneration;
    StillAdvances(db, issued);
    var body := ActionBody(id, action);
    if Admission(db, id, headers, body, seen, environment).None? && !Busy(db, id) {
      var deployment := db.deployments[id];
      var acted := Acted(deployment, action, verdict);
      if deployment.deletedAt.None? && acted.Ok? && TransitionAllowed(deployment.observed, action) && (deployment.controllerId != "" || action == StartAction) {
        IdentityColumn(db, issued, id);
        IdleShowsDesire(db, issued, id);
        ActedMutates(deployment, action, verdict, id);
        MutationIsSafe(db, issued, id, NextGeneration(acted.value, Reconciling), newId,
                       ActionKind(action, deployment.controllerId), headers, body, now);
      }
    }
  }

  lemma LogRequestIsSafe(db: Db, issued: set<LeaseToken>, id: DeploymentId, query: LogQuery, headers: Headers,
                         seen: Option<OperationId>, environment: Environment, newId: OperationId, now: Time)
    requires DbInv(db, issued) && newId !in db.operations
    ensures
      var r := RequestLogs(db, id, query, headers, seen, environment, newId, now);
      DbInv(r.db, issued) && Advances(db, r.db, issued)
      && r.db.deployments == db.deployments
      && (!r.response.Accepted? ==> r.db == db)
      && (r.response.Accepted? ==>
           && newId in r.db.operations && r.db.operations == db.operations[newId := r.db.operations[newId]]
           && r.db.operations[newId].kind == LogSnapshot && r.db.operations[newId].status == OpQueued)
  {
    hide DbInv, Advances, CapturingLogs;
    StillAdvances(db, issued);
    var body := LogBody(id, query);
    var r := RequestLogs(db, id, query, headers, seen, environment, newId, now);
    if r.response.Accepted? {
      var deployment := db.deployments[id];
      var op := NewOperation(id, deployment, LogSnapshot, LogPayload(query), KeyOf(headers.key).value, body, now);
      IdentityColumn(db, issued, id);
      LogRequestKeepsInv(db, issued, id, newId, op);
      InsertAdvances(db, issued, id, deployment, newId, op);
      assert r.db.deployments == db.deployments;
      assert r.db == db.(operations := db.operations[newId := op]);
    }
  }

  lemma CreateIsSafe(db: Db, issued: set<LeaseToken>, body: RequestBody, revision: nat,
                     release: Result<Release, Code>, verdict: Option<Validated>, headers: Headers,
                     seen: Option<OperationId>, environment: Environment, newDeployment: DeploymentId,
                     newId: OperationId, now: Time)
    requires DbInv(db, issued) && newId !in db.operations
    requires body.CreateBody? && IsUuid(newDeployment) && newDeployment !in db.deployments
    ensures
      var r := CreateDeployment(db, body, revision, release, verdict, headers, seen, environment, newDeployment, newId, now);
      DbInv(r.db, issued) && Advances(db, r.db, issued)
  {
    hide DbInv, Advances, Deployed, KeyTaken;
    StillAdvances(db, issued);
    var r := CreateDeployment(db, body, revision, release, verdict, headers, seen, environment, newDeployment, newId, now);
    if r.response.Accepted? {
      var deployment := NewDeployment(body, release.value, verdict.value);
      var op := NewOperation(newDeployment, deployment, Deploy, DesiredPayload(WantRunning), KeyOf(headers.key).value, body, now);
      CreationKeepsInv(db, issued, newDeployment, deployment, newId, op);
      InsertAdvances(db, issued, newDeployment, deployment, newId, op);
    }
  }

  /** Any request, with any headers and any answers from its surroundings, is safe. */
  lemma RequestIsSafe(w: World, s: Step)
    requires DbInv(w.db, w.issued) && s.Api? && ApiEnabled(w, s)
    ensures
      var r := Perform(w.db, s.call, s.headers, s.seen, s.environment, s.newId, s.now);
      DbInv(r.db, w.issued) && Advances(w.db, r.db, w.issued)
  {
    hide DbInv, Advances, ConfigureDeployment, UndeployDeployment, ActOnDeployment, RequestLogs, CreateDeployment;
    match s.call
    case Create(body, revision, release, validated, newDeployment) =>
      CreateIsSafe(w.db, w.issued, body, revision, release, validated, s.headers, s.seen, s.environment,
                   newDeployment, s.newId, s.now);
    case Reconfigure(id, changes) =>
      ConfigureIsSafe(w.db, w.issued, id, changes, s.headers, s.seen, s.environment, s.newId, s.now);
    case Remove(id) =>
      UndeployIsSafe(w.db, w.issued, id, s.headers, s.seen, s.environment, s.newId, s.now);
    case Act(id, action, verdict) =>
      ActionIsSafe(w.db, w.issued, id, action, verdict, s.headers, s.seen, s.environment, s.newId, s.now);
    case FetchLogs(id, query) =>
      LogRequestIsSafe(w.db, w.issued, id, query, s.headers, s.seen, s.environment, s.newId, s.now);
  }
}
