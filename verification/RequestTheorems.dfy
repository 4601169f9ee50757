/**
 What a client of the admin API may rely on over whole runs: conditional requests lose no
 update, idempotency keys are spent once, and the lease metric counts what is claimable.
 */
module RequestTheorems {
  import opened Wrappers
  import opened RuntimeModel
  import opened WorkerTransactions
  import opened ApiTransactions
  import opened Preconditions
  import opened RuntimeProtocol
  import opened RuntimeInvariant
  import opened RuntimeSafety
  import opened RuntimeRuns
  import opened RuntimeTheorems

  function Answer(w: World, s: Step): ApiResult
    requires s.Api? && ApiEnabled(w, s)
  {
    Perform(w.db, s.call, s.headers, s.seen, s.environment, s.newId, s.now)
  }

  /** A refused or replayed request changes nothing: the lost key race rolls its mutation back. */
  lemma OnlyAcceptanceWrites(w: World, s: Step)
    requires s.Api? && ApiEnabled(w, s)
    ensures !Answer(w, s).response.Accepted? ==> Answer(w, s).db == w.db
  {
    hide KeyTaken, Busy, CapturingLogs, Deployed, Admission, Replay, CheckRevision;
    match s.call
    case Create(_, _, _, _, _) =>
    case Reconfigure(_, _) =>
    case Remove(_) =>
    case Act(_, _, _) =>
    case FetchLogs(_, _) =>
  }

  // ----- conditional requests -----

  predicate Mutation(call: ApiCall) {
    call.Reconfigure? || call.Remove? || call.Act?
  }

  function DeploymentOf(call: ApiCall): DeploymentId
    requires !call.Create?
  {
    match call
    case Reconfigure(id, _) => id
    case Remove(id) => id
    case Act(id, _, _) => id
    case FetchLogs(id, _) => id
  }

  /** A request is let through exactly on the revision it names; an early answer is never an acceptance. */
  lemma AdmissionNamesRevision(db: Db, id: DeploymentId, headers: Headers, body: RequestBody,
                               seen: Option<OperationId>, environment: Environment)
    ensures
      var early := Admission(db, id, headers, body, seen, environment);
      && (early.None? ==>
           && id in db.deployments
           && KeyOf(headers.key).Some? && ValidKey(KeyOf(headers.key).value)
           && headers.ifMatch.Some?
           && ParseEtag(headers.ifMatch.value) == Some(db.deployments[id].revision))
      && (early.Some? ==> !early.value.Accepted?)
  {
    hide ValidKey;
  }

  /** An accepted request on a deployment named its current revision, and a mutation raised it. */
  lemma AcceptedNamedRevision(w: World, s: Step)
    requires s.Api? && ApiEnabled(w, s) && !s.call.Create? && Answer(w, s).response.Accepted?
    ensures
      var id := DeploymentOf(s.call);
      && id in w.db.deployments && id in Answer(w, s).db.deployments
      && s.headers.ifMatch.Some?
      && ParseEtag(s.headers.ifMatch.value) == Some(w.db.deployments[id].revision)
      && Answer(w, s).db.deployments[id].revision ==
           w.db.deployments[id].revision + if Mutation(s.call) then 1 else 0
  {
    hide KeyTaken, Busy, CapturingLogs, ParseEtag, Admission;
    AdmissionNamesRevision(w.db, DeploymentOf(s.call), s.headers, BodyOf(s.call), s.seen, s.environment);
    match s.call
    case Reconfigure(_, _) =>
    case Remove(_) =>
    case Act(_, _, _) =>
    case FetchLogs(_, _) =>
  }

  /** Between two states that show a deployment at one revision, its row and components are the same. */
  lemma RevisionIdentifiesRow(past: seq<Step>, later: seq<Step>, id: DeploymentId)
    requires Legal(EMPTY_WORLD, past)
    requires Legal(Exec(EMPTY_WORLD, past), later)
    requires id in Exec(EMPTY_WORLD, past).db.deployments
    ensures
      var db := Exec(EMPTY_WORLD, past).db;
      var db' := Exec(Exec(EMPTY_WORLD, past), later).db;
      && id in db'.deployments
      && db.deployments[id].revision <= db'.deployments[id].revision
      && (db.deployments[id].revision == db'.deployments[id].revision <==> db.deployments[id] == db'.deployments[id])
  {
    hide Enabled, Apply;
    ReachedIsSafe(past);
    var w := Exec(EMPTY_WORLD, past);
    RunIsSafe(w, later);
    assert DeploymentAdvances(w.db.deployments[id], Exec(w, later).db.deployments[id], id);
  }

  /** A request sent with the ETag of the row a client read acts on exactly that row. */
  lemma RequestActsOnReadRow(past: seq<Step>, later: seq<Step>, s: Step)
    requires Legal(EMPTY_WORLD, past)
    requires Legal(Exec(EMPTY_WORLD, past), later)
    requires s.Api? && !s.call.Create? && ApiEnabled(Exec(Exec(EMPTY_WORLD, past), later), s)
    requires DeploymentOf(s.call) in Exec(EMPTY_WORLD, past).db.deployments
    requires
      var read := Exec(EMPTY_WORLD, past).db.deployments[DeploymentOf(s.call)];
      s.headers.ifMatch == Some(Etag(read.revision))
    requires Answer(Exec(Exec(EMPTY_WORLD, past), later), s).response.Accepted?
    ensures
      var read := Exec(EMPTY_WORLD, past).db.deployments[DeploymentOf(s.call)];
      var db := Exec(Exec(EMPTY_WORLD, past), later).db;
      DeploymentOf(s.call) in db.deployments && db.deployments[DeploymentOf(s.call)] == read
  {
    hide Enabled, Apply, Perform, ApiEnabled;
    var id := DeploymentOf(s.call);
    ReachedIsSafe(past);
    var w := Exec(EMPTY_WORLD, past);
    assert DeploymentOk(w.db, id);
    var w' := Exec(w, later);
    AcceptedNamedRevision(w', s);
    EtagRoundTrip(w.db.deployments[id].revision, w'.db.deployments[id].revision);
    RevisionIdentifiesRow(past, later, id);
  }

  /** Of two mutations of one deployment with one If-Match header, at most one commits. */
  lemma OneMutationPerEtag(past: seq<Step>, s: Step, later: seq<Step>, s': Step)
    requires Legal(EMPTY_WORLD, past)
    requires s.Api? && Mutation(s.call) && Enabled(Exec(EMPTY_WORLD, past), s)
    requires Answer(Exec(EMPTY_WORLD, past), s).response.Accepted?
    requires Legal(Apply(Exec(EMPTY_WORLD, past), s), later)
    requires
      var w := Exec(Apply(Exec(EMPTY_WORLD, past), s), later);
      && s'.Api? && Mutation(s'.call) && ApiEnabled(w, s')
      && DeploymentOf(s'.call) == DeploymentOf(s.call)
      && s'.headers.ifMatch == s.headers.ifMatch
    ensures
      var w := Exec(Apply(Exec(EMPTY_WORLD, past), s), later);
      Answer(w, s').db == w.db && !Answer(w, s').response.Accepted?
  {
    hide Perform, ApiEnabled, DbInv, WorkerOk;
    var w0 := Exec(EMPTY_WORLD, past);
    var w1 := Apply(w0, s);
    var w2 := Exec(w1, later);
    var id := DeploymentOf(s.call);
    ReachedIsSafe(past);
    StepIsSafe(w0, s);
    RunIsSafe(w1, later);
    AcceptedNamedRevision(w0, s);
    assert DeploymentAdvances(w1.db.deployments[id], w2.db.deployments[id], id);
    if Answer(w2, s').response.Accepted? {
      AcceptedNamedRevision(w2, s');
      assert false;
    }
    OnlyAcceptanceWrites(w2, s');
  }

  // ----- idempotency -----

  lemma UsedKeyIsRefused(w: World, s: Step)
    requires s.Api? && ApiEnabled(w, s)
    requires KeyOf(s.headers.key).Some? && KeyTaken(w.db.operations, KeyOf(s.headers.key).value)
    ensures !Answer(w, s).response.Accepted?
  {
    hide KeyTaken, Busy, CapturingLogs, Deployed, CheckRevision, Admission;
    if !s.call.Create? {
      AdmissionNamesRevision(w.db, DeploymentOf(s.call), s.headers, BodyOf(s.call), s.seen, s.environment);
    }
    match s.call
    case Create(_, _, _, _, _) =>
    case Reconfigure(_, _) =>
    case Remove(_) =>
    case Act(_, _, _) =>
    case FetchLogs(_, _) =>
  }

  /**
   Once an operation has a key, the key belongs to that operation and its request for ever,
   and no later request with it changes any row.
   */
  lemma KeyIsSpentOnce(past: seq<Step>, later: seq<Step>, o: OperationId, s: Step)
    requires Legal(EMPTY_WORLD, past)
    requires Legal(Exec(EMPTY_WORLD, past), later)
    requires o in Exec(EMPTY_WORLD, past).db.operations
    requires s.Api? && ApiEnabled(Exec(Exec(EMPTY_WORLD, past), later), s)
    requires KeyOf(s.headers.key) == Some(Exec(EMPTY_WORLD, past).db.operations[o].key)
    ensures
      var op := Exec(EMPTY_WORLD, past).db.operations[o];
      var w := Exec(Exec(EMPTY_WORLD, past), later);
      && o in w.db.operations && SameRequest(op, w.db.operations[o])
      && (forall other :: other in w.db.operations && w.db.operations[other].key == op.key ==> other == o)
      && Answer(w, s).db == w.db
      && !Answer(w, s).response.Accepted?
  {
    hide Enabled, Apply, Perform, WorkerOk;
    ReachedIsSafe(past);
    var w := Exec(EMPTY_WORLD, past);
    RunIsSafe(w, later);
    var w' := Exec(w, later);
    assert OperationAdvances(w.db.operations[o], w'.db.operations[o], w.issued);
    assert KeyTaken(w'.db.operations, w.db.operations[o].key);
    UsedKeyIsRefused(w', s);
    OnlyAcceptanceWrites(w', s);
  }

  function BodyOf(call: ApiCall): RequestBody {
    match call
    case Create(body, _, _, _, _) => body
    case Reconfigure(id, changes) => ConfigureBody(id, changes)
    case Remove(id) => UndeployBody(id)
    case Act(id, action, _) => ActionBody(id, action)
    case FetchLogs(id, query) => LogBody(id, query)
  }

  /** The operation that an accepted request creates carries the request itself and its key. */
  lemma AcceptedCarriesRequest(w: World, s: Step)
    requires s.Api? && ApiEnabled(w, s) && Answer(w, s).response.Accepted?
    ensures
      var operations := Answer(w, s).db.operations;
      && Answer(w, s).response == Accepted(s.newId) && s.newId in operations
      && operations[s.newId].requestHash == BodyOf(s.call)
      && KeyOf(s.headers.key) == Some(operations[s.newId].key) && ValidKey(operations[s.newId].key)
      && (!s.call.Create? ==> DeploymentOf(s.call) in w.db.deployments)
  {
    hide KeyTaken, Busy, CapturingLogs, Deployed, CheckRevision, ValidKey, Admission, Replay, KeyOf, ParseEtag;
    if s.call.Create? {
      ReplayIsNoAcceptance(w.db, s.headers, BodyOf(s.call), s.seen);
    } else {
      AdmissionNamesRevision(w.db, DeploymentOf(s.call), s.headers, BodyOf(s.call), s.seen, s.environment);
    }
    match s.call
    case Create(_, _, _, _, _) =>
    case Reconfigure(_, _) =>
    case Remove(_) =>
    case Act(_, _, _) =>
    case FetchLogs(_, _) =>
  }

  lemma ReplayIsNoAcceptance(db: Db, headers: Headers, body: RequestBody, seen: Option<OperationId>)
    ensures
      var early := Replay(db, headers, body, seen);
      && (early.Some? ==> !early.value.Accepted?)
      && (early.None? ==> KeyOf(headers.key).Some? && ValidKey(KeyOf(headers.key).value))
  {
    hide ValidKey;
  }

  /** What `_idempotency_replay` answers when its lookup finds an operation. */
  lemma LookupDecides(w: World, s: Step)
    requires s.Api? && ApiEnabled(w, s)
    requires !s.call.Create? ==> DeploymentOf(s.call) in w.db.deployments
    requires s.seen.Some? && ValidKey(KeyOf(s.headers.key).value)
    ensures
      var found := w.db.operations[s.seen.value].requestHash == BodyOf(s.call);
      Answer(w, s) == ApiResult(w.db, if found then Replayed(s.seen.value) else Problem(IdempotencyConflict))
  {
    hide ValidKey, KeyTaken, Busy, CapturingLogs, Deployed, CheckRevision;
  }

  /**
   A request repeated any time after it was accepted is answered with the operation it created;
   another request under its key is refused. Neither changes a row.
   */
  lemma ReplayAnswers(past: seq<Step>, s: Step, later: seq<Step>, s': Step)
    requires Legal(EMPTY_WORLD, past)
    requires s.Api? && Enabled(Exec(EMPTY_WORLD, past), s) && Answer(Exec(EMPTY_WORLD, past), s).response.Accepted?
    requires Legal(Apply(Exec(EMPTY_WORLD, past), s), later)
    requires
      var w := Exec(Apply(Exec(EMPTY_WORLD, past), s), later);
      && s'.Api? && ApiEnabled(w, s') && s'.seen == Some(s.newId)
      && (!s'.call.Create? ==> DeploymentOf(s'.call) in w.db.deployments)
    ensures
      var w := Exec(Apply(Exec(EMPTY_WORLD, past), s), later);
      Answer(w, s') == ApiResult(
        w.db, if BodyOf(s'.call) == BodyOf(s.call) then Replayed(s.newId) else Problem(IdempotencyConflict))
  {
    hide Perform, ApiEnabled, DbInv, WorkerOk, ValidKey;
    var w0 := Exec(EMPTY_WORLD, past);
    var w1 := Apply(w0, s);
    var w2 := Exec(w1, later);
    ReachedIsSafe(past);
    AcceptedCarriesRequest(w0, s);
    StepIsSafe(w0, s);
    RunIsSafe(w1, later);
    assert OperationAdvances(w1.db.operations[s.newId], w2.db.operations[s.newId], w1.issued);
    LookedUpKey(w2, s');
    LookupDecides(w2, s');
  }

  /** What the deployment shows once the operation of an accepted request has succeeded and is still the newest. */
  predicate CarriedOut(call: ApiCall, deployment: Deployment) {
    var state := deployment.observed;
    match call
    case Create(_, _, _, _, _) => state == Running || state == Degraded
    case Reconfigure(_, _) => state == Running || state == Degraded || state == Stopped
    case Remove(_) => state == Deleted && deployment.deletedAt.Some?
    case Act(_, action, _) =>
      (match action
       case StartAction => state == Running || state == Degraded
       case StopAction => state == Stopped
       case RestartAction => state == Running || state == Degraded
       case ScaleAction(_, _) => state == Running || state == Degraded || state == Stopped)
    case FetchLogs(_, _) => true
  }

  /**
   A start that succeeded and was not superseded shows running or degraded, a stop shows stopped, a
   removal shows deleted, at the generation the request created and whatever happened in between.
   */
  lemma SuccessCarriesOut(past: seq<Step>, s: Step, later: seq<Step>)
    requires Legal(EMPTY_WORLD, past)
    requires s.Api? && Enabled(Exec(EMPTY_WORLD, past), s) && Answer(Exec(EMPTY_WORLD, past), s).response.Accepted?
    requires Legal(Apply(Exec(EMPTY_WORLD, past), s), later)
    ensures
      var db := Exec(Apply(Exec(EMPTY_WORLD, past), s), later).db;
      && References(db, s.newId)
      && var op := db.operations[s.newId];
      && var deployment := db.deployments[op.deployment];
      && (!s.call.Create? ==> op.deployment == DeploymentOf(s.call))
      && (!s.call.FetchLogs? && op.status == OpSucceeded && op.target == deployment.generation ==>
           CarriedOut(s.call, deployment) && deployment.observedGeneration == op.target)
  {
    hide Perform, ApiEnabled, DbInv, WorkerOk, ValidKey, CarriedOut, RequestOk, TombstoneOk, LeaseOk, IdentityOk;
    var w0 := Exec(EMPTY_WORLD, past);
    var w1 := Apply(w0, s);
    var w2 := Exec(w1, later);
    ReachedIsSafe(past);
    AcceptedCarriesRequest(w0, s);
    StepIsSafe(w0, s);
    RunIsSafe(w1, later);
    assert OperationAdvances(w1.db.operations[s.newId], w2.db.operations[s.newId], w1.issued);
    ReferencesHold(w2.db, w2.issued, s.newId);
    var op := w2.db.operations[s.newId];
    CreatesWithBody(w0, s);
    SuccessShows(s.call, op, w2.db.deployments[op.deployment]);
  }

  lemma SuccessShows(call: ApiCall, op: Operation, deployment: Deployment)
    requires call.Create? ==> call.body.CreateBody?
    requires op.requestHash == BodyOf(call) && RequestOk(op, deployment) && TombstoneOk(deployment)
    ensures !call.Create? ==> op.deployment == DeploymentOf(call)
    ensures !call.FetchLogs? && op.status == OpSucceeded && op.target == deployment.generation ==>
      CarriedOut(call, deployment) && deployment.observedGeneration == op.target
  {
  }

  lemma CreatesWithBody(w: World, s: Step)
    requires s.Api? && ApiEnabled(w, s)
    ensures s.call.Create? ==> s.call.body.CreateBody?
  {
  }

  lemma LookedUpKey(w: World, s: Step)
    requires s.Api? && ApiEnabled(w, s) && s.seen.Some?
    ensures s.seen.value in w.db.operations && KeyOf(s.headers.key) == Some(w.db.operations[s.seen.value].key)
  {
  }

  // ----- releases -----

  lemma AcceptedCreation(w: World, s: Step)
    requires s.Api? && ApiEnabled(w, s) && s.call.Create? && Answer(w, s).response.Accepted?
    ensures s.call.release.Ok? && s.call.newDeployment in Answer(w, s).db.deployments
    ensures
      var deployment, release := Answer(w, s).db.deployments[s.call.newDeployment], s.call.release.value;
      && deployment.release == release.id && deployment.components.Keys == release.images.Keys
      && forall slug :: slug in release.images ==> deployment.components[slug].imageDigest == release.images[slug]
  {
    hide KeyTaken, Deployed, CheckRevision, Replay;
    ReplayIsNoAcceptance(w.db, s.headers, BodyOf(s.call), s.seen);
  }

  /** In every state after its creation a deployment has exactly the components and images of its release. */
  lemma ReleaseIsFixed(past: seq<Step>, s: Step, later: seq<Step>)
    requires Legal(EMPTY_WORLD, past)
    requires s.Api? && Enabled(Exec(EMPTY_WORLD, past), s) && s.call.Create?
    requires Answer(Exec(EMPTY_WORLD, past), s).response.Accepted?
    requires Legal(Apply(Exec(EMPTY_WORLD, past), s), later)
    ensures s.call.release.Ok?
    ensures
      var deployments := Exec(Apply(Exec(EMPTY_WORLD, past), s), later).db.deployments;
      var release := s.call.release.value;
      && s.call.newDeployment in deployments
      && var deployment := deployments[s.call.newDeployment];
      && deployment.release == release.id && deployment.components.Keys == release.images.Keys
      && forall slug :: slug in release.images ==> deployment.components[slug].imageDigest == release.images[slug]
  {
    hide Perform, ApiEnabled, DbInv, WorkerOk;
    var w0 := Exec(EMPTY_WORLD, past);
    var w1 := Apply(w0, s);
    var id := s.call.newDeployment;
    ReachedIsSafe(past);
    AcceptedCreation(w0, s);
    StepIsSafe(w0, s);
    RunIsSafe(w1, later);
    assert DeploymentAdvances(w1.db.deployments[id], Exec(w1, later).db.deployments[id], id);
  }

  // ----- observability -----

  /** The rows `collect_runtime_worker_snapshot` counts as stale leases. */
  function StaleLeases(operations: map<OperationId, Operation>, now: Time): set<OperationId> {
    set o | o in operations && operations[o].status == OpRunning
            && ((operations[o].leaseExpiresAt.Some? && operations[o].leaseExpiresAt.value <= now)
                || (operations[o].leaseExpiresAt.None? && Due(operations[o], now)))
  }

  function ReclaimableOperations(operations: map<OperationId, Operation>, now: Time): set<OperationId> {
    set o | o in operations && operations[o].status == OpRunning && Claimable(operations[o], now)
  }

  /** The metric counts exactly the running operations a worker could claim at that instant. */
  lemma StaleLeaseMetric(past: seq<Step>, now: Time)
    requires Legal(EMPTY_WORLD, past)
    ensures
      var operations := Exec(EMPTY_WORLD, past).db.operations;
      && StaleLeases(operations, now) == ReclaimableOperations(operations, now)
      && |StaleLeases(operations, now)| == |ReclaimableOperations(operations, now)|
  {
    hide Enabled, Apply;
    ReachedIsSafe(past);
    var w := Exec(EMPTY_WORLD, past);
    forall o | o in w.db.operations ensures LeaseOk(w.db.operations[o], w.issued) {
      assert OperationOk(w.db, w.issued, o);
    }
    assert StaleLeases(w.db.operations, now) == ReclaimableOperations(w.db.operations, now);
  }
}
