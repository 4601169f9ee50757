/**
 A deployment that the controller reports as deleted although it was to run: its row keeps the
 deletion time and shows `failed`. Every creation can end that way.
 */
module RuntimeTombstones {
  import opened Wrappers
  import opened RuntimeModel
  import opened Controller
  import opened Preconditions
  import opened WorkerTransactions
  import opened ApiTransactions
  import opened RuntimeProtocol
  import opened RuntimeProgress

  const ENVIRONMENT := Environment(true, true, true, true, true, LogsUnsupported)

  function Creation(id: DeploymentId, key: string, body: RequestBody, release: Release, verdict: Validated): Step {
    Api(Create(body, 1, Ok(release), Some(verdict), id), Headers(Some(key), Some(Etag(1))), None, ENVIRONMENT, 0, 0)
  }

  predicate Creatable(id: DeploymentId, key: string, body: RequestBody, release: Release, verdict: Validated) {
    && IsUuid(id) && key != "" && ValidKey(Strip(key)) && body.CreateBody?
    && release.images.Keys <= verdict.scaling.Keys
  }

  function CreatedOperation(id: DeploymentId, key: string, body: RequestBody, release: Release, verdict: Validated): Operation
    requires Creatable(id, key, body, release, verdict)
  {
    NewOperation(id, NewDeployment(body, release, verdict), Deploy, DesiredPayload(WantRunning), Strip(key), body, 0)
  }

  lemma CreationIsAccepted(id: DeploymentId, key: string, body: RequestBody, release: Release, verdict: Validated)
    requires Creatable(id, key, body, release, verdict)
    ensures
      var s := Creation(id, key, body, release, verdict);
      && Enabled(EMPTY_WORLD, s)
      && Apply(EMPTY_WORLD, s) == World(
           Db(map[id := NewDeployment(body, release, verdict)], map[0 := CreatedOperation(id, key, body, release, verdict)]),
           map[], {}, 0)
  {
    hide IsUuid, ValidKey, Strip, NewDeployment, CheckRevision;
    EtagRoundTrip(1, 1);
  }

  /** The reply that reports generation 1 as deleted, without any component. */
  function DeletedReply(id: DeploymentId): Reply {
    Replied(RawSnapshot(Text(id), Text("deleted"), Missing, Number(1), Items([])))
  }

  function DeletedSnapshot(id: DeploymentId): Snapshot {
    Snapshot(id, Deleted, "", 1, [])
  }

  lemma ReplyIsAccepted(id: DeploymentId)
    requires IsUuid(id)
    ensures Interpret(DeployCall(id), DeletedReply(id)) == GotSnapshot(DeletedSnapshot(id))
  {
    UuidIsIdentifier(id);
    hide IsUuid;
  }

  lemma DeletionIsUnwanted(op: Operation, deployment: Deployment, id: DeploymentId, now: Time)
    requires op.payload == DesiredPayload(WantRunning) && op.target == 1 && deployment.observedGeneration <= 1
    ensures
      var r := Observation(op, deployment, op, DeletedSnapshot(id), now);
      && r.Ok? && r.value.operation.status == OpFailed && r.value.operation.deployment == op.deployment
      && r.value.deployment.deletedAt == Some(now) && r.value.deployment.observed == Failed
      && r.value.deployment.desired == deployment.desired
  {
  }

  /** A deployment of generation 1 whose first operation is queued. */
  predicate JustCreated(id: DeploymentId, deployment: Deployment, op: Operation) {
    && deployment.generation == 1 && deployment.observedGeneration == 0 && deployment.desired == WantRunning
    && op.deployment == id && op.kind == Deploy && op.status == OpQueued && op.result == NoResult
    && op.payload == DesiredPayload(WantRunning) && op.target == 1 && op.attempts == 0 && op.nextAttemptAt.None?
  }

  function Queued(id: DeploymentId, deployment: Deployment, op: Operation): World {
    World(Db(map[id := deployment], map[0 := op]), map[], {}, 0)
  }

  lemma DeletionIsHeard(id: DeploymentId, deployment: Deployment, op: Operation) returns (steps: seq<Step>)
    requires IsUuid(id) && JustCreated(id, deployment, op)
    ensures Legal(Queued(id, deployment, op), steps)
    ensures
      var leased := Leased(op, 0, 0);
      Exec(Queued(id, deployment, op), steps) == World(
        Db(map[id := deployment], map[0 := leased]),
        map[0 := Worker(0, 0, Ready(View(leased, deployment), GotSnapshot(DeletedSnapshot(id))))], {0}, 0)
  {
    hide Interpret, IsUuid, Legal, Exec, Record;
    var w, reply := Queued(id, deployment, op), DeletedReply(id);
    ReplyIsAccepted(id);
    StartsLegal(w);
    NextStep(w, [], ClaimNext(0, 0, 0));
    steps := [] + [ClaimNext(0, 0, 0)];
    NextStep(w, steps, Load(0));
    steps := steps + [Load(0)];
    NextStep(w, steps, Respond(0, reply, reply));
    steps := steps + [Respond(0, reply, reply)];
  }

  lemma DeletionIsRecorded(id: DeploymentId, deployment: Deployment, op: Operation) returns (steps: seq<Step>)
    requires IsUuid(id) && JustCreated(id, deployment, op)
    ensures Legal(Queued(id, deployment, op), steps)
    ensures
      var deployments := Exec(Queued(id, deployment, op), steps).db.deployments;
      id in deployments && deployments[id].deletedAt.Some? && deployments[id].observed == Failed
      && deployments[id].desired == WantRunning
  {
    hide IsUuid, Legal, Exec, Observation;
    steps := DeletionIsHeard(id, deployment, op);
    DeletionIsUnwanted(Leased(op, 0, 0), deployment, id, 0);
    NextStep(Queued(id, deployment, op), steps, Recording(0, 0));
    steps := steps + [Recording(0, 0)];
  }

  /** For every creation there is a run in which its deployment ends deleted, failed and wanted. */
  lemma FailedTombstone(id: DeploymentId, key: string, body: RequestBody, release: Release, verdict: Validated)
    requires Creatable(id, key, body, release, verdict)
    ensures exists past ::
      && Legal(EMPTY_WORLD, past)
      && id in Exec(EMPTY_WORLD, past).db.deployments
      && var deployment := Exec(EMPTY_WORLD, past).db.deployments[id];
      deployment.deletedAt.Some? && deployment.observed == Failed && deployment.desired == WantRunning
  {
    hide Legal, Exec, Enabled, Apply, IsUuid, ValidKey;
    var create := Creation(id, key, body, release, verdict);
    CreationIsAccepted(id, key, body, release, verdict);
    StartsLegal(EMPTY_WORLD);
    NextStep(EMPTY_WORLD, [], create);
    var rest := DeletionIsRecorded(
      id, NewDeployment(body, release, verdict), CreatedOperation(id, key, body, release, verdict));
    LegalCompose(EMPTY_WORLD, [] + [create], rest);
  }
}
