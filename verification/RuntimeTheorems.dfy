/**
 What the runtime protocol guarantees. `past` is any run from the empty database and
 `later` any continuation of it, with any number of workers, crashes, lapsed leases, racing
 requests and controller answers in between.
 */
module RuntimeTheorems {
  import opened Wrappers
  import opened RuntimeModel
  import opened Controller
  import opened WorkerTransactions
  import opened ApiTransactions
  import opened RuntimeProtocol
  import opened RuntimeInvariant
  import opened RuntimeSafety
  import opened RuntimeRuns

  lemma ReachedIsSafe(past: seq<Step>)
    requires Legal(EMPTY_WORLD, past)
    ensures Inv(Exec(EMPTY_WORLD, past))
  {
    EmptyWorldIsSafe();
    RunIsSafe(EMPTY_WORLD, past);
  }

  // ----- convergence -----

  function ReconcilingOperations(db: Db, id: DeploymentId): set<OperationId> {
    set o | o in db.operations && db.operations[o].deployment == id && db.operations[o].kind != LogSnapshot
            && (db.operations[o].status == OpQueued || db.operations[o].status == OpRunning)
  }

  lemma AtMostOneReconciling(db: Db, issued: set<LeaseToken>, id: DeploymentId)
    requires DbInv(db, issued)
    ensures |ReconcilingOperations(db, id)| == if Busy(db, id) then 1 else 0
  {
    hide DeploymentOk, LeaseOk, OutcomeShown, IdentityOk;
    var active := ReconcilingOperations(db, id);
    if Busy(db, id) {
      var o :| o in db.operations && db.operations[o].deployment == id
        && Active(db.operations[o]) && Reconciles(db.operations[o]);
      forall p | p in active ensures p == o {
        assert OperationOk(db, issued, o) && OperationOk(db, issued, p);
      }
      assert active == {o};
    } else {
      assert active == {};
    }
  }

  /** The states that fulfil a wish. */
  predicate Shows(desired: DesiredState, observed: ObservedState) {
    match desired
    case WantRunning => observed == Running || observed == Degraded
    case WantStopped => observed == Stopped
    case WantAbsent => observed == Deleted
  }

  /**
   A deployment is pending, reconciling or deleting exactly while one operation works on
   it, and never two; once idle it has converged, or says failed or unknown.
   */
  lemma Convergence(past: seq<Step>, id: DeploymentId)
    requires Legal(EMPTY_WORLD, past) && id in Exec(EMPTY_WORLD, past).db.deployments
    ensures
      var db := Exec(EMPTY_WORLD, past).db;
      var deployment := db.deployments[id];
      && |ReconcilingOperations(db, id)| <= 1
      && (|ReconcilingOperations(db, id)| == 1 <==>
           deployment.observed == Pending || deployment.observed == Reconciling || deployment.observed == Deleting)
      && (|ReconcilingOperations(db, id)| == 0 ==>
           || deployment.observed == Failed || deployment.observed == Unknown
           || (deployment.observedGeneration == deployment.generation && Shows(deployment.desired, deployment.observed)))
  {
    hide Enabled, Apply;
    ReachedIsSafe(past);
    var w := Exec(EMPTY_WORLD, past);
    assert DeploymentOk(w.db, id);
    AtMostOneReconciling(w.db, w.issued, id);
  }

  /** The status of an operation and the observation of its deployment say the same. */
  predicate Decides(op: Operation, deployment: Deployment) {
    match op.status
    case OpQueued => deployment.observed == Pending || deployment.observed == Reconciling || deployment.observed == Deleting
    case OpRunning => deployment.observed == Pending || deployment.observed == Reconciling || deployment.observed == Deleting
    case OpSucceeded =>
      && deployment.observedGeneration == deployment.generation && Shows(deployment.desired, deployment.observed)
      && op.result == Reconciled(deployment.observed, deployment.observedGeneration)
    case OpFailed => deployment.observed == Failed || deployment.observed == Unknown
  }

  lemma ShownDecides(op: Operation, deployment: Deployment)
    requires OutcomeShown(op, deployment) && Reconciles(op) && op.target == deployment.generation
    ensures Decides(op, deployment)
  {
  }

  /** The newest operation decides: succeeded means converged at its generation, failed means failed or unknown. */
  lemma NewestOperationDecides(past: seq<Step>, o: OperationId)
    requires Legal(EMPTY_WORLD, past) && o in Exec(EMPTY_WORLD, past).db.operations
    ensures
      var db := Exec(EMPTY_WORLD, past).db;
      && References(db, o)
      && var op := db.operations[o];
      && var deployment := db.deployments[op.deployment];
      (Reconciles(op) && op.target == deployment.generation ==>
        op.payload == DesiredPayload(deployment.desired) && Decides(op, deployment))
  {
    hide Enabled, Apply, Decides, OutcomeShown;
    ReachedIsSafe(past);
    var w := Exec(EMPTY_WORLD, past);
    ReferencesHold(w.db, w.issued, o);
    var op := w.db.operations[o];
    if Reconciles(op) && op.target == w.db.deployments[op.deployment].generation {
      ShownDecides(op, w.db.deployments[op.deployment]);
    }
  }

  // ----- generations -----

  /** The reconciling operations of a deployment carry the generations 1, 2, ..., each exactly once. */
  lemma GenerationLedger(past: seq<Step>, id: DeploymentId)
    requires Legal(EMPTY_WORLD, past) && id in Exec(EMPTY_WORLD, past).db.deployments
    ensures
      var db := Exec(EMPTY_WORLD, past).db;
      && (forall g: nat :: 1 <= g <= db.deployments[id].generation <==> HasGeneration(db.operations, id, g))
      && (forall a, b, g: nat | a in db.operations && b in db.operations
            && Carries(db.operations[a], id, g) && Carries(db.operations[b], id, g) :: a == b)
      && (forall o :: o in ReconcilingOperations(db, id) ==> db.operations[o].target == db.deployments[id].generation)
  {
    hide Enabled, Apply;
    ReachedIsSafe(past);
    var w := Exec(EMPTY_WORLD, past);
    forall o | o in w.db.operations ensures OperationOk(w.db, w.issued, o) {
    }
    forall g: nat | HasGeneration(w.db.operations, id, g) ensures 1 <= g <= w.db.deployments[id].generation {
      var o :| o in w.db.operations && Carries(w.db.operations[o], id, g);
      assert OperationOk(w.db, w.issued, o);
    }
  }

  /** The observed generation never falls and never passes the desired one. */
  lemma ObservedGenerationAdvances(past: seq<Step>, later: seq<Step>, id: DeploymentId)
    requires Legal(EMPTY_WORLD, past)
    requires Legal(Exec(EMPTY_WORLD, past), later)
    requires id in Exec(EMPTY_WORLD, past).db.deployments
    ensures
      var before := Exec(EMPTY_WORLD, past).db.deployments[id];
      && id in Exec(Exec(EMPTY_WORLD, past), later).db.deployments
      && var after := Exec(Exec(EMPTY_WORLD, past), later).db.deployments[id];
      && before.observedGeneration <= after.observedGeneration <= after.generation
      && before.generation <= after.generation
      && (before.controllerId == id ==> after.controllerId == id)
  {
    hide Enabled, Apply;
    ReachedIsSafe(past);
    var w := Exec(EMPTY_WORLD, past);
    RunIsSafe(w, later);
    var w' := Exec(w, later);
    assert DeploymentAdvances(w.db.deployments[id], w'.db.deployments[id], id);
    assert DeploymentOk(w.db, id) && DeploymentOk(w'.db, id);
    UuidIsIdentifier(id);
  }

  // ----- leases -----

  lemma SupersededStaysSuperseded(w: World, later: seq<Step>, id: OperationId, token: LeaseToken)
    requires Inv(w) && Legal(w, later)
    requires token in w.issued && id in w.db.operations && !Holds(w.db, id, token)
    ensures id in Exec(w, later).db.operations && !Holds(Exec(w, later).db, id, token)
  {
    hide Enabled, Apply;
    RunIsSafe(w, later);
    assert OperationAdvances(w.db.operations[id], Exec(w, later).db.operations[id], w.issued);
  }

  /** Once a token has lost its lease, no recording made with it ever changes a row again. */
  lemma LeaseFencing(past: seq<Step>, later: seq<Step>, id: OperationId, token: LeaseToken,
                     read: Operation, outcome: Outcome, now: Time)
    requires Legal(EMPTY_WORLD, past)
    requires Legal(Exec(EMPTY_WORLD, past), later)
    requires
      var w := Exec(EMPTY_WORLD, past);
      token in w.issued && id in w.db.operations && !Holds(w.db, id, token)
    ensures
      var db := Exec(Exec(EMPTY_WORLD, past), later).db;
      References(db, id) && Record(db, id, token, read, outcome, now) == Ok(db)
  {
    hide Enabled, Apply;
    ReachedIsSafe(past);
    var w := Exec(EMPTY_WORLD, past);
    SupersededStaysSuperseded(w, later, id, token);
    RunIsSafe(w, later);
    assert OperationOk(Exec(w, later).db, Exec(w, later).issued, id);
  }

  /** A recording that commits gives up its lease. */
  lemma CommitReleases(db: Db, id: OperationId, token: LeaseToken, read: Operation, outcome: Outcome, now: Time)
    requires References(db, id)
    ensures
      var r := Record(db, id, token, read, outcome, now);
      r.Ok? ==> id in r.value.operations && !Holds(r.value, id, token)
  {
  }

  /** One claim commits at most one outcome: after it, the same token records nothing more. */
  lemma OneOutcomePerClaim(past: seq<Step>, later: seq<Step>, token: LeaseToken, now: Time,
                           read: Operation, outcome: Outcome, again: Time)
    requires Legal(EMPTY_WORLD, past)
    requires Enabled(Exec(EMPTY_WORLD, past), Recording(token, now))
    requires
      var w := Exec(EMPTY_WORLD, past);
      var w' := Apply(w, Recording(token, now));
      token !in w'.workers && Legal(w', later)
    ensures
      var w := Exec(EMPTY_WORLD, past);
      var db := Exec(Apply(w, Recording(token, now)), later).db;
      var id := w.workers[token].operation;
      References(db, id) && Record(db, id, token, read, outcome, again) == Ok(db)
  {
    hide DbInv, ViewOk, OutcomeOk, Advances;
    ReachedIsSafe(past);
    var w := Exec(EMPTY_WORLD, past);
    var w' := Apply(w, Recording(token, now));
    StepIsSafe(w, Recording(token, now));
    var worker := w.workers[token];
    assert WorkerOk(w.db, w.issued, token, worker);
    CommitReleases(w.db, worker.operation, token, worker.phase.view.operation, worker.phase.outcome, now);
    SupersededStaysSuperseded(w', later, worker.operation, token);
    RunIsSafe(w', later);
    ReferencesHold(Exec(w', later).db, Exec(w', later).issued, worker.operation);
  }

  /** An operation that succeeded or failed never changes again. */
  lemma TerminalIsFinal(past: seq<Step>, later: seq<Step>, id: OperationId)
    requires Legal(EMPTY_WORLD, past)
    requires Legal(Exec(EMPTY_WORLD, past), later)
    requires
      var db := Exec(EMPTY_WORLD, past).db;
      id in db.operations && !Active(db.operations[id])
    ensures
      var db := Exec(EMPTY_WORLD, past).db;
      var db' := Exec(Exec(EMPTY_WORLD, past), later).db;
      id in db'.operations && db'.operations[id] == db.operations[id]
  {
    hide Enabled, Apply;
    ReachedIsSafe(past);
    RunIsSafe(Exec(EMPTY_WORLD, past), later);
  }

  lemma StaleViewHoldsNothing(db: Db, issued: set<LeaseToken>, token: LeaseToken, worker: Worker)
    requires WorkerOk(db, issued, token, worker) && OperationOk(db, issued, worker.operation)
    requires !worker.phase.Claimed? && FirstCall(worker.phase.view.operation.deployment, worker.phase.view).None?
    ensures worker.operation in db.operations && !Holds(db, worker.operation, token)
    ensures !Active(db.operations[worker.operation])
  {
  }

  /** When a worker finds the generation moved on, its operation has already ended for good, so its failure record is void. */
  lemma StaleGenerationIsHarmless(past: seq<Step>, later: seq<Step>, token: LeaseToken, read: Operation,
                                  outcome: Outcome, now: Time)
    requires Legal(EMPTY_WORLD, past)
    requires Legal(Exec(EMPTY_WORLD, past), later)
    requires
      var w := Exec(EMPTY_WORLD, past);
      && token in w.workers && !w.workers[token].phase.Claimed?
      && var view := w.workers[token].phase.view;
      FirstCall(view.operation.deployment, view).None?
    ensures
      var before := Exec(EMPTY_WORLD, past).db;
      var db := Exec(Exec(EMPTY_WORLD, past), later).db;
      var id := Exec(EMPTY_WORLD, past).workers[token].operation;
      && id in before.operations && !Active(before.operations[id])
      && References(db, id) && db.operations[id] == before.operations[id]
      && Record(db, id, token, read, outcome, now) == Ok(db)
  {
    hide Enabled, Apply, Record, FirstCall, Holds;
    ReachedIsSafe(past);
    var w := Exec(EMPTY_WORLD, past);
    var worker := w.workers[token];
    assert WorkerOk(w.db, w.issued, token, worker);
    assert OperationOk(w.db, w.issued, worker.operation);
    StaleViewHoldsNothing(w.db, w.issued, token, worker);
    TerminalIsFinal(past, later, worker.operation);
    LeaseFencing(past, later, worker.operation, token, read, outcome, now);
  }

  // ----- identity -----

  /** Every call a worker makes carries the id of its own deployment, whatever the controller answered so far. */
  lemma CallsAreAddressed(past: seq<Step>, token: LeaseToken, first: Reply, i: nat)
    requires Legal(EMPTY_WORLD, past)
    requires
      var w := Exec(EMPTY_WORLD, past);
      && token in w.workers && w.workers[token].phase.Loaded?
      && var view := w.workers[token].phase.view;
      i < |Calls(view.operation.deployment, view, first)|
    ensures
      var w := Exec(EMPTY_WORLD, past);
      var view := w.workers[token].phase.view;
      var call := Calls(view.operation.deployment, view, first)[i];
      && call.id == view.operation.deployment
      && view.operation.deployment in w.db.deployments
      && call.id != "" && ValidIdentifier(call.id)
  {
    hide Enabled, Apply;
    ReachedIsSafe(past);
    var w := Exec(EMPTY_WORLD, past);
    var worker := w.workers[token];
    assert WorkerOk(w.db, w.issued, token, worker);
    LoadedView(w.db, w.issued, token, worker);
    ReferencesHold(w.db, w.issued, worker.operation);
    CallsAddressOwnObject(worker.phase.view.operation.deployment, worker.phase.view, first, i);
    UuidIsIdentifier(worker.phase.view.operation.deployment);
  }

  lemma ViewAnswers(db: Db, issued: set<LeaseToken>, token: LeaseToken, worker: Worker, first: Reply)
    requires WorkerOk(db, issued, token, worker) && worker.phase.Loaded? && OperationOk(db, issued, worker.operation)
    ensures
      var view := worker.phase.view;
      && AnswersRequest(view.operation)
      && (Holds(db, worker.operation, token) ==> 1 <= |Calls(view.operation.deployment, view, first)| <= 2)
  {
    hide Interpret, OutcomeShown, IdentityOk;
  }

  /** Every call a worker makes is one that the request behind its operation asked for. */
  lemma CallsFitRequests(past: seq<Step>, token: LeaseToken, first: Reply, i: nat)
    requires Legal(EMPTY_WORLD, past)
    requires
      var w := Exec(EMPTY_WORLD, past);
      && token in w.workers && w.workers[token].phase.Loaded?
      && var view := w.workers[token].phase.view;
      i < |Calls(view.operation.deployment, view, first)|
    ensures
      var view := Exec(EMPTY_WORLD, past).workers[token].phase.view;
      CallFits(view.operation, Calls(view.operation.deployment, view, first)[i], i)
  {
    hide Enabled, Apply, Calls, CallFits, AnswersRequest, DbInv;
    ReachedIsSafe(past);
    var w := Exec(EMPTY_WORLD, past);
    var worker := w.workers[token];
    assert WorkerOk(w.db, w.issued, token, worker);
    ReferencesHold(w.db, w.issued, worker.operation);
    ViewAnswers(w.db, w.issued, token, worker, first);
    CallsFit(worker.phase.view.operation.deployment, worker.phase.view, first, i);
  }

  /** A worker that still holds its lease makes a call. */
  lemma HolderCalls(past: seq<Step>, token: LeaseToken, first: Reply)
    requires Legal(EMPTY_WORLD, past)
    requires
      var w := Exec(EMPTY_WORLD, past);
      && token in w.workers && w.workers[token].phase.Loaded?
      && w.workers[token].operation in w.db.operations && Holds(w.db, w.workers[token].operation, token)
    ensures
      var view := Exec(EMPTY_WORLD, past).workers[token].phase.view;
      1 <= |Calls(view.operation.deployment, view, first)| <= 2
  {
    hide Enabled, Apply, Calls, AnswersRequest, DbInv;
    ReachedIsSafe(past);
    var w := Exec(EMPTY_WORLD, past);
    var worker := w.workers[token];
    assert WorkerOk(w.db, w.issued, token, worker);
    ReferencesHold(w.db, w.issued, worker.operation);
    ViewAnswers(w.db, w.issued, token, worker, first);
  }

  /** The identity column is empty or the row's own id, so it never collides with another row's. */
  lemma IdentityBinding(past: seq<Step>, id: DeploymentId, other: DeploymentId)
    requires Legal(EMPTY_WORLD, past)
    requires id in Exec(EMPTY_WORLD, past).db.deployments && other in Exec(EMPTY_WORLD, past).db.deployments
    ensures
      var deployments := Exec(EMPTY_WORLD, past).db.deployments;
      && (deployments[id].controllerId == "" || deployments[id].controllerId == id)
      && (id != other && deployments[id].controllerId != "" ==>
           deployments[id].controllerId != deployments[other].controllerId)
  {
    hide Enabled, Apply;
    ReachedIsSafe(past);
    var w := Exec(EMPTY_WORLD, past);
    assert DeploymentOk(w.db, id) && DeploymentOk(w.db, other);
  }

  // ----- tombstones -----

  /**
   A row shows `deleted` exactly when it was deleted because that was wanted; a row whose deletion
   was not wanted shows `failed` and keeps its deletion time.
   */
  lemma DeletedExactly(past: seq<Step>, id: DeploymentId)
    requires Legal(EMPTY_WORLD, past) && id in Exec(EMPTY_WORLD, past).db.deployments
    ensures
      var deployment := Exec(EMPTY_WORLD, past).db.deployments[id];
      && (deployment.observed == Deleted <==> deployment.deletedAt.Some? && deployment.desired == WantAbsent)
      && (deployment.deletedAt.Some? && deployment.desired != WantAbsent ==> deployment.observed == Failed)
  {
    hide Enabled, Apply;
    ReachedIsSafe(past);
    var w := Exec(EMPTY_WORLD, past);
    assert DeploymentOk(w.db, id);
    if w.db.deployments[id].observed == Deleted { assert Converged(w.db.deployments[id]); }
  }

  /** A deleted deployment row never changes, and an application has one undeleted deployment per environment. */
  lemma Tombstones(past: seq<Step>, later: seq<Step>, id: DeploymentId)
    requires Legal(EMPTY_WORLD, past)
    requires Legal(Exec(EMPTY_WORLD, past), later)
    requires
      var db := Exec(EMPTY_WORLD, past).db;
      id in db.deployments && db.deployments[id].deletedAt.Some?
    ensures
      var db := Exec(EMPTY_WORLD, past).db;
      var db' := Exec(Exec(EMPTY_WORLD, past), later).db;
      && id in db'.deployments && db'.deployments[id] == db.deployments[id]
      && !Busy(db', id)
      && OnePerEnvironment(db'.deployments)
  {
    hide Enabled, Apply;
    ReachedIsSafe(past);
    var w := Exec(EMPTY_WORLD, past);
    RunIsSafe(w, later);
    assert DeploymentAdvances(w.db.deployments[id], Exec(w, later).db.deployments[id], id);
    assert DeploymentOk(Exec(w, later).db, id);
  }
}
