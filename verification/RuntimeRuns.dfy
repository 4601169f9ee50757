/** The invariant holds in every state of every run, and runs only move the tables forward. */
module RuntimeRuns {
  import opened Wrappers
  import opened RuntimeModel
  import opened Controller
  import opened WorkerTransactions
  import opened ApiTransactions
  import opened RuntimeProtocol
  import opened RuntimeInvariant
  import opened RuntimeSafety
  import opened ApiSafety

  // ----- identity binding -----

  /** What a worker knows of the rows it read. */
  predicate ReadableView(view: View, id: DeploymentId) {
    && id != ""
    && view.operation.deployment == id
    && (Reconciles(view.operation) <==> view.operation.payload.DesiredPayload?)
    && (view.deployment.controllerId == "" || view.deployment.controllerId == id)
    && (NeedsIdentity(view.operation.kind) || view.operation.result == Dispatched ==>
         view.deployment.controllerId == id)
  }

  /** The calls `_execute` makes, for given replies. */
  function Calls(id: DeploymentId, view: View, first: Reply): seq<Call> {
    var call := FirstCall(id, view);
    if call.None? then []
    else if LostUndeploy(view, call.value, Interpret(call.value, first)) then
      [call.value, UndeployCall(UndeployTarget(id, view.deployment))]
    else [call.value]
  }

  lemma FirstCallIsOwn(id: DeploymentId, view: View)
    requires ReadableView(view, id)
    ensures
      var call := FirstCall(id, view);
      call.Some? ==> call.value.id == id && (call.value.LogsCall? <==> view.operation.kind == LogSnapshot)
  {
  }

  /** Every call addresses the deployment's own controller object. */
  lemma CallsAddressOwnObject(id: DeploymentId, view: View, first: Reply, i: nat)
    requires ReadableView(view, id) && i < |Calls(id, view, first)|
    ensures Calls(id, view, first)[i].id == id
  {
    hide Interpret, FirstCall;
    FirstCallIsOwn(id, view);
  }

  /**
   What a call may be, given the request that queued the operation. A DELETE goes out only for a
   request to undeploy, a power action names the action requested, and a status call comes first
   exactly when the operation was dispatched before.
   */
  predicate CallFits(op: Operation, call: Call, i: nat) {
    && (op.result == Dispatched && i == 0 && !op.requestHash.LogBody? ==> call.StatusCall?)
    && match call
       case DeployCall(_) =>
         && op.kind == Deploy && op.payload != DesiredPayload(WantAbsent)
         && (op.requestHash.CreateBody? || op.requestHash.ConfigureBody?
             || (op.requestHash.ActionBody? && op.requestHash.action == StartAction))
       case UpdateCall(_) =>
         && (op.kind == Configure || op.kind == Scale)
         && (op.requestHash.ConfigureBody? || (op.requestHash.ActionBody? && op.requestHash.action.ScaleAction?))
       case ActionCall(_, verb) =>
         && op.requestHash.ActionBody?
         && op.requestHash.action == (match verb case ToStart => StartAction case ToStop => StopAction case ToRestart => RestartAction)
       case UndeployCall(_) => op.requestHash == UndeployBody(op.deployment) && op.payload == DesiredPayload(WantAbsent)
       case StatusCall(_) => op.result == Dispatched && i == 0
       case LogsCall(_, query) => op.requestHash == LogBody(op.deployment, query)
  }

  lemma CallsFit(id: DeploymentId, view: View, first: Reply, i: nat)
    requires AnswersRequest(view.operation) && i < |Calls(id, view, first)|
    ensures CallFits(view.operation, Calls(id, view, first)[i], i)
  {
    hide Interpret;
  }

  /** A second call follows exactly when a dispatched undeployment is unknown to the controller. */
  lemma LostUndeployIsRepeated(id: DeploymentId, view: View, first: Reply)
    requires ReadableView(view, id) && ValidIdentifier(id) && AnswersRequest(view.operation)
    ensures |Calls(id, view, first)| == 2 <==>
      && view.operation.requestHash.UndeployBody? && view.operation.result == Dispatched
      && view.deployment.generation == view.operation.target && first == Rejected(Some(404))
  {
    hide Validate, ValidIdentifier;
  }

  lemma RepliesNameTheirCall(call: Call, reply: Reply)
    requires call.id != ""
    ensures
      var outcome := Interpret(call, reply);
      && (outcome.GotSnapshot? ==>
           && !call.LogsCall?
           && outcome.snapshot.controllerId == call.id
           && DistinctSlugs(outcome.snapshot.components))
      && (outcome.GotLogs? ==> call.LogsCall?)
  {
    hide Validate, ValidIdentifier, ValidLogQuery, DistinctSlugs;
  }

  /** An accepted snapshot names the deployment it was asked about. */
  lemma OutcomesNameDeployment(id: DeploymentId, view: View, first: Reply, second: Reply)
    requires ReadableView(view, id)
    ensures OutcomeOk(Execute(id, view, first, second), view.operation)
  {
    hide FirstCall, Interpret, DistinctSlugs;
    FirstCallIsOwn(id, view);
    var call := FirstCall(id, view);
    if call.Some? {
      RepliesNameTheirCall(call.value, first);
      RepliesNameTheirCall(UndeployCall(id), second);
    }
  }

  // ----- work in flight -----

  lemma WorkerSurvives(db: Db, db': Db, issued: set<LeaseToken>, issued': set<LeaseToken>,
                       token: LeaseToken, worker: Worker)
    requires WorkerOk(db, issued, token, worker) && issued <= issued'
    requires Advances(db, db', issued) && References(db', worker.operation)
    ensures WorkerOk(db', issued', token, worker)
  {
    assert OperationAdvances(db.operations[worker.operation], db'.operations[worker.operation], issued);
    forall o | o in db'.operations && db'.operations[o].leaseToken == Some(token)
      ensures o == worker.operation
    {
      if o in db.operations { assert OperationAdvances(db.operations[o], db'.operations[o], issued); }
    }
  }

  lemma WorkersSurvive(w: World, db': Db, issued': set<LeaseToken>)
    requires Inv(w) && Advances(w.db, db', w.issued) && DbInv(db', issued') && w.issued <= issued'
    ensures forall token :: token in w.workers ==> WorkerOk(db', issued', token, w.workers[token])
  {
    hide DbInv;
    forall token | token in w.workers ensures WorkerOk(db', issued', token, w.workers[token]) {
      assert WorkerOk(w.db, w.issued, token, w.workers[token]);
      ReferencesHold(db', issued', w.workers[token].operation);
      WorkerSurvives(w.db, db', w.issued, issued', token, w.workers[token]);
    }
  }

  lemma ReferencesHold(db: Db, issued: set<LeaseToken>, id: OperationId)
    requires DbInv(db, issued)
    ensures id in db.operations ==> OperationOk(db, issued, id) && DeploymentOk(db, db.operations[id].deployment)
  {
    if id in db.operations { assert OperationOk(db, issued, id); }
  }

  // ----- steps -----

  ghost predicate Safe(w: World, w': World) {
    Inv(w') && Advances(w.db, w'.db, w.issued) && w.issued <= w'.issued && w.clock <= w'.clock
  }

  lemma ClaimedWorker(db: Db, issued: set<LeaseToken>, id: OperationId, token: LeaseToken, now: Time)
    requires DbInv(db, issued) && token !in issued && id in db.operations
    ensures WorkerOk(Claim(db, id, token, now), issued + {token}, token, Worker(id, now, Claimed))
  {
    hide DbInv, DeploymentOk, RequestOk, IdentityOk;
    ReferencesHold(db, issued, id);
    forall o | o in db.operations && o != id ensures db.operations[o].leaseToken != Some(token) {
      ReferencesHold(db, issued, o);
    }
  }

  lemma ClaimStep(w: World, id: OperationId, token: LeaseToken, now: Time)
    requires Inv(w) && Enabled(w, ClaimNext(id, token, now))
    ensures Safe(w, Apply(w, ClaimNext(id, token, now)))
  {
    hide DbInv, Advances, WorkerOk, Claim;
    ClaimIsSafe(w.db, w.issued, id, token, now);
    ClaimedWorker(w.db, w.issued, id, token, now);
    WorkersSurvive(w, Claim(w.db, id, token, now), w.issued + {token});
  }

  lemma LoadedWorker(db: Db, issued: set<LeaseToken>, token: LeaseToken, worker: Worker)
    requires DbInv(db, issued) && WorkerOk(db, issued, token, worker)
    ensures
      var op := db.operations[worker.operation];
      WorkerOk(db, issued, token, worker.(phase := Loaded(View(op, db.deployments[op.deployment]))))
  {
    hide DbInv, IsUuid, Busy, AnswersRequest, OutcomeShown, TombstoneOk, Converged, LeaseOk;
    ReferencesHold(db, issued, worker.operation);
  }

  lemma LoadStep(w: World, token: LeaseToken)
    requires Inv(w) && Enabled(w, Load(token))
    ensures Safe(w, Apply(w, Load(token)))
  {
    hide DbInv, Advances, WorkerOk;
    LoadedWorker(w.db, w.issued, token, w.workers[token]);
    StillAdvances(w.db, w.issued);
  }

  lemma LoadedView(db: Db, issued: set<LeaseToken>, token: LeaseToken, worker: Worker)
    requires DbInv(db, issued) && WorkerOk(db, issued, token, worker) && worker.phase.Loaded?
    ensures ReadableView(worker.phase.view, db.operations[worker.operation].deployment)
    ensures SameRequest(worker.phase.view.operation, db.operations[worker.operation])
  {
    hide DbInv, IsUuid, Busy;
    ReferencesHold(db, issued, worker.operation);
    UuidIsIdentifier(db.operations[worker.operation].deployment);
  }

  lemma ReadiedWorker(db: Db, issued: set<LeaseToken>, token: LeaseToken, worker: Worker, outcome: Outcome)
    requires WorkerOk(db, issued, token, worker) && !worker.phase.Claimed?
    requires OutcomeOk(outcome, db.operations[worker.operation])
    ensures WorkerOk(db, issued, token, worker.(phase := Ready(worker.phase.view, outcome)))
  {
    hide OutcomeOk;
  }

  lemma RespondedWorker(db: Db, issued: set<LeaseToken>, token: LeaseToken, worker: Worker, first: Reply, second: Reply)
    requires DbInv(db, issued) && WorkerOk(db, issued, token, worker) && worker.phase.Loaded?
    ensures
      var view := worker.phase.view;
      var outcome := Execute(view.operation.deployment, view, first, second);
      WorkerOk(db, issued, token, worker.(phase := Ready(view, outcome)))
  {
    var view := worker.phase.view;
    assert References(db, worker.operation);
    hide DbInv, Execute, DistinctSlugs, ReadableView, WorkerOk;
    LoadedView(db, issued, token, worker);
    OutcomesNameDeployment(view.operation.deployment, view, first, second);
    ReadiedWorker(db, issued, token, worker, Execute(view.operation.deployment, view, first, second));
  }

  lemma RespondStep(w: World, token: LeaseToken, first: Reply, second: Reply)
    requires Inv(w) && Enabled(w, Respond(token, first, second))
    ensures Safe(w, Apply(w, Respond(token, first, second)))
  {
    hide DbInv, Advances, WorkerOk, Execute;
    RespondedWorker(w.db, w.issued, token, w.workers[token], first, second);
    StillAdvances(w.db, w.issued);
  }

  lemma ReadyWorker(db: Db, issued: set<LeaseToken>, token: LeaseToken, worker: Worker)
    requires WorkerOk(db, issued, token, worker) && worker.phase.Ready?
    ensures References(db, worker.operation)
    ensures OutcomeOk(worker.phase.outcome, db.operations[worker.operation])
    ensures SameRequest(worker.phase.view.operation, db.operations[worker.operation])
  {
  }

  lemma RecordingStep(w: World, token: LeaseToken, now: Time)
    requires Inv(w) && Enabled(w, Recording(token, now))
    ensures Safe(w, Apply(w, Recording(token, now)))
  {
    hide DbInv, Advances, WorkerOk, Record, SameRequest, DistinctSlugs;
    var worker := w.workers[token];
    var read, outcome := worker.phase.view.operation, worker.phase.outcome;
    ReadyWorker(w.db, w.issued, token, worker);
    RecordIsSafe(w.db, w.issued, worker.operation, token, read, outcome, now);
    match Record(w.db, worker.operation, token, read, outcome, now)
    case Ok(db) => WorkersSurvive(w, db, w.issued);
    case Err(fault) =>
      StillAdvances(w.db, w.issued);
      ReadiedWorker(w.db, w.issued, token, worker, AfterFault(fault));
  }

  lemma ApiStep(w: World, s: Step)
    requires Inv(w) && s.Api? && Enabled(w, s)
    ensures Safe(w, Apply(w, s))
  {
    hide DbInv, Advances, WorkerOk, Perform;
    RequestIsSafe(w, s);
    WorkersSurvive(w, Perform(w.db, s.call, s.headers, s.seen, s.environment, s.newId, s.now).db, w.issued);
  }

  lemma StepIsSafe(w: World, s: Step)
    requires Inv(w) && Enabled(w, s)
    ensures Safe(w, Apply(w, s))
  {
    hide DbInv, Advances, WorkerOk;
    match s
    case Tick(_) => StillAdvances(w.db, w.issued);
    case Api(_, _, _, _, _, _) => ApiStep(w, s);
    case ClaimNext(id, token, now) => ClaimStep(w, id, token, now);
    case Load(token) => LoadStep(w, token);
    case Respond(token, first, second) => RespondStep(w, token, first, second);
    case Recording(token, now) => RecordingStep(w, token, now);
    case Crash(_) => StillAdvances(w.db, w.issued);
  }

  // ----- runs -----

  lemma EmptyWorldIsSafe()
    ensures Inv(EMPTY_WORLD)
  {
  }

  lemma {:induction false} RunIsSafe(w: World, steps: seq<Step>)
    requires Inv(w) && Legal(w, steps)
    ensures Safe(w, Exec(w, steps))
    decreases |steps|
  {
    hide DbInv, Advances, WorkerOk, Enabled, Apply;
    if steps == [] {
      StillAdvances(w.db, w.issued);
    } else {
      var before := steps[..|steps| - 1];
      var mid := Exec(w, before);
      RunIsSafe(w, before);
      StepIsSafe(mid, steps[|steps| - 1]);
      AdvancesTransitively(w.db, mid.db, Exec(w, steps).db, w.issued, mid.issued);
    }
  }
}
