/**
 The transactions as the worker and the views perform them: rows are loaded, rewritten
 column by column and saved one at a time, and an exception restores the tables. Each method
 has the effect of the protocol's transaction, keeps the joint invariant of the tables and only
 moves them forward.
 */
module RuntimeStore {
  import opened Wrappers
  import opened RuntimeModel
  import opened Controller
  import opened ComponentSync
  import opened Preconditions
  import Worker = WorkerTransactions
  import opened WorkerTransactions
  import opened ApiTransactions
  import RuntimeInvariant
  import RuntimeSafety
  import ApiSafety
  import RecordingEffects

  /** `_sync_component_scaling`: one row after the other; `None` when a component has no policy. */
  method SyncComponentScaling(components: map<string, Component>, scaling: map<string, ScalingPolicy>)
    returns (r: Option<map<string, Component>>)
    ensures r.Some? <==> components.Keys <= scaling.Keys
    ensures r.Some? ==> r.value == Rescaled(components, scaling)
  {
    var saved := components;
    var pending := components.Keys;
    while pending != {}
      invariant pending <= components.Keys == saved.Keys
      invariant components.Keys - pending <= scaling.Keys
      invariant forall slug :: slug in pending ==> saved[slug] == components[slug]
      invariant forall slug :: slug in components && slug !in pending ==>
        saved[slug] == components[slug].(desiredReplicas := Replicas(scaling[slug]))
      decreases pending
    {
      var slug :| slug in pending;
      if slug !in scaling { return None; }
      saved := saved[slug := saved[slug].(desiredReplicas := Replicas(scaling[slug]))];
      pending := pending - {slug};
    }
    assert saved == Rescaled(components, scaling);
    return Some(saved);
  }

  /** `_create_components`: one row per module of the release; `None` when a module has no policy. */
  method CreateComponents(images: map<string, string>, scaling: map<string, ScalingPolicy>)
    returns (r: Option<map<string, Component>>)
    ensures r.Some? <==> images.Keys <= scaling.Keys
    ensures r.Some? ==> r.value == NewComponents(images, scaling)
  {
    var rows: map<string, Component> := map[];
    var pending := images.Keys;
    while pending != {}
      invariant pending <= images.Keys
      invariant rows.Keys == images.Keys - pending
      invariant rows.Keys <= scaling.Keys
      invariant forall slug :: slug in rows ==> rows[slug] == NewComponent(images[slug], scaling[slug])
      decreases pending
    {
      var slug :| slug in pending;
      if slug !in scaling { return None; }
      rows := rows[slug := NewComponent(images[slug], scaling[slug])];
      pending := pending - {slug};
    }
    assert rows == NewComponents(images, scaling);
    return Some(rows);
  }

  /** The columns an action rewrites before the generation is raised. */
  method ApplyAction(row: Deployment, action: Action, verdict: Option<map<string, ScalingPolicy>>)
    returns (r: Result<Deployment, Code>)
    ensures r == Acted(row, action, verdict)
  {
    var locked := row;
    match action {
      case StartAction => locked := locked.(desired := WantRunning);
      case StopAction => locked := locked.(desired := WantStopped);
      case RestartAction =>
      case ScaleAction(slug, replicas) =>
        if slug !in locked.components { return Err(ComponentNotFound); }
        if verdict.None? { return Err(InvalidScaling); }
        locked := locked.(scaling := verdict.value);
        var component := locked.components[slug].(desiredReplicas := replicas);
        locked := locked.(components := locked.components[slug := component]);
    }
    return Ok(locked);
  }

  class RuntimeStore {
    var deployments: map<DeploymentId, Deployment>
    var operations: map<OperationId, Operation>

    /** Every lease token ever drawn. */
    ghost var issued: set<LeaseToken>

    ghost function Tables(): Db
      reads this
    {
      Db(deployments, operations)
    }

    /** The joint invariant of both tables. */
    ghost predicate Valid()
      reads this
    {
      RuntimeInvariant.DbInv(Tables(), issued)
    }

    constructor ()
      ensures Tables() == EMPTY_DB && issued == {} && Valid()
    {
      deployments := map[];
      operations := map[];
      issued := {};
    }

    // ----- worker -----

    /** Saving the incremented attempts raises when they no longer fit their column. */
    method ClaimNext(token: LeaseToken, now: Time) returns (claimed: Result<Option<OperationId>, Fault>)
      requires Valid() && token !in issued
      modifies `operations, `issued
      ensures Valid() && RuntimeSafety.Advances(old(Tables()), Tables(), old(issued))
      ensures claimed != Ok(None) || forall o :: o in old(operations) ==> !Claimable(old(operations)[o], now)
      ensures claimed.Ok? && claimed.value.Some? ==>
        && IsNext(old(operations), now, claimed.value.value) && Countable(old(operations)[claimed.value.value])
        && Tables() == Worker.Claim(old(Tables()), claimed.value.value, token, now)
        && issued == old(issued) + {token}
      ensures claimed.Err? ==> exists o :: IsNext(old(operations), now, o) && !Countable(old(operations)[o])
      ensures claimed.Err? || claimed.value.None? ==> Tables() == old(Tables()) && issued == old(issued)
    {
      hide RuntimeInvariant.DbInv, RuntimeSafety.Advances;
      var candidates := set o | o in operations && Claimable(operations[o], now);
      RuntimeSafety.StillAdvances(Tables(), issued);
      if candidates == {} {
        assert forall o :: o in operations && Claimable(operations[o], now) ==> o in candidates;
        return Ok(None);
      }
      ghost var next := SomeRowIsNext(operations, now, candidates);
      var id :| id in candidates && forall o :: o in candidates ==> operations[id].requestedAt <= operations[o].requestedAt;
      assert IsNext(operations, now, id);
      if !Countable(operations[id]) { return Err(StoreFault); }
      RuntimeSafety.ClaimIsSafe(Tables(), issued, id, token, now);
      var operation := operations[id];
      operation := operation.(status := OpRunning);
      if operation.startedAt.None? { operation := operation.(startedAt := Some(now)); }
      operation := operation.(attempts := operation.attempts + 1);
      operation := operation.(leaseToken := Some(token));
      operation := operation.(leaseExpiresAt := Some(now + LEASE));
      operation := operation.(nextAttemptAt := None);
      operations := operations[id := operation];
      issued := issued + {token};
      return Ok(Some(id));
    }

    /** `read` is the row as the worker read it, and the client has bound the snapshot to its deployment. */
    method RecordSnapshot(id: OperationId, token: LeaseToken, read: Operation, snapshot: Snapshot, now: Time)
      returns (fault: Option<Fault>)
      requires References(Tables(), id) && DistinctSlugs(snapshot.components)
      requires Valid() && SameRequest(read, operations[id])
      requires RuntimeInvariant.OutcomeOk(GotSnapshot(snapshot), operations[id])
      modifies `deployments, `operations
      ensures
        match Worker.RecordSnapshot(old(Tables()), id, token, read, snapshot, now)
        case Ok(db) => Tables() == db && fault == None
        case Err(raised) => Tables() == old(Tables()) && fault == Some(raised)
      ensures Valid() && RuntimeSafety.Advances(old(Tables()), Tables(), old(issued))
      ensures old(Holds(Tables(), id, token)) && fault.None? ==>
        RecordingEffects.Shown(old(Tables()), Tables(), id, snapshot, now)
      ensures !old(Holds(Tables(), id, token)) ==> Tables() == old(Tables()) && fault == None
    {
      hide Sync, RuntimeInvariant.DbInv, RuntimeSafety.Advances, RecordingEffects.Shown, RecordingEffects.ReportsFit, RecordingEffects.Ends;
      if Holds(Tables(), id, token) {
        RecordingEffects.SnapshotIsShown(Tables(), issued, id, token, read, snapshot, now);
      }
      RuntimeSafety.RecordIsSafe(Tables(), issued, id, token, read, GotSnapshot(snapshot), now);
      RuntimeSafety.StillAdvances(Tables(), issued);
      var locked := operations[id];
      if locked.leaseToken != Some(token) { return None; }
      var deployment := deployments[locked.deployment];
      if !ValidGeneration(deployment, snapshot, locked.target) { return Some(ControllerFault); }
      if Transitional(snapshot.state) || WaitingForGeneration(locked, snapshot) {
        var checked := ApplyComponents(deployment.components, snapshot, false);
        if checked.Err? { return Some(checked.error); }
        deployment := deployment.(controllerId := snapshot.controllerId);
        deployment := deployment.(revision := deployment.revision + 1, lastReconciledAt := Some(now));
        deployments := deployments[locked.deployment := deployment];
        if now - StartOf(locked) >= MAX_RECONCILIATION_AGE {
          deployment := deployment.(observed := Failed, lastError := TIMEOUT_DETAIL);
          deployments := deployments[locked.deployment := deployment];
          locked := locked.(status := OpFailed,
                            error := Some(OperationError("runtime_reconciliation_timeout", true)),
                            finishedAt := Some(now),
                            nextAttemptAt := None);
        } else {
          locked := locked.(status := OpRunning, result := Dispatched, nextAttemptAt := Some(now + POLL_DELAY));
        }
        operations := operations[id := Released(locked)];
        return None;
      }
      var before := deployments;
      var concluded := Concluded(deployment, snapshot, now);
      deployments := deployments[locked.deployment := concluded];
      var rows := ApplyComponents(concluded.components, snapshot, true);
      if rows.Err? {
        deployments := before;
        return Some(rows.error);
      }
      concluded := concluded.(components := rows.value);
      var unexpected := TerminalStateError(read, deployment, snapshot.state);
      if Inconclusive(snapshot.state) || unexpected {
        locked := locked.(status := OpFailed,
                          error := Some(OperationError("runtime_reconciliation_failed", true)));
        if unexpected { concluded := concluded.(observed := Failed, lastError := TERMINAL_STATE_DETAIL); }
      } else {
        locked := locked.(status := OpSucceeded,
                          result := Reconciled(snapshot.state, snapshot.observedGeneration),
                          error := None);
      }
      locked := locked.(finishedAt := Some(now), nextAttemptAt := None);
      deployments := before[locked.deployment := concluded];
      operations := operations[id := Released(locked)];
      return None;
    }

    method CompleteLogs(id: OperationId, token: LeaseToken, now: Time)
      requires id in operations
      requires Valid() && References(Tables(), id) && operations[id].kind == LogSnapshot
      modifies `operations
      ensures Tables() == Worker.CompleteLogs(old(Tables()), id, token, now)
      ensures Valid() && RuntimeSafety.Advances(old(Tables()), Tables(), old(issued))
    {
      hide RuntimeInvariant.DbInv, RuntimeSafety.Advances;
      RuntimeSafety.RecordIsSafe(Tables(), issued, id, token, operations[id], GotLogs, now);
      var locked := operations[id];
      if locked.leaseToken != Some(token) { return; }
      locked := locked.(status := OpSucceeded, result := LogCaptured, error := None, finishedAt := Some(now));
      operations := operations[id := Released(locked)];
    }

    method RecordControllerFailure(id: OperationId, token: LeaseToken, error: ControllerError, now: Time)
      requires References(Tables(), id)
      requires Valid()
      modifies `deployments, `operations
      ensures Tables() == Worker.RecordControllerFailure(old(Tables()), id, token, error, now)
      ensures Valid() && RuntimeSafety.Advances(old(Tables()), Tables(), old(issued))
      ensures old(Holds(Tables(), id, token)) ==> RuntimeSafety.RetriedOrFailed(old(Tables()), Tables(), id, error, now)
      ensures !old(Holds(Tables(), id, token)) ==> Tables() == old(Tables())
    {
      hide RuntimeInvariant.DbInv, RuntimeSafety.Advances, RuntimeSafety.RetriedOrFailed;
      RuntimeSafety.RecordIsSafe(Tables(), issued, id, token, operations[id], ControllerFailed(error), now);
      if Holds(Tables(), id, token) { RuntimeSafety.FailureIsRecorded(Tables(), id, token, error, now); }
      var locked := operations[id];
      if locked.leaseToken != Some(token) { return; }
      locked := locked.(failures := locked.failures + 1);
      if Retryable(error) && locked.failures < MAX_CONTROLLER_FAILURES {
        locked := locked.(status := OpQueued, nextAttemptAt := Some(now + Backoff(locked.attempts)));
        operations := operations[id := Released(locked)];
        return;
      }
      locked := locked.(status := OpFailed,
                        error := Some(OperationError("runtime_controller_error", Retryable(error))),
                        finishedAt := Some(now));
      operations := operations[id := Released(locked)];
      if locked.kind != LogSnapshot { FailDeployment(locked.deployment, Prefix(error.detail, 500)); }
    }

    method RecordUnexpectedFailure(id: OperationId, token: LeaseToken, now: Time)
      requires References(Tables(), id)
      requires Valid()
      modifies `deployments, `operations
      ensures Tables() == Worker.RecordUnexpectedFailure(old(Tables()), id, token, now)
      ensures Valid() && RuntimeSafety.Advances(old(Tables()), Tables(), old(issued))
      ensures !old(Holds(Tables(), id, token)) ==> Tables() == old(Tables())
      ensures old(Holds(Tables(), id, token)) ==>
        && operations == old(operations)[id := old(operations)[id].(
             status := OpFailed, error := Some(OperationError("runtime_worker_error", true)), finishedAt := Some(now),
             leaseToken := None, leaseExpiresAt := None)]
        && RuntimeSafety.FailsDeployment(old(Tables()), Tables(), old(operations)[id], UNEXPECTED_DETAIL)
    {
      hide RuntimeInvariant.DbInv, RuntimeSafety.Advances;
      RuntimeSafety.RecordIsSafe(Tables(), issued, id, token, operations[id], WorkerFailed, now);
      var locked := operations[id];
      if locked.leaseToken != Some(token) { return; }
      locked := locked.(status := OpFailed,
                        error := Some(OperationError("runtime_worker_error", true)),
                        finishedAt := Some(now));
      operations := operations[id := Released(locked)];
      if locked.kind != LogSnapshot { FailDeployment(locked.deployment, UNEXPECTED_DETAIL); }
    }

    method FailDeployment(id: DeploymentId, detail: string)
      requires id in deployments
      modifies this`deployments
      ensures
        var before := old(deployments)[id];
        deployments == old(deployments)[id := FailedDeployment(before, detail).(revision := before.revision + 1)]
    {
      var deployment := deployments[id];
      deployment := deployment.(observed := Failed);
      deployment := deployment.(lastError := detail);
      deployment := deployment.(revision := deployment.revision + 1);
      deployments := deployments[id := deployment];
    }

    // ----- admin API -----

    /** `_create_operation`; `before` are the deployment rows to restore when the key is already taken. */
    method CreateOperation(before: map<DeploymentId, Deployment>, id: DeploymentId, deployment: Deployment,
                           newId: OperationId, kind: OperationKind, payload: Payload, headers: Headers, body: RequestBody, now: Time)
      returns (response: Response)
      requires KeyOf(headers.key).Some?
      requires deployments == before[id := deployment]
      modifies `deployments, `operations
      ensures ApiResult(Tables(), response) ==
        Enqueue(Db(before, old(operations)), id, deployment, newId, kind, payload, headers, body, now)
    {
      hide KeyTaken, KeyOf;
      var operation := NewOperation(id, deployment, kind, payload, KeyOf(headers.key).value, body, now);
      if KeyTaken(operations, operation.key) {
        deployments := before;
        return Problem(IdempotencyConflict);
      }
      operations := operations[newId := operation];
      return Accepted(newId);
    }

    method Create(body: RequestBody, applicationRevision: nat, release: Result<Release, Code>,
                  verdict: Option<Validated>, headers: Headers, seen: Option<OperationId>, environment: Environment,
                  newDeployment: DeploymentId, newId: OperationId, now: Time) returns (response: Response)
      requires body.CreateBody? && newDeployment !in deployments
      requires Valid() && IsUuid(newDeployment) && newId !in operations
      modifies `deployments, `operations
      ensures ApiResult(Tables(), response) ==
        CreateDeployment(old(Tables()), body, applicationRevision, release, verdict, headers, seen, environment,
                         newDeployment, newId, now)
      ensures Valid() && RuntimeSafety.Advances(old(Tables()), Tables(), old(issued))
    {
      hide Enqueue, Deployed, CheckRevision, RuntimeInvariant.DbInv, RuntimeSafety.Advances;
      ApiSafety.CreateIsSafe(Tables(), issued, body, applicationRevision, release, verdict, headers, seen, environment,
                             newDeployment, newId, now);
      var replay := Replay(Db(deployments, operations), headers, body, seen);
      if replay.Some? { return replay.value; }
      if !environment.runtimeEnabled { return Problem(BackendUnavailable); }
      var precondition := CheckRevision(headers.ifMatch, applicationRevision);
      if precondition.Refused? { return Problem(precondition.code); }
      if Deployed(Db(deployments, operations), body.application, body.environment) {
        return Problem(DeploymentExists);
      }
      if release.Err? { return Problem(release.error); }
      if verdict.None? { return Problem(InvalidRequest); }
      var before := deployments;
      var deployment := Deployment(body.application, body.environment, release.value.id, WantRunning, Pending, "",
                                   verdict.value.configuration, verdict.value.secretRefs, verdict.value.scaling,
                                   1, 0, 1, "", None, None, map[]);
      deployments := deployments[newDeployment := deployment];
      var rows := CreateComponents(release.value.images, verdict.value.scaling);
      if rows.None? {
        deployments := before;
        return Problem(ServerError);
      }
      deployment := deployment.(components := rows.value);
      deployments := before[newDeployment := deployment];
      response := CreateOperation(before, newDeployment, deployment, newId, Deploy, DesiredPayload(deployment.desired),
                                  headers, body, now);
    }

    method Configure(id: DeploymentId, changes: Changes, headers: Headers, seen: Option<OperationId>,
                     environment: Environment, newId: OperationId, now: Time) returns (response: Response)
      requires Valid() && newId !in operations
      modifies `deployments, `operations
      ensures ApiResult(Tables(), response) ==
        ConfigureDeployment(old(Tables()), id, changes, headers, seen, environment, newId, now)
      ensures Valid() && RuntimeSafety.Advances(old(Tables()), Tables(), old(issued))
      ensures ApiSafety.AllOrNothing(old(Tables()), ApiResult(Tables(), response), id, newId)
    {
      hide Admission, Busy, Enqueue, RuntimeInvariant.DbInv, RuntimeSafety.Advances, ApiSafety.AllOrNothing;
      ApiSafety.ConfigureIsSafe(Tables(), issued, id, changes, headers, seen, environment, newId, now);
      var body := ConfigureBody(id, changes);
      var refused := Admission(Db(deployments, operations), id, headers, body, seen, environment);
      if refused.Some? { return refused.value; }
      AdmittedHasKey(Tables(), id, headers, body, seen, environment);
      var locked := deployments[id];
      if !environment.enabled { return Problem(EnvironmentDisabled); }
      if Busy(Db(deployments, operations), id) { return Problem(OperationInProgress); }
      if locked.deletedAt.Some? { return Problem(DeploymentDeleted); }
      if locked.desired == WantAbsent { return Problem(DeploymentDeleting); }
      var before := deployments;
      if changes.configuration.Some? { locked := locked.(configuration := changes.configuration.value); }
      if changes.secretRefs.Some? { locked := locked.(secretRefs := changes.secretRefs.value); }
      if changes.scaling.Some? { locked := locked.(scaling := changes.scaling.value); }
      locked := locked.(generation := locked.generation + 1, revision := locked.revision + 1);
      locked := locked.(observed := Reconciling, lastError := "");
      deployments := deployments[id := locked];
      var rows := SyncComponentScaling(locked.components, locked.scaling);
      if rows.None? {
        deployments := before;
        return Problem(ServerError);
      }
      locked := locked.(components := rows.value);
      deployments := before[id := locked];
      var kind := if locked.controllerId != "" then OperationKind.Configure else Deploy;
      response := CreateOperation(before, id, locked, newId, kind, DesiredPayload(locked.desired), headers, body, now);
    }

    method Destroy(id: DeploymentId, headers: Headers, seen: Option<OperationId>, environment: Environment,
                   newId: OperationId, now: Time) returns (response: Response)
      requires Valid() && newId !in operations
      modifies `deployments, `operations
      ensures ApiResult(Tables(), response) ==
        UndeployDeployment(old(Tables()), id, headers, seen, environment, newId, now)
      ensures Valid() && RuntimeSafety.Advances(old(Tables()), Tables(), old(issued))
      ensures ApiSafety.AllOrNothing(old(Tables()), ApiResult(Tables(), response), id, newId)
    {
      hide Admission, Busy, Enqueue, RuntimeInvariant.DbInv, RuntimeSafety.Advances, ApiSafety.AllOrNothing;
      ApiSafety.UndeployIsSafe(Tables(), issued, id, headers, seen, environment, newId, now);
      var body := UndeployBody(id);
      var refused := Admission(Db(deployments, operations), id, headers, body, seen, environment);
      if refused.Some? { return refused.value; }
      AdmittedHasKey(Tables(), id, headers, body, seen, environment);
      var locked := deployments[id];
      if Busy(Db(deployments, operations), id) { return Problem(OperationInProgress); }
      if locked.deletedAt.Some? { return Problem(DeploymentDeleted); }
      var before := deployments;
      locked := locked.(desired := WantAbsent);
      locked := locked.(observed := Deleting);
      locked := locked.(generation := locked.generation + 1, revision := locked.revision + 1);
      locked := locked.(lastError := "");
      deployments := deployments[id := locked];
      response := CreateOperation(before, id, locked, newId, Undeploy, DesiredPayload(locked.desired), headers, body, now);
    }

    method Actions(id: DeploymentId, action: Action, verdict: Option<map<string, ScalingPolicy>>, headers: Headers,
                   seen: Option<OperationId>, environment: Environment, newId: OperationId, now: Time)
      returns (response: Response)
      requires Valid() && newId !in operations
      modifies `deployments, `operations
      ensures ApiResult(Tables(), response) ==
        ActOnDeployment(old(Tables()), id, action, verdict, headers, seen, environment, newId, now)
      ensures Valid() && RuntimeSafety.Advances(old(Tables()), Tables(), old(issued))
      ensures ApiSafety.AllOrNothing(old(Tables()), ApiResult(Tables(), response), id, newId)
    {
      hide Admission, Busy, CarryOut, Capable, TransitionAllowed, RuntimeInvariant.DbInv, RuntimeSafety.Advances, ApiSafety.AllOrNothing;
      ApiSafety.ActionIsSafe(Tables(), issued, id, action, verdict, headers, seen, environment, newId, now);
      var body := ActionBody(id, action);
      var refused := Admission(Db(deployments, operations), id, headers, body, seen, environment);
      if refused.Some? { return refused.value; }
      AdmittedHasKey(Tables(), id, headers, body, seen, environment);
      var locked := deployments[id];
      if !environment.enabled { return Problem(EnvironmentDisabled); }
      if Busy(Db(deployments, operations), id) { return Problem(OperationInProgress); }
      if !Capable(environment, action) { return Problem(CapabilityUnavailable); }
      if locked.deletedAt.Some? { return Problem(DeploymentDeleted); }
      if !TransitionAllowed(locked.observed, action) { return Problem(InvalidTransition); }
      if locked.controllerId == "" && action != StartAction { return Problem(IdentityUnavailable); }
      response := PerformAction(id, action, verdict, headers, newId, now);
    }

    /** The end of `actions`: the row moves to its next generation and the operation is queued. */
    method PerformAction(id: DeploymentId, action: Action, verdict: Option<map<string, ScalingPolicy>>, headers: Headers,
                         newId: OperationId, now: Time) returns (response: Response)
      requires id in deployments && KeyOf(headers.key).Some?
      modifies `deployments, `operations
      ensures ApiResult(Tables(), response) == CarryOut(old(Tables()), id, action, verdict, headers, newId, now)
    {
      hide Enqueue, ActionKind, Acted, KeyOf;
      var locked := deployments[id];
      var kind := ActionKind(action, locked.controllerId);
      var acted := ApplyAction(locked, action, verdict);
      if acted.Err? { return Problem(acted.error); }
      locked := acted.value;
      var before := deployments;
      locked := locked.(observed := Reconciling);
      locked := locked.(generation := locked.generation + 1, revision := locked.revision + 1);
      locked := locked.(lastError := "");
      deployments := deployments[id := locked];
      response := CreateOperation(before, id, locked, newId, kind, DesiredPayload(locked.desired), headers,
                                  ActionBody(id, action), now);
    }

    method LogRequests(id: DeploymentId, query: LogQuery, headers: Headers, seen: Option<OperationId>,
                       environment: Environment, newId: OperationId, now: Time) returns (response: Response)
      requires Valid() && newId !in operations
      modifies `deployments, `operations
      ensures ApiResult(Tables(), response) ==
        RequestLogs(old(Tables()), id, query, headers, seen, environment, newId, now)
      ensures Valid() && RuntimeSafety.Advances(old(Tables()), Tables(), old(issued))
      ensures deployments == old(deployments)
    {
      hide Admission, CapturingLogs, Enqueue, RuntimeInvariant.DbInv, RuntimeSafety.Advances;
      ApiSafety.LogRequestIsSafe(Tables(), issued, id, query, headers, seen, environment, newId, now);
      var body := LogBody(id, query);
      var refused := Admission(Db(deployments, operations), id, headers, body, seen, environment);
      if refused.Some? { return refused.value; }
      AdmittedHasKey(Tables(), id, headers, body, seen, environment);
      var locked := deployments[id];
      if !environment.enabled { return Problem(EnvironmentDisabled); }
      if CapturingLogs(Db(deployments, operations), id) { return Problem(LogSnapshotInProgress); }
      if locked.controllerId == "" { return Problem(IdentityUnavailable); }
      if Transitional(locked.observed) || locked.observed == Deleted { return Problem(InvalidTransition); }
      if query.component !in locked.components { return Problem(ComponentNotFound); }
      match environment.logs {
        case LogsUnsupported => return Problem(CapabilityUnavailable);
        case LogsInvalid => return Problem(EnvironmentInvalid);
        case MaxLines(limit) =>
          if !(1 <= limit <= 1000) { return Problem(EnvironmentInvalid); }
          if query.tailLines > limit { return Problem(LogLimitExceeded); }
      }
      assert deployments == deployments[id := locked];
      response := CreateOperation(deployments, id, locked, newId, LogSnapshot, LogPayload(query), headers, body, now);
    }
  }

  lemma AdmittedHasKey(db: Db, id: DeploymentId, headers: Headers, body: RequestBody, seen: Option<OperationId>,
                       environment: Environment)
    requires Admission(db, id, headers, body, seen, environment).None?
    ensures id in db.deployments && KeyOf(headers.key).Some?
  {
  }
}
