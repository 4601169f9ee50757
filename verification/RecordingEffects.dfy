/**
 What a recording leaves in the rows, column by column: after a snapshot the deployment and its
 components show what the controller reported, and a failure is retried or ends both rows.
 */
module RecordingEffects {
  import opened Wrappers
  import opened RuntimeModel
  import opened Controller
  import opened ComponentSync
  import opened WorkerTransactions
  import opened RuntimeInvariant
  import opened RuntimeSafety

  // ----- components -----

  /** The component rows show their reports, or retire together after an undeploy that reported none. */
  predicate ComponentsShow(before: map<string, Component>, after: map<string, Component>, snapshot: Snapshot) {
    && after.Keys == before.Keys
    && if snapshot.state == Deleted && snapshot.components == [] then
         forall slug :: slug in before ==>
           after[slug] == Component(before[slug].imageDigest, 0, 0, 0, "deleted", "stopped", before[slug].restartCount, "")
       else
         && (forall slug :: slug in before ==> exists i :: 0 <= i < |snapshot.components| && snapshot.components[i].slug == slug)
         && (forall i :: 0 <= i < |snapshot.components| ==>
              snapshot.components[i].slug in after && after[snapshot.components[i].slug] == snapshot.components[i].report)
  }

  /** The reports fit the rows: the same slugs and images and, to be stored, counts within the 16-bit columns. */
  predicate ReportsFit(rows: map<string, Component>, snapshot: Snapshot, mutate: bool) {
    (snapshot.state == Deleted && snapshot.components == []) ||
    (&& (forall slug :: slug in rows ==> exists i :: 0 <= i < |snapshot.components| && snapshot.components[i].slug == slug)
     && (forall i :: 0 <= i < |snapshot.components| ==>
          var observed := snapshot.components[i];
          && observed.slug in rows && observed.report.imageDigest == rows[observed.slug].imageDigest
          && (mutate ==> observed.report.desiredReplicas <= 32767 && observed.report.readyReplicas <= 32767
                         && observed.report.availableReplicas <= 32767)))
  }

  /** The controller is at fault for a foreign slug or image, the store for a count beyond its columns. */
  lemma FaultIsNamed(rows: map<string, Component>, observed: Observed, mutate: bool)
    ensures FaultAt(rows, observed, mutate) == Some(ControllerFault) <==>
      observed.slug !in rows || rows[observed.slug].imageDigest != observed.report.imageDigest
    ensures FaultAt(rows, observed, mutate) == Some(StoreFault) <==>
      && observed.slug in rows && rows[observed.slug].imageDigest == observed.report.imageDigest && mutate
      && (observed.report.desiredReplicas > 32767 || observed.report.readyReplicas > 32767
          || observed.report.availableReplicas > 32767)
  {
  }

  lemma {:induction false} NoFaultExactly(rows: map<string, Component>, components: seq<Observed>, mutate: bool)
    ensures FirstFault(rows, components, mutate).None? <==>
      forall i :: 0 <= i < |components| ==> FaultAt(rows, components[i], mutate).None?
  {
    if components != [] {
      NoFaultExactly(rows, components[1..], mutate);
      assert forall i :: 0 < i < |components| ==> components[i] == components[1..][i - 1];
      assert forall i :: 0 <= i < |components| - 1 ==> components[1..][i] == components[i + 1];
    }
  }

  lemma SlugsMatch(rows: map<string, Component>, components: seq<Observed>)
    ensures Slugs(components) == rows.Keys <==>
      && (forall slug :: slug in rows ==> exists i :: 0 <= i < |components| && components[i].slug == slug)
      && (forall i :: 0 <= i < |components| ==> components[i].slug in rows)
  {
    if forall i :: 0 <= i < |components| ==> components[i].slug in rows {
      forall slug | slug in Slugs(components) ensures slug in rows {
      }
    }
  }

  /** A snapshot is taken over exactly when its reports fit. */
  lemma SyncAcceptsExactly(rows: map<string, Component>, snapshot: Snapshot, mutate: bool)
    ensures Sync(rows, snapshot, mutate).Ok? <==> ReportsFit(rows, snapshot, mutate)
  {
    NoFaultExactly(rows, snapshot.components, mutate);
    SlugsMatch(rows, snapshot.components);
  }

  lemma SyncShows(rows: map<string, Component>, snapshot: Snapshot)
    requires DistinctSlugs(snapshot.components) && Sync(rows, snapshot, true).Ok?
    ensures ComponentsShow(rows, Sync(rows, snapshot, true).value, snapshot)
  {
    hide DistinctSlugs;
    SyncAcceptsExactly(rows, snapshot, true);
    if !Vanished(snapshot) {
      forall i | 0 <= i < |snapshot.components|
        ensures ReportFor(snapshot.components, snapshot.components[i].slug) == snapshot.components[i].report
      {
        ReportAt(snapshot.components, i);
      }
    }
  }

  // ----- snapshots -----

  /** The snapshot ends the operation instead of leaving it to another poll. */
  predicate Ends(op: Operation, snapshot: Snapshot) {
    match snapshot.state
    case Pending => false
    case Reconciling => false
    case Deleting => false
    case Failed => true
    case Unknown => true
    case Running => snapshot.observedGeneration >= op.target
    case Degraded => snapshot.observedGeneration >= op.target
    case Stopped => snapshot.observedGeneration >= op.target
    case Deleted => snapshot.observedGeneration >= op.target
  }

  /** The reported state is what is wanted. */
  predicate Meets(desired: DesiredState, state: ObservedState) {
    match desired
    case WantRunning => state == Running || state == Degraded
    case WantStopped => state == Stopped
    case WantAbsent => state == Deleted
  }

  /** The rows after a snapshot that ends the operation. */
  predicate ShowsEnd(op: Operation, deployment: Deployment, snapshot: Snapshot, now: Time, rows: Rows) {
    var met, lost := Meets(deployment.desired, snapshot.state), snapshot.state == Failed || snapshot.state == Unknown;
    && rows.deployment == deployment.(
         controllerId := snapshot.controllerId,
         observed := if met || lost then snapshot.state else Failed,
         observedGeneration := snapshot.observedGeneration,
         lastError := if !met && !lost then TERMINAL_STATE_DETAIL
                      else if snapshot.state == Degraded || lost then snapshot.message else "",
         deletedAt := if snapshot.state == Deleted then Some(now) else deployment.deletedAt,
         revision := deployment.revision + 1,
         lastReconciledAt := Some(now),
         components := rows.deployment.components)
    && ComponentsShow(deployment.components, rows.deployment.components, snapshot)
    && rows.operation == op.(
         status := if met then OpSucceeded else OpFailed,
         result := if met then Reconciled(snapshot.state, snapshot.observedGeneration) else op.result,
         error := if met then None else Some(OperationError("runtime_reconciliation_failed", true)),
         finishedAt := Some(now), nextAttemptAt := None, leaseToken := None, leaseExpiresAt := None)
  }

  /** The rows after a snapshot that leaves the operation to another poll, or to its time limit. */
  predicate ShowsPoll(op: Operation, deployment: Deployment, snapshot: Snapshot, now: Time, rows: Rows) {
    var start := if op.startedAt.Some? then op.startedAt.value else op.requestedAt;
    var polled := deployment.(
      controllerId := snapshot.controllerId, revision := deployment.revision + 1, lastReconciledAt := Some(now));
    if now - start >= 1800 * SECOND then
      && rows.deployment == polled.(observed := Failed, lastError := TIMEOUT_DETAIL)
      && rows.operation == op.(
           status := OpFailed, error := Some(OperationError("runtime_reconciliation_timeout", true)),
           finishedAt := Some(now), nextAttemptAt := None, leaseToken := None, leaseExpiresAt := None)
    else
      && rows.deployment == polled
      && rows.operation == op.(
           status := OpRunning, result := Dispatched, nextAttemptAt := Some(now + 2 * SECOND),
           leaseToken := None, leaseExpiresAt := None)
  }

  lemma EndIsShown(op: Operation, deployment: Deployment, read: Operation, snapshot: Snapshot, now: Time)
    requires op.payload == DesiredPayload(deployment.desired) && SameRequest(read, op)
    requires DistinctSlugs(snapshot.components) && Ends(op, snapshot)
    ensures
      var r := Observation(op, deployment, read, snapshot, now);
      r.Ok? ==> ShowsEnd(op, deployment, snapshot, now, r.value)
  {
    hide Sync, ComponentsShow, DistinctSlugs;
    if Sync(deployment.components, snapshot, true).Ok? { SyncShows(deployment.components, snapshot); }
  }

  lemma PollIsShown(op: Operation, deployment: Deployment, read: Operation, snapshot: Snapshot, now: Time)
    requires !Ends(op, snapshot)
    ensures
      var r := Observation(op, deployment, read, snapshot, now);
      r.Ok? ==> ShowsPoll(op, deployment, snapshot, now, r.value)
  {
    hide Sync;
  }

  /** A snapshot is refused exactly when its generation is out of range or its reports do not fit. */
  lemma RefusedExactly(op: Operation, deployment: Deployment, read: Operation, snapshot: Snapshot, now: Time)
    ensures Observation(op, deployment, read, snapshot, now).Ok? <==>
      && deployment.observedGeneration <= snapshot.observedGeneration <= op.target
      && ReportsFit(deployment.components, snapshot, Ends(op, snapshot))
  {
    hide Sync, ReportsFit, Satisfies;
    SyncAcceptsExactly(deployment.components, snapshot, true);
    SyncAcceptsExactly(deployment.components, snapshot, false);
  }

  /** The tables differ in the two rows of one operation, which show the snapshot. */
  predicate Shown(db: Db, after: Db, id: OperationId, snapshot: Snapshot, now: Time)
    requires References(db, id)
  {
    var op := db.operations[id];
    var deployment := db.deployments[op.deployment];
    && id in after.operations && op.deployment in after.deployments
    && after.operations == db.operations[id := after.operations[id]]
    && after.deployments == db.deployments[op.deployment := after.deployments[op.deployment]]
    && var rows := Rows(after.operations[id], after.deployments[op.deployment]);
    if Ends(op, snapshot) then ShowsEnd(op, deployment, snapshot, now, rows)
    else ShowsPoll(op, deployment, snapshot, now, rows)
  }

  /**
   Under a held lease, a snapshot that is not refused rewrites exactly its operation and deployment.
   They show the reported state, generation, message and components when it ends the operation, and
   only that a poll took place otherwise.
   */
  lemma SnapshotIsShown(db: Db, issued: set<LeaseToken>, id: OperationId, token: LeaseToken, read: Operation,
                        snapshot: Snapshot, now: Time)
    requires Recordings(db, issued, id, token)
    requires Reconciles(db.operations[id]) && SameRequest(read, db.operations[id])
    requires DistinctSlugs(snapshot.components)
    ensures
      var op := db.operations[id];
      var deployment := db.deployments[op.deployment];
      var r := RecordSnapshot(db, id, token, read, snapshot, now);
      && (r.Ok? <==>
           && deployment.observedGeneration <= snapshot.observedGeneration <= op.target
           && ReportsFit(deployment.components, snapshot, Ends(op, snapshot)))
      && (r.Ok? ==> Shown(db, r.value, id, snapshot, now))
  {
    hide DbInv, Observation, ShowsEnd, ShowsPoll, ReportsFit, DistinctSlugs, Ends;
    HolderIsRunning(db, issued, id, token);
    var op := db.operations[id];
    var deployment := db.deployments[op.deployment];
    RefusedExactly(op, deployment, read, snapshot, now);
    if Ends(op, snapshot) {
      EndIsShown(op, deployment, read, snapshot, now);
    } else {
      PollIsShown(op, deployment, read, snapshot, now);
    }
    var r := Observation(op, deployment, read, snapshot, now);
    if r.Ok? { RowsKeepDeployment(op, deployment, snapshot, now, r.value); }
  }

  lemma RowsKeepDeployment(op: Operation, deployment: Deployment, snapshot: Snapshot, now: Time, rows: Rows)
    requires ShowsEnd(op, deployment, snapshot, now, rows) || ShowsPoll(op, deployment, snapshot, now, rows)
    ensures rows.operation.deployment == op.deployment
  {
    hide ComponentsShow, Meets;
  }

  // ----- replies and faults -----

  /** What a reply to a well-formed call is taken for. */
  lemma ReplyDecides(call: Call, reply: Reply)
    requires ValidIdentifier(call.id) && (call.LogsCall? ==> ValidLogQuery(call.query))
    ensures
      var outcome := Interpret(call, reply);
      match reply
      case Broken => outcome == WorkerFailed
      case Rejected(status) => outcome.ControllerFailed? && outcome.error.status == status
      case RepliedLogs => if call.LogsCall? then outcome == GotLogs else outcome.ControllerFailed? && outcome.error.status == None
      case Replied(data) =>
        var fallback := if call.DeployCall? then "" else call.id;
        var read := Validate(data, fallback, call.DeployCall?, call.id);
        if !call.LogsCall? && read.Ok? then outcome == GotSnapshot(read.value)
        else outcome.ControllerFailed? && outcome.error.status == None
  {
    hide Validate;
  }

  /**
   After a recording that raised: a snapshot that broke the contract counts as one failure without a
   status, and one that the store could not hold ends the operation.
   */
  lemma FaultIsRecorded(db: Db, id: OperationId, token: LeaseToken, read: Operation, fault: Fault, now: Time)
    requires References(db, id) && Holds(db, id, token)
    ensures
      var r := Record(db, id, token, read, AfterFault(fault), now);
      && r.Ok?
      && match fault
         case ControllerFault => exists error: ControllerError :: error.status == None && RetriedOrFailed(db, r.value, id, error, now)
         case StoreFault =>
           && id in r.value.operations && r.value.operations[id].status == OpFailed
           && r.value.operations[id].error == Some(OperationError("runtime_worker_error", true))
           && FailsDeployment(db, r.value, db.operations[id], UNEXPECTED_DETAIL)
  {
    hide Backoff, Prefix, RetriedOrFailed;
    if fault.ControllerFault? { FailureIsRecorded(db, id, token, AfterFault(fault).error, now); }
  }
}
