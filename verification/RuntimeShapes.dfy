/**
 Every transaction of the protocol rewrites one operation, or one operation and its
 deployment, or inserts one operation. Each of these shapes keeps the table invariant.
 */
module RuntimeShapes {
  import opened RuntimeModel
  import opened Controller
  import opened WorkerTransactions
  import opened ApiTransactions
  import opened RuntimeInvariant

  /** At most one operation of a deployment is reconciling at any time. */
  lemma OneActive(db: Db, issued: set<LeaseToken>, a: OperationId, b: OperationId)
    requires DbInv(db, issued)
    requires a in db.operations && b in db.operations
    requires db.operations[a].deployment == db.operations[b].deployment
    requires Active(db.operations[a]) && Reconciles(db.operations[a])
    requires Active(db.operations[b]) && Reconciles(db.operations[b])
    ensures a == b
  {
    assert OperationOk(db, issued, a) && OperationOk(db, issued, b);
  }

  predicate SameTurn(a: Operation, b: Operation) {
    a.deployment == b.deployment && a.kind == b.kind && (Reconciles(a) ==> Active(a) == Active(b))
  }

  /** Rewriting one operation leaves the business of a deployment alone unless that operation changes turn. */
  lemma RewriteBusy(db: Db, db': Db, id: OperationId, op: Operation, d: DeploymentId)
    requires id in db.operations && db'.operations == db.operations[id := op]
    requires SameTurn(db.operations[id], op) || (db.operations[id].deployment == op.deployment != d)
    ensures Busy(db, d) == Busy(db', d)
  {
    if Busy(db, d) {
      var o :| o in db.operations && db.operations[o].deployment == d
        && Active(db.operations[o]) && Reconciles(db.operations[o]);
      assert o in db'.operations;
    }
    if Busy(db', d) {
      var o :| o in db'.operations && db'.operations[o].deployment == d
        && Active(db'.operations[o]) && Reconciles(db'.operations[o]);
      assert o in db.operations;
    }
  }

  /** The ledger survives any rewriting of a row that keeps its request, if no generation moves. */
  lemma RewriteLedger(db: Db, db': Db, id: OperationId, op: Operation)
    requires LedgerComplete(db)
    requires id in db.operations && SameRequest(db.operations[id], op)
    requires db'.operations == db.operations[id := op]
    requires op.deployment in db.deployments && op.deployment in db'.deployments
    requires db'.deployments == db.deployments[op.deployment := db'.deployments[op.deployment]]
    requires db'.deployments[op.deployment].generation == db.deployments[op.deployment].generation
    ensures LedgerComplete(db')
  {
    forall d, generation: nat | d in db'.deployments && 1 <= generation <= db'.deployments[d].generation
      ensures HasGeneration(db'.operations, d, generation)
    {
      assert HasGeneration(db.operations, d, generation);
      var o :| o in db.operations && Carries(db.operations[o], d, generation);
      assert Carries(db'.operations[o], d, generation);
    }
  }

  lemma RewriteEnvironments(deployments: map<DeploymentId, Deployment>, id: DeploymentId, deployment: Deployment)
    requires OnePerEnvironment(deployments) && id in deployments
    requires deployment.application == deployments[id].application
    requires deployment.environment == deployments[id].environment
    requires deployments[id].deletedAt.Some? ==> deployment.deletedAt.Some?
    ensures OnePerEnvironment(deployments[id := deployment])
  {
  }

  predicate RowsDistinct(ops: map<OperationId, Operation>) {
    TokensDistinct(ops) && KeysDistinct(ops) && TargetsDistinct(ops) && OneActiveLog(ops)
  }

  lemma RewriteKeepsDistinct(ops: map<OperationId, Operation>, id: OperationId, op: Operation)
    requires RowsDistinct(ops)
    requires id in ops && SameRequest(ops[id], op)
    requires !Reconciles(op) && Active(op) ==> Active(ops[id])
    requires op.leaseToken.Some? ==> forall o :: o in ops && o != id ==> ops[o].leaseToken != op.leaseToken
    ensures RowsDistinct(ops[id := op])
  {
  }

  lemma InsertKeepsDistinct(ops: map<OperationId, Operation>, id: OperationId, op: Operation)
    requires RowsDistinct(ops)
    requires id !in ops && op.leaseToken.None? && !KeyTaken(ops, op.key)
    requires Reconciles(op) ==>
      forall o :: o in ops && Reconciles(ops[o]) && ops[o].deployment == op.deployment ==> ops[o].target != op.target
    requires !Reconciles(op) ==>
      forall o :: o in ops && !Reconciles(ops[o]) && ops[o].deployment == op.deployment ==> !Active(ops[o])
    ensures RowsDistinct(ops[id := op])
  {
  }

  /** What may happen to an operation that is rewritten alone: by a claim, a retry, or the end of a log request. */
  predicate RewritesRow(before: Operation, after: Operation, issued: set<LeaseToken>) {
    && SameRequest(before, after)
    && Active(before) && (Reconciles(after) ==> Active(after))
    && LeaseOk(after, issued)
    && (after.result == Dispatched ==> before.result == Dispatched)
  }

  lemma RewrittenOperation(db: Db, issued: set<LeaseToken>, issued': set<LeaseToken>, id: OperationId, op: Operation,
                           o: OperationId)
    requires OperationOk(db, issued, o) && issued <= issued'
    requires id in db.operations && RewritesRow(db.operations[id], op, issued')
    ensures OperationOk(db.(operations := db.operations[id := op]), issued', o)
  {
  }

  lemma RewriteKeepsInv(db: Db, issued: set<LeaseToken>, issued': set<LeaseToken>, id: OperationId, op: Operation)
    requires DbInv(db, issued) && issued <= issued'
    requires id in db.operations && RewritesRow(db.operations[id], op, issued')
    requires op.leaseToken.Some? ==>
      forall o :: o in db.operations && o != id ==> db.operations[o].leaseToken != op.leaseToken
    ensures DbInv(db.(operations := db.operations[id := op]), issued')
  {
    hide LeaseOk, OutcomeShown, IdentityOk, TombstoneOk, Converged;
    var db' := db.(operations := db.operations[id := op]);
    RewriteKeepsDistinct(db.operations, id, op);
    forall o | o in db'.operations ensures OperationOk(db', issued', o) {
      RewrittenOperation(db, issued, issued', id, op, o);
    }
    forall d | d in db'.deployments ensures DeploymentOk(db', d) {
      assert DeploymentOk(db, d);
      RewriteBusy(db, db', id, op, d);
    }
    assert db'.deployments == db.deployments[op.deployment := db.deployments[op.deployment]];
    RewriteLedger(db, db', id, op);
  }

  /** What may happen to a reconciling operation and its deployment when they are rewritten together. */
  predicate SettlesRows(op: Operation, op': Operation, deployment: Deployment, deployment': Deployment) {
    && SameRequest(op, op') && Reconciles(op)
    && op'.leaseToken.None? && op'.leaseExpiresAt.None? && op'.attempts == op.attempts
    && (deployment'.controllerId == "" || deployment'.controllerId == op.deployment)
    && (deployment.controllerId == op.deployment || op'.result == Dispatched != op.result ==>
         deployment'.controllerId == op.deployment)
    && deployment'.application == deployment.application
    && deployment'.environment == deployment.environment
    && deployment'.desired == deployment.desired
    && deployment'.generation == deployment.generation
    && deployment'.observedGeneration <= deployment'.generation
    && deployment'.revision >= 1
    && (deployment.deletedAt.Some? ==> deployment'.deletedAt.Some?)
    && (Active(op') <==> Transitional(deployment'.observed))
    && OutcomeShown(op', deployment')
    && (!Transitional(deployment'.observed) ==> Inconclusive(deployment'.observed) || Converged(deployment'))
    && TombstoneOk(deployment')
  }

  ghost predicate Settles(db: Db, issued: set<LeaseToken>, id: OperationId, op: Operation, deployment: Deployment) {
    && DbInv(db, issued)
    && References(db, id)
    && Active(db.operations[id])
    && SettlesRows(db.operations[id], op, db.deployments[db.operations[id].deployment], deployment)
  }

  lemma SettledBusy(db: Db, issued: set<LeaseToken>, id: OperationId, op: Operation, deployment: Deployment)
    requires Settles(db, issued, id, op, deployment)
    ensures Busy(Save(db, id, op, deployment), op.deployment) == Active(op)
  {
    var db' := Save(db, id, op, deployment);
    assert db'.operations[id] == op;
    forall o | o in db.operations && db.operations[o].deployment == op.deployment
      && Active(db.operations[o]) && Reconciles(db.operations[o])
      ensures o == id
    {
      OneActive(db, issued, o, id);
    }
  }

  lemma SettledOperation(db: Db, issued: set<LeaseToken>, id: OperationId, op: Operation, deployment: Deployment,
                         o: OperationId)
    requires Settles(db, issued, id, op, deployment) && o in db.operations
    ensures OperationOk(Save(db, id, op, deployment), issued, o)
  {
    assert OperationOk(db, issued, o) && OperationOk(db, issued, id);
  }

  lemma SettledDeployment(db: Db, issued: set<LeaseToken>, id: OperationId, op: Operation, deployment: Deployment,
                          d: DeploymentId)
    requires Settles(db, issued, id, op, deployment) && d in db.deployments
    ensures DeploymentOk(Save(db, id, op, deployment), d)
  {
    var db' := Save(db, id, op, deployment);
    assert DeploymentOk(db, d);
    if d == op.deployment {
      SettledBusy(db, issued, id, op, deployment);
    } else {
      RewriteBusy(db, db', id, op, d);
    }
  }

  lemma SettleKeepsInv(db: Db, issued: set<LeaseToken>, id: OperationId, op: Operation, deployment: Deployment)
    requires Settles(db, issued, id, op, deployment)
    ensures DbInv(Save(db, id, op, deployment), issued)
  {
    var db' := Save(db, id, op, deployment);
    RewriteKeepsDistinct(db.operations, id, op);
    forall o | o in db'.operations ensures OperationOk(db', issued, o) {
      SettledOperation(db, issued, id, op, deployment, o);
    }
    forall d | d in db'.deployments ensures DeploymentOk(db', d) {
      SettledDeployment(db, issued, id, op, deployment, d);
    }
    RewriteEnvironments(db.deployments, op.deployment, deployment);
    RewriteLedger(db, db', id, op);
  }

  /** A freshly queued row. */
  predicate Fresh(op: Operation, id: DeploymentId, deployment: Deployment) {
    && op.deployment == id
    && op.status == OpQueued
    && op.result == NoResult
    && op.leaseToken.None? && op.leaseExpiresAt.None? && op.attempts == 0
    && op.target == deployment.generation
    && (Reconciles(op) <==> op.payload.DesiredPayload?)
    && (Reconciles(op) ==> op.payload.desired == deployment.desired)
    && AnswersRequest(op)
    && (NeedsIdentity(op.kind) ==> deployment.controllerId == id)
  }

  /** A mutation: the next generation of an idle deployment is written and its operation queued. */
  lemma MutationKeepsInv(db: Db, issued: set<LeaseToken>, id: DeploymentId, deployment: Deployment,
                         newId: OperationId, op: Operation)
    requires DbInv(db, issued)
    requires id in db.deployments && newId !in db.operations
    requires !KeyTaken(db.operations, op.key)
    requires Reconciles(op) && Fresh(op, id, deployment)
    requires !Busy(db, id)
    requires db.deployments[id].deletedAt.None? && deployment.deletedAt.None?
    requires deployment.generation == db.deployments[id].generation + 1
    requires deployment.observedGeneration == db.deployments[id].observedGeneration
    requires deployment.controllerId == db.deployments[id].controllerId
    requires deployment.application == db.deployments[id].application
    requires deployment.environment == db.deployments[id].environment
    requires deployment.revision >= 1
    requires Transitional(deployment.observed)
    ensures DbInv(Db(db.deployments[id := deployment], db.operations[newId := op]), issued)
  {
    var db' := Db(db.deployments[id := deployment], db.operations[newId := op]);
    assert DeploymentOk(db, id);
    forall o | o in db'.operations ensures OperationOk(db', issued, o) {
      if o != newId { assert OperationOk(db, issued, o); }
    }
    forall d | d in db'.deployments ensures DeploymentOk(db', d) {
      InsertedBusy(db, db', newId, op, d);
      assert DeploymentOk(db, d);
    }
    forall o | o in db.operations && db.operations[o].deployment == id
      ensures db.operations[o].target < op.target
    {
      assert OperationOk(db, issued, o);
    }
    InsertKeepsDistinct(db.operations, newId, op);
    InsertedLedger(db, db', id, newId, op);
  }

  lemma InsertedBusy(db: Db, db': Db, newId: OperationId, op: Operation, d: DeploymentId)
    requires newId !in db.operations && db'.operations == db.operations[newId := op]
    ensures Busy(db', d) <==> Busy(db, d) || (op.deployment == d && Active(op) && Reconciles(op))
  {
    if Busy(db, d) {
      var o :| o in db.operations && db.operations[o].deployment == d
        && Active(db.operations[o]) && Reconciles(db.operations[o]);
      assert db'.operations[o] == db.operations[o];
    }
    if op.deployment == d && Active(op) && Reconciles(op) { assert db'.operations[newId] == op; }
  }

  /** The new operation carries exactly the generation the ledger was missing. */
  lemma InsertedLedger(db: Db, db': Db, id: DeploymentId, newId: OperationId, op: Operation)
    requires LedgerComplete(db)
    requires newId !in db.operations && db'.operations == db.operations[newId := op]
    requires id in db'.deployments && db'.deployments == db.deployments[id := db'.deployments[id]]
    requires Carries(op, id, db'.deployments[id].generation)
    requires db'.deployments[id].generation == if id in db.deployments then db.deployments[id].generation + 1 else 1
    ensures LedgerComplete(db')
  {
    forall d, generation: nat | d in db'.deployments && 1 <= generation <= db'.deployments[d].generation
      ensures HasGeneration(db'.operations, d, generation)
    {
      if d == id && generation == op.target {
        assert Carries(db'.operations[newId], d, generation);
      } else {
        assert HasGeneration(db.operations, d, generation);
        var o :| o in db.operations && Carries(db.operations[o], d, generation);
        assert Carries(db'.operations[o], d, generation);
      }
    }
  }

  lemma LogLedger(db: Db, newId: OperationId, op: Operation)
    requires LedgerComplete(db) && newId !in db.operations
    ensures LedgerComplete(db.(operations := db.operations[newId := op]))
  {
    var db' := db.(operations := db.operations[newId := op]);
    forall d, generation: nat | d in db'.deployments && 1 <= generation <= db'.deployments[d].generation
      ensures HasGeneration(db'.operations, d, generation)
    {
      assert HasGeneration(db.operations, d, generation);
      var o :| o in db.operations && Carries(db.operations[o], d, generation);
      assert Carries(db'.operations[o], d, generation);
    }
  }

  /** A log request: an operation is queued and no deployment changes. */
  lemma LogRequestKeepsInv(db: Db, issued: set<LeaseToken>, id: DeploymentId, newId: OperationId, op: Operation)
    requires DbInv(db, issued)
    requires id in db.deployments && newId !in db.operations
    requires !KeyTaken(db.operations, op.key)
    requires !Reconciles(op) && Fresh(op, id, db.deployments[id])
    requires !CapturingLogs(db, id)
    ensures DbInv(db.(operations := db.operations[newId := op]), issued)
  {
    var db' := db.(operations := db.operations[newId := op]);
    assert DeploymentOk(db, id);
    forall o | o in db'.operations ensures OperationOk(db', issued, o) {
      if o != newId { assert OperationOk(db, issued, o); }
    }
    forall d | d in db'.deployments ensures DeploymentOk(db', d) {
      InsertedBusy(db, db', newId, op, d);
      assert DeploymentOk(db, d);
    }
    InsertKeepsDistinct(db.operations, newId, op);
    LogLedger(db, newId, op);
  }

  /** A creation: a deployment at generation 1 and its first operation. */
  lemma CreationKeepsInv(db: Db, issued: set<LeaseToken>, id: DeploymentId, deployment: Deployment,
                         newId: OperationId, op: Operation)
    requires DbInv(db, issued)
    requires id !in db.deployments && newId !in db.operations && IsUuid(id)
    requires !KeyTaken(db.operations, op.key)
    requires !Deployed(db, deployment.application, deployment.environment)
    requires Reconciles(op) && Fresh(op, id, deployment)
    requires deployment.generation == 1 && deployment.observedGeneration == 0
    requires deployment.revision >= 1 && deployment.controllerId == ""
    requires deployment.deletedAt.None? && Transitional(deployment.observed)
    ensures DbInv(Db(db.deployments[id := deployment], db.operations[newId := op]), issued)
  {
    var db' := Db(db.deployments[id := deployment], db.operations[newId := op]);
    forall o | o in db'.operations ensures OperationOk(db', issued, o) {
      if o != newId { assert OperationOk(db, issued, o); }
    }
    assert forall o :: o in db.operations ==> OperationOk(db, issued, o) && db.operations[o].deployment != id;
    forall d | d in db'.deployments ensures DeploymentOk(db', d) {
      InsertedBusy(db, db', newId, op, d);
      if d != id { assert DeploymentOk(db, d); }
    }
    InsertKeepsDistinct(db.operations, newId, op);
    InsertedLedger(db, db', id, newId, op);
  }
}
