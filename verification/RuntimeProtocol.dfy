/**
 The runtime-operation protocol as a step system: any number of API requests and worker
 processes interleave over one database, one transaction at a time. A worker may stop
 between any two of its steps, and leases lapse as the shared clock advances.
 */
module RuntimeProtocol {
  import opened Wrappers
  import opened RuntimeModel
  import opened Controller
  import opened WorkerTransactions
  import opened ApiTransactions
  import opened Preconditions

  /** Where a worker stands between its claim and its last recording transaction. */
  datatype Phase =
    | Claimed
    | Loaded(view: View)
    | Ready(view: View, outcome: Outcome)

  datatype Worker = Worker(operation: OperationId, claimedAt: Time, phase: Phase)

  /**
   `workers` holds the work in flight, keyed by the lease token of its claim; `issued`
   collects every token ever drawn, since `uuid4` never repeats one.
   */
  datatype World = World(
    db: Db,
    workers: map<LeaseToken, Worker>,
    issued: set<LeaseToken>,
    clock: Time)

  datatype ApiCall =
    | Create(body: RequestBody, applicationRevision: nat, release: Result<Release, Code>,
             validated: Option<Validated>, newDeployment: DeploymentId)
    | Reconfigure(id: DeploymentId, changes: Changes)
    | Remove(id: DeploymentId)
    | Act(id: DeploymentId, action: Action, verdict: Option<map<string, ScalingPolicy>>)
    | FetchLogs(id: DeploymentId, query: LogQuery)

  datatype Step =
    | Tick(elapsed: nat)
    | Api(call: ApiCall, headers: Headers, seen: Option<OperationId>, environment: Environment,
          newId: OperationId, now: Time)
    | ClaimNext(id: OperationId, token: LeaseToken, now: Time)
    | Load(token: LeaseToken)
    | Respond(token: LeaseToken, first: Reply, second: Reply)
    | Recording(token: LeaseToken, now: Time)
    | Crash(token: LeaseToken)

  const EMPTY_WORLD := World(EMPTY_DB, map[], {}, 0)

  function Perform(db: Db, call: ApiCall, headers: Headers, seen: Option<OperationId>,
                   environment: Environment, newId: OperationId, now: Time): ApiResult
    requires call.Create? ==> call.body.CreateBody?
  {
    match call
    case Create(body, revision, release, validated, newDeployment) =>
      CreateDeployment(db, body, revision, release, validated, headers, seen, environment, newDeployment, newId, now)
    case Reconfigure(id, changes) => ConfigureDeployment(db, id, changes, headers, seen, environment, newId, now)
    case Remove(id) => UndeployDeployment(db, id, headers, seen, environment, newId, now)
    case Act(id, action, verdict) =>
      ActOnDeployment(db, id, action, verdict, headers, seen, environment, newId, now)
    case FetchLogs(id, query) => RequestLogs(db, id, query, headers, seen, environment, newId, now)
  }

  /** Primary keys of inserted rows are fresh, and the key lookup returns only a row with that key. */
  predicate ApiEnabled(w: World, s: Step)
    requires s.Api?
  {
    && s.now <= w.clock
    && s.newId !in w.db.operations
    && (s.call.Create? ==>
         && s.call.body.CreateBody?
         && IsUuid(s.call.newDeployment)
         && s.call.newDeployment !in w.db.deployments)
    && (s.seen.Some? ==>
         && s.seen.value in w.db.operations
         && KeyOf(s.headers.key) == Some(w.db.operations[s.seen.value].key))
  }

  /**
   A transaction reads the clock before it waits for its lock, so its `now` may lie in the
   past, but never before the claim of the worker that runs it. For the same reason a claim
   may take a claimable row that is no longer the oldest.
   */
  predicate Enabled(w: World, s: Step) {
    match s
    case Tick(_) => true
    case Api(_, _, _, _, _, _) => ApiEnabled(w, s)
    case ClaimNext(id, token, now) =>
      && token !in w.issued && now <= w.clock
      && id in w.db.operations && Claimable(w.db.operations[id], now) && Countable(w.db.operations[id])
    case Load(token) =>
      && token in w.workers
      && w.workers[token].phase == Claimed
      && References(w.db, w.workers[token].operation)
    case Respond(token, _, _) => token in w.workers && w.workers[token].phase.Loaded?
    case Recording(token, now) =>
      && token in w.workers
      && w.workers[token].phase.Ready?
      && w.workers[token].claimedAt <= now <= w.clock
      && References(w.db, w.workers[token].operation)
    case Crash(token) => token in w.workers
  }

  function Apply(w: World, s: Step): World
    requires Enabled(w, s)
  {
    match s
    case Tick(elapsed) => w.(clock := w.clock + elapsed)
    case Api(call, headers, seen, environment, newId, now) =>
      w.(db := Perform(w.db, call, headers, seen, environment, newId, now).db)
    case ClaimNext(id, token, now) =>
      w.(db := Claim(w.db, id, token, now),
         workers := w.workers[token := Worker(id, now, Claimed)],
         issued := w.issued + {token})
    case Load(token) =>
      var worker := w.workers[token];
      var op := w.db.operations[worker.operation];
      w.(workers := w.workers[token := worker.(phase := Loaded(View(op, w.db.deployments[op.deployment])))])
    case Respond(token, first, second) =>
      var worker := w.workers[token];
      var view := worker.phase.view;
      var outcome := Execute(view.operation.deployment, view, first, second);
      w.(workers := w.workers[token := worker.(phase := Ready(view, outcome))])
    case Recording(token, now) =>
      var worker := w.workers[token];
      var phase := worker.phase;
      var r := Record(w.db, worker.operation, token, phase.view.operation, phase.outcome, now);
      match r {
        case Ok(db) => w.(db := db, workers := w.workers - {token})
        case Err(fault) =>
          w.(workers := w.workers[token := worker.(phase := Ready(phase.view, AfterFault(fault)))])
      }
    case Crash(token) => w.(workers := w.workers - {token})
  }

  // ----- runs -----

  predicate Legal(w: World, steps: seq<Step>)
    decreases |steps|, 0
  {
    steps != [] ==>
      var before := steps[..|steps| - 1];
      Legal(w, before) && Enabled(Exec(w, before), steps[|steps| - 1])
  }

  function Exec(w: World, steps: seq<Step>): World
    requires Legal(w, steps)
    decreases |steps|, 1
  {
    if steps == [] then w
    else Apply(Exec(w, steps[..|steps| - 1]), steps[|steps| - 1])
  }
}
