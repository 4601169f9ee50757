/**
 Where the work cannot be brought to an end any more: an operation whose remaining failures no
 longer fit the 16-bit count of its attempts stays active against a controller that keeps failing.
 */
module RuntimeExhaustion {
  import opened Wrappers
  import opened RuntimeModel
  import opened Controller
  import opened WorkerTransactions
  import opened RuntimeProtocol
  import opened RuntimeInvariant
  import opened RuntimeRuns
  import opened RuntimeTheorems
  import opened RuntimeProgress

  const FAILURE: Reply := Rejected(Some(500))

  /** The controller that answers every call with a server error. */
  function Failing(): Replies {
    (w, token) => (FAILURE, FAILURE)
  }

  predicate RetryableFailure(outcome: Outcome) {
    outcome.ControllerFailed? && Retryable(outcome.error)
  }

  lemma FailingOutcome(db: Db, issued: set<LeaseToken>, token: LeaseToken, worker: Worker)
    requires WorkerOk(db, issued, token, worker) && worker.phase.Loaded?
    requires OperationOk(db, issued, worker.operation) && Active(db.operations[worker.operation])
    ensures
      var view := worker.phase.view;
      RetryableFailure(Execute(view.operation.deployment, view, FAILURE, FAILURE))
  {
    hide ValidIdentifier, ValidLogQuery, Validate;
  }

  // ----- a bound that no step lowers -----

  /** The claim under way, if some worker still has it. */
  function UnderWay(w: World, op: Operation): nat {
    if op.leaseToken.Some? && op.leaseToken.value in w.workers then 1 else 0
  }

  /** The attempts made so far and those still needed, less the one under way. */
  function Spending(w: World, o: OperationId): int
    requires o in w.db.operations
  {
    var op := w.db.operations[o];
    op.attempts + Need(op) - UnderWay(w, op)
  }

  ghost predicate Doomed(w: World, o: OperationId) {
    && o in w.db.operations && Active(w.db.operations[o])
    && Spending(w, o) > SMALLINT_MAX
    && (forall token :: token in w.workers && w.workers[token].operation == o && w.workers[token].phase.Ready? ==>
         RetryableFailure(w.workers[token].phase.outcome))
  }

  lemma RecordTouchesOne(db: Db, id: OperationId, token: LeaseToken, read: Operation, outcome: Outcome, now: Time, o: OperationId)
    requires References(db, id) && o in db.operations && o != id
    ensures
      var r := Record(db, id, token, read, outcome, now);
      r.Ok? ==> o in r.value.operations && r.value.operations[o] == db.operations[o]
  {
    hide Observation, Backoff, Prefix;
  }

  /** A retryable failure costs a claim that was made, and ends an operation only when its count fits. */
  lemma FailureSpends(db: Db, id: OperationId, token: LeaseToken, error: ControllerError, now: Time)
    requires References(db, id) && Active(db.operations[id]) && Retryable(error)
    ensures
      var op, db' := db.operations[id], RecordControllerFailure(db, id, token, error, now);
      && id in db'.operations
      && var op' := db'.operations[id];
      if !Holds(db, id, token) then op' == op
      else if op.failures + 1 < MAX_CONTROLLER_FAILURES then
        Active(op') && op'.attempts == op.attempts && Need(op') == Need(op) - 1 && op'.leaseToken.None?
      else Need(op) == 1
  {
    hide Backoff, Prefix, Retryable;
  }

  lemma RecordingStaysDoomed(w: World, token: LeaseToken, now: Time, o: OperationId)
    requires Inv(w) && Doomed(w, o) && Enabled(w, Recording(token, now))
    ensures Doomed(Apply(w, Recording(token, now)), o)
  {
    hide Record, RecordControllerFailure, DbInv, Retryable;
    var worker := w.workers[token];
    assert WorkerOk(w.db, w.issued, token, worker);
    KnownLease(w, o);
    if worker.operation == o {
      FailureSpends(w.db, o, token, worker.phase.outcome.error, now);
      RecordsFailure(w.db, o, token, worker.phase.view.operation, worker.phase.outcome, now);
    } else {
      RecordTouchesOne(w.db, worker.operation, token, worker.phase.view.operation, worker.phase.outcome, now, o);
    }
  }

  lemma RecordsFailure(db: Db, id: OperationId, token: LeaseToken, read: Operation, outcome: Outcome, now: Time)
    requires References(db, id) && outcome.ControllerFailed?
    ensures Record(db, id, token, read, outcome, now) == Ok(RecordControllerFailure(db, id, token, outcome.error, now))
  {
  }

  lemma KnownLease(w: World, o: OperationId)
    requires Inv(w) && o in w.db.operations
    ensures OperationOk(w.db, w.issued, o)
  {
  }

  lemma StaysDoomed(w: World, s: Step, o: OperationId)
    requires Inv(w) && Doomed(w, o) && Enabled(w, s) && Works(w, s, Failing())
    ensures Doomed(Apply(w, s), o)
  {
    hide DbInv, Record, Execute, IsNext;
    KnownLease(w, o);
    if s.Recording? {
      RecordingStaysDoomed(w, s.token, s.now, o);
    } else if s.Respond? && w.workers[s.token].operation == o {
      assert WorkerOk(w.db, w.issued, s.token, w.workers[s.token]);
      FailingOutcome(w.db, w.issued, s.token, w.workers[s.token]);
    }
  }

  /** Against a failing controller, an operation whose count cannot be afforded is active for ever. */
  lemma {:induction false} NeverEnds(w: World, steps: seq<Step>, o: OperationId)
    requires Inv(w) && Doomed(w, o) && Worked(w, steps, Failing())
    ensures Inv(Exec(w, steps)) && Doomed(Exec(w, steps), o)
    decreases |steps|
  {
    hide Inv, Doomed, Enabled, Apply, Works;
    WorkedIsSafe(w, steps, Failing());
    if steps != [] {
      var before := steps[..|steps| - 1];
      NeverEnds(w, before, o);
      StaysDoomed(Exec(w, before), steps[|steps| - 1], o);
    }
  }

  /**
   With no work in flight, everything can be settled against every controller exactly when every
   active operation can still be counted.
   */
  lemma SettlesExactly(past: seq<Step>)
    requires Legal(EMPTY_WORLD, past) && Exec(EMPTY_WORLD, past).workers == map[]
    ensures (forall replies :: CanSettle(Exec(EMPTY_WORLD, past), replies))
      <==> AllAffordable(Exec(EMPTY_WORLD, past).db.operations)
  {
    hide Enabled, Apply, Worked, Claims, CanSettle;
    var w := Exec(EMPTY_WORLD, past);
    ReachedIsSafe(past);
    if AllAffordable(w.db.operations) {
      forall replies ensures CanSettle(w, replies) { CountableWorkSettles(past, replies); }
    } else {
      var o :| o in w.db.operations && Active(w.db.operations[o]) && !Affordable(w.db.operations[o]);
      CannotSettle(w, o);
    }
  }

  lemma CannotSettle(w: World, o: OperationId)
    requires Inv(w) && w.workers == map[]
    requires o in w.db.operations && Active(w.db.operations[o]) && !Affordable(w.db.operations[o])
    ensures !CanSettle(w, Failing())
  {
    hide Inv, Worked, Exec, Claims;
    forall later | Worked(w, later, Failing()) ensures !Settled(Exec(w, later).db) {
      NeverEnds(w, later, o);
    }
  }

  // ----- how such states come about -----

  /** Time, claims and workers that stop. */
  predicate OnlyLapses(steps: seq<Step>) {
    forall i :: 0 <= i < |steps| ==> steps[i].Tick? || steps[i].ClaimNext? || steps[i].Crash?
  }

  lemma {:induction false} CrashAll(w: World) returns (later: seq<Step>)
    ensures OnlyLapses(later) && Legal(w, later) && Exec(w, later) == w.(workers := map[])
    decreases |w.workers|
  {
    later := [];
    if w.workers != map[] {
      var token :| token in w.workers;
      var next := Apply(w, Crash(token));
      NextStep(w, [], Crash(token));
      assert next.workers.Keys == w.workers.Keys - {token};
      var rest := CrashAll(next);
      LegalCompose(w, [] + [Crash(token)], rest);
      later := [] + [Crash(token)] + rest;
    }
  }

  /** A worker claims the row, stops, and its lease lapses. */
  lemma LoseClaim(w: World, o: OperationId) returns (later: seq<Step>)
    requires w.workers == map[] && o in w.db.operations && Active(w.db.operations[o]) && Countable(w.db.operations[o])
    ensures OnlyLapses(later) && Legal(w, later) && Exec(w, later).workers == map[]
    ensures
      var ops := Exec(w, later).db.operations;
      && o in ops && Active(ops[o]) && ops[o].attempts == w.db.operations[o].attempts + 1
      && ops[o].failures == w.db.operations[o].failures
  {
    hide Legal, Exec;
    var now := Horizon(w.db.operations, {o}, w.clock);
    var token := UnusedToken(w.issued);
    assert Ripe(w.db.operations[o], now);
    StartsLegal(w);
    NextStep(w, [], Tick(now - w.clock));
    later := [] + [Tick(now - w.clock)];
    NextStep(w, later, ClaimNext(o, token, now));
    later := later + [ClaimNext(o, token, now)];
    NextStep(w, later, Crash(token));
    later := later + [Crash(token)];
  }

  lemma {:induction false} Exhaust(w: World, o: OperationId) returns (later: seq<Step>)
    requires w.workers == map[] && o in w.db.operations && Active(w.db.operations[o])
    requires w.db.operations[o].attempts <= SMALLINT_MAX
    ensures OnlyLapses(later) && Legal(w, later) && Exec(w, later).workers == map[]
    ensures
      var ops := Exec(w, later).db.operations;
      o in ops && Active(ops[o]) && ops[o].attempts == SMALLINT_MAX
    decreases SMALLINT_MAX - w.db.operations[o].attempts
  {
    hide Legal, Exec, Apply, Enabled;
    if Countable(w.db.operations[o]) {
      var first := LoseClaim(w, o);
      var rest := Exhaust(Exec(w, first), o);
      LegalCompose(w, first, rest);
      later := first + rest;
    } else {
      StartsLegal(w);
      later := [];
    }
  }

  lemma Wedge(w: World, o: OperationId) returns (later: seq<Step>)
    requires Inv(w) && o in w.db.operations && Active(w.db.operations[o])
    ensures OnlyLapses(later)
    ensures Legal(w, later) && Exec(w, later).workers == map[] && !CanSettle(Exec(w, later), Failing())
  {
    hide Enabled, Apply, CanSettle, Inv, Legal, Exec;
    KnownLease(w, o);
    var crashes := CrashAll(w);
    var lapses := Exhaust(Exec(w, crashes), o);
    LegalCompose(w, crashes, lapses);
    later := crashes + lapses;
    RunIsSafe(w, later);
    CannotSettle(Exec(w, later), o);
  }

  /** From every reachable state with an active operation, lapsed leases alone lead to one that cannot be settled any more. */
  lemma LapsedLeasesWedge(past: seq<Step>, o: OperationId)
    requires Legal(EMPTY_WORLD, past)
    requires o in Exec(EMPTY_WORLD, past).db.operations && Active(Exec(EMPTY_WORLD, past).db.operations[o])
    ensures exists later ::
      && OnlyLapses(later) && Legal(Exec(EMPTY_WORLD, past), later)
      && Exec(Exec(EMPTY_WORLD, past), later).workers == map[]
      && !CanSettle(Exec(Exec(EMPTY_WORLD, past), later), Failing())
  {
    hide Enabled, Apply, CanSettle, Inv;
    ReachedIsSafe(past);
    var later := Wedge(Exec(EMPTY_WORLD, past), o);
  }

  /** When the row that comes next cannot be counted, claims raise, and with no work in flight the tables never change again. */
  lemma {:induction false} QueueIsStuck(w: World, steps: seq<Step>, replies: Replies)
    requires w.workers == map[] && Worked(w, steps, replies)
    requires forall o, now | IsNext(w.db.operations, now, o) :: !Countable(w.db.operations[o])
    ensures Exec(w, steps).db == w.db && Exec(w, steps).workers == map[]
    decreases |steps|
  {
    if steps != [] {
      QueueIsStuck(w, steps[..|steps| - 1], replies);
    }
  }
}
