/**
 * The transaction logic of `EntityFrameworkSagaRepository<TSaga>`: `Send` for one correlation
 * id, `SendQuery` for the ids a query matched, the pre-insert shortcut, `SendToInstance`,
 * `MissingPipe`, and the catch blocks that decide between rollback, rethrow and wrapping.
 *
 * The saga table is a map from correlation id to saga. A `SagaDbContext` holds the committed
 * rows, the rows its open transaction sees, and the inserts not yet saved; commit publishes the
 * transaction's rows and rollback discards them. The correlation policy, the handler pipe and
 * the failures the database reports are inputs, described as data.
 */
module EntityFrameworkSaga {
  import opened Common

  /** A saga: its correlation id and the business state its handlers change. */
  datatype Saga = Saga(correlationId: Guid, state: int)

  /** The base exception of a `DbUpdateException`: a `SqlException` with its number, or another exception. */
  datatype BaseException = SqlError(number: int) | NonSqlError

  /** The exceptions the repository tells apart. */
  datatype Failure =
    | DbUpdateConcurrency                                            // DbUpdateConcurrencyException
    | DbUpdate(baseException: BaseException)                         // any other DbUpdateException
    | SagaFault(correlationId: Option<Guid>, cause: Option<Failure>) // SagaException
    | OtherFailure(description: string)                              // any other exception

  /** SQL Server's error number for a deadlock victim. */
  const DeadlockNumber: int := 1205

  /** SQL Server's error number for a primary-key violation, which the model reports for a duplicate insert. */
  const DuplicateKeyNumber: int := 2627

  /** `IsDeadlockException`: the base exception is a `SqlException` numbered 1205. */
  predicate IsDeadlockException(b: BaseException) {
    b.SqlError? && b.number == DeadlockNumber
  }

  /** Every catch block rolls back, except the one for a `DbUpdateException` caused by a deadlock. */
  predicate RollsBack(f: Failure) {
    !(f.DbUpdate? && IsDeadlockException(f.baseException))
  }

  /** What a handler pipe does with the saga it is given: new state and whether it marked completion, or a failure. */
  datatype HandlerResult = Handled(state: int, completed: bool) | HandlerFailed(failure: Failure)

  /** The handler pipe `next`, seen through what it does to one saga instance. */
  type Handler = Saga -> HandlerResult

  /** `PreInsertInstance(context, out instance)`: its return value and what it stores in `instance`. */
  datatype PreInsertAnswer = PreInsertAnswer(accepted: bool, instance: Option<Saga>)

  /** What `policy.Missing(context, missingPipe)` does: send a new instance down the pipe, do nothing, or throw. */
  datatype MissingAction = SendNew(instance: Saga) | Ignore | Reject(failure: Failure)

  /** The correlation policy of one message. `Existing` always forwards to the handler pipe. */
  datatype Policy = Policy(preInsert: PreInsertAnswer, missing: MissingAction)

  /** The failures the database reports: by the row-lock statement for an id, by each `SaveChanges`, and by `transaction.Commit`. */
  datatype Environment = Environment(
    lockFailures: map<Guid, Failure>,
    preInsertSave: Option<Failure>,
    missingSave: Option<Failure>,
    finalSave: Option<Failure>,
    commitFailure: Option<Failure>)

  /** The observable steps of one repository call, in order. */
  datatype Event =
    | Began                      // BeginTransaction
    | Locked(id: Guid)           // the UPDLOCK, ROWLOCK select
    | LookedUp(id: Guid)         // SingleOrDefault on the correlation id
    | CalledMissing              // policy.Missing
    | CalledExisting(saga: Saga) // policy.Existing with this instance
    | Committed                  // transaction.Commit
    | RolledBack                 // transaction.Rollback

  datatype Outcome = Succeeded | Threw(failure: Failure)

  /** Rows keyed by their own correlation id: at most one live instance per id. */
  ghost predicate KeyedById(m: map<Guid, Saga>) {
    forall id :: id in m ==> m[id].correlationId == id
  }

  // ---------------------------------------------------------------------------------------
  // The database, as a value, and its operations
  // ---------------------------------------------------------------------------------------

  /** Committed rows, the rows the open transaction sees, and the inserts tracked for the next save. */
  datatype DbState = DbState(
    committed: map<Guid, Saga>,
    working: map<Guid, Saga>,
    pending: map<Guid, Saga>,
    inTransaction: bool)

  ghost predicate WellKeyed(db: DbState) {
    KeyedById(db.committed) && KeyedById(db.working) && KeyedById(db.pending)
  }

  function Begin(db: DbState): DbState {
    db.(working := db.committed, pending := map[], inTransaction := true)
  }

  /** `SingleOrDefault(x => x.CorrelationId == id)` inside the transaction. */
  function Find(db: DbState, id: Guid): Option<Saga> {
    if id in db.working then Some(db.working[id]) else None
  }

  /** `Set<TSaga>().Add(saga)`: tracked for insertion by the next save. */
  function AddRow(db: DbState, s: Saga): DbState {
    db.(pending := db.pending[s.correlationId := s])
  }

  /** A change the handler made to a tracked instance: to its insert when one is still pending, otherwise to its row. */
  function UpdateRow(db: DbState, s: Saga): DbState {
    if s.correlationId in db.pending then db.(pending := db.pending[s.correlationId := s])
    else db.(working := db.working[s.correlationId := s])
  }

  /** The deletion a completed tracked instance causes; removing an instance still pending for insertion only detaches it. */
  function RemoveRow(db: DbState, id: Guid): DbState {
    if id in db.pending then db.(pending := db.pending - {id})
    else db.(working := db.working - {id})
  }

  /** The failure (if any) of one step, and the database after it. */
  datatype Step = Step(failure: Option<Failure>, db: DbState)

  /**
   * `SaveChanges`: fails with the failure the database reports, or with a primary-key
   * violation when a tracked insert collides with a row; otherwise writes the inserts.
   * A failed save changes nothing: its inserts stay tracked for the next save.
   */
  function Save(db: DbState, reported: Option<Failure>): (r: Step)
    ensures r.failure.None? <==> reported.None? && db.pending.Keys !! db.working.Keys
    ensures r.failure.None? ==> r.db == db.(working := db.working + db.pending, pending := map[])
    ensures r.failure.Some? ==> r.db == db
  {
    if reported.Some? then Step(reported, db)
    else if !(db.pending.Keys !! db.working.Keys) then Step(Some(DbUpdate(SqlError(DuplicateKeyNumber))), db)
    else Step(None, db.(working := db.working + db.pending, pending := map[]))
  }

  function CommitTx(db: DbState): DbState {
    db.(committed := db.working, pending := map[], inTransaction := false)
  }

  /** An explicit `Rollback`, or the implicit one when the `using` block disposes an uncommitted transaction. */
  function RollbackTx(db: DbState): DbState {
    db.(working := db.committed, pending := map[], inTransaction := false)
  }

  // ---------------------------------------------------------------------------------------
  // The repository's steps, as functions
  // ---------------------------------------------------------------------------------------

  datatype PreInserted = PreInserted(inserted: bool, db: DbState)

  /**
   * `PreInsertSagaInstance`: add and save; any failure is swallowed and reported as `false`.
   * It reports `true` exactly when there is an instance, the save reports no failure and no
   * tracked insert collides with a row; the instance is then one of the transaction's rows.
   * A failed insert leaves the rows alone and stays tracked, as Entity Framework keeps it.
   */
  function PreInsert(db: DbState, instance: Option<Saga>, reported: Option<Failure>): (r: PreInserted)
    ensures r.inserted <==> instance.Some? && reported.None?
                            && instance.value.correlationId !in db.working && db.pending.Keys !! db.working.Keys
    ensures r.inserted ==> r.db.working == db.working + db.pending[instance.value.correlationId := instance.value]
                           && r.db.pending == map[]
    ensures !r.inserted ==> r.db.working == db.working
    ensures !r.inserted && instance.Some? ==> r.db.pending == db.pending[instance.value.correlationId := instance.value]
    ensures r.db.committed == db.committed && r.db.inTransaction == db.inTransaction
  {
    if instance.None? then PreInserted(false, db)   // AddRow(null) throws ArgumentNullException
    else
      var saved := Save(AddRow(db, instance.value), reported);
      PreInserted(saved.failure.None?, saved.db)
  }

  /** `MissingPipe.Send`: run the handler, add the saga unless it was marked completed, then save. */
  function MissingPipeSend(db: DbState, instance: Saga, next: Handler, reported: Option<Failure>): Step {
    match next(instance)
    case HandlerFailed(f) => Step(Some(f), db)
    case Handled(state, completed) =>
      var s := Saga(instance.correlationId, state);
      Save(if completed then db else AddRow(db, s), reported)
  }

  /** `policy.Missing(context, missingPipe)`. */
  function PolicyMissing(db: DbState, action: MissingAction, next: Handler, reported: Option<Failure>): Step {
    match action
    case Ignore => Step(None, db)
    case Reject(f) => Step(Some(f), db)
    case SendNew(s) => MissingPipeSend(db, s, next, reported)
  }

  /** `policy.Existing(sagaConsumeContext, next)`: the handler's change updates the row, completion deletes it. */
  function PolicyExisting(db: DbState, instance: Saga, next: Handler): Step {
    match next(instance)
    case HandlerFailed(f) => Step(Some(f), db)
    case Handled(state, completed) =>
      Step(None, if completed then RemoveRow(db, instance.correlationId)
                 else UpdateRow(db, Saga(instance.correlationId, state)))
  }

  /** `SendToInstance`: a SagaException passes through, any other failure is wrapped with the instance's id. */
  function SendToInstance(db: DbState, instance: Saga, next: Handler): (r: Step)
    ensures r.failure.Some? ==> r.failure.value.SagaFault?
  {
    var step := PolicyExisting(db, instance, next);
    match step.failure
    case None => step
    case Some(f) =>
      Step(Some(if f.SagaFault? then f else SagaFault(Some(instance.correlationId), Some(f))), step.db)
  }

  /** What `SendQuery`'s catch blocks rethrow: everything but an unclassified failure as is, that one wrapped with `Guid.Empty`. */
  function QueryRethrown(f: Failure): (g: Failure)
    ensures g.DbUpdateConcurrency? || g.DbUpdate? || g.SagaFault?
  {
    if f.DbUpdateConcurrency? || f.DbUpdate? || f.SagaFault? then f
    else SagaFault(Some(EmptyGuid), Some(f))
  }

  /** The result of a repository call: outcome, final database, and the steps taken. */
  datatype Run = Run(outcome: Outcome, db: DbState, events: seq<Event>)

  /**
   * The failure of the `try` block, if any, once the final `SaveChanges` and then
   * `transaction.Commit` have run; a commit that fails reaches the same catch blocks.
   */
  function Saved(step: Step, env: Environment): Step {
    if step.failure.Some? then step
    else
      var saved := Save(step.db, env.finalSave);
      if saved.failure.None? && env.commitFailure.Some? then Step(env.commitFailure, saved.db) else saved
  }

  /** What closes the transaction: a commit, an explicit rollback, or nothing for a deadlock. */
  function Closing(saved: Step): seq<Event> {
    match saved.failure
    case None => [Committed]
    case Some(f) => if RollsBack(f) then [RolledBack] else []
  }

  /**
   * The end of the `try` block and the catch blocks: commit when everything succeeded;
   * otherwise roll back unless deadlocked and throw. Disposal discards an uncommitted
   * transaction either way.
   */
  function FinishTry(step: Step, events: seq<Event>, env: Environment, query: bool): Run {
    var saved := Saved(step, env);
    match saved.failure
    case None => Run(Succeeded, CommitTx(saved.db), events + Closing(saved))
    case Some(f) => Run(Threw(if query then QueryRethrown(f) else f), RollbackTx(saved.db), events + Closing(saved))
  }

  lemma FinishTryEvents(step: Step, events: seq<Event>, env: Environment, query: bool)
    ensures FinishTry(step, events, env, query).events == events + Closing(Saved(step, env))
  {
  }

  /**
   * The end of the `try` block closes the transaction once. It succeeds exactly when the block
   * did and the save and the commit report nothing; then it adds one `Committed` and publishes
   * the transaction's rows with the tracked inserts. Otherwise it adds one `RolledBack`, or
   * nothing for a deadlock, and the committed rows stay as they were.
   */
  lemma FinishTryCloses(step: Step, events: seq<Event>, env: Environment, query: bool)
    ensures var r := FinishTry(step, events, env, query);
      !r.db.inTransaction
      && (r.outcome.Succeeded? <==> step.failure.None? && env.finalSave.None? && env.commitFailure.None?
                                    && step.db.pending.Keys !! step.db.working.Keys)
      && (r.outcome.Succeeded? ==>
            r.events == events + [Committed] && r.db.committed == step.db.working + step.db.pending)
      && (r.outcome.Threw? ==>
            r.events == events + (if RollsBack(r.outcome.failure) then [RolledBack] else [])
            && r.db.committed == step.db.committed)
  {
    var saved := Saved(step, env);
    if saved.failure.Some? {
      assert RollsBack(QueryRethrown(saved.failure.value)) == RollsBack(saved.failure.value);
    }
  }

  datatype Resolved = Resolved(db: DbState, instance: Option<Saga>, events: seq<Event>)

  /**
   * The pre-insert shortcut as written: the instance the policy supplies is used whether or not
   * its insert succeeded; only when it supplies none is the row looked up.
   */
  function ResolveInstance(db: DbState, id: Guid, policy: Policy, env: Environment): Resolved {
    var pre := policy.preInsert;
    var db1 := if pre.accepted then PreInsert(db, pre.instance, env.preInsertSave).db else db;
    if pre.instance.Some? then Resolved(db1, pre.instance, [])
    else Resolved(db1, Find(db1, id), [LookedUp(id)])
  }

  /** The one policy method `Send` calls: `Existing` when there is an instance, `Missing` otherwise. */
  function PolicyCall(r: Resolved): Event {
    if r.instance.Some? then CalledExisting(r.instance.value) else CalledMissing
  }

  function DispatchStep(r: Resolved, policy: Policy, next: Handler, env: Environment): Step {
    match r.instance
    case None => PolicyMissing(r.db, policy.missing, next, env.missingSave)
    case Some(s) => PolicyExisting(r.db, s, next)
  }

  /** The events of `Send` up to and including the row lock. */
  function Opening(id: Guid, optimistic: bool): seq<Event> {
    [Began] + (if optimistic then [] else [Locked(id)])
  }

  /** `Send`, as written. */
  function SendRun(db: DbState, optimistic: bool, correlationId: Option<Guid>, policy: Policy,
                   next: Handler, env: Environment): Run
  {
    if correlationId.None? then Run(Threw(SagaFault(None, None)), db, [])
    else
      var id := correlationId.value;
      var begun := Begin(db);
      if !optimistic && id in env.lockFailures then
        // the lock statement is outside the try block: no catch block runs
        Run(Threw(env.lockFailures[id]), RollbackTx(begun), Opening(id, optimistic))
      else
        var r := ResolveInstance(begun, id, policy, env);
        FinishTry(DispatchStep(r, policy, next, env), Opening(id, optimistic) + r.events + [PolicyCall(r)], env, false)
  }

  /** The state of `SendQuery`'s `foreach` loop. */
  datatype LoopState = LoopState(failure: Option<Failure>, db: DbState, missing: seq<Guid>, events: seq<Event>)

  /** The events of one iteration of the `foreach`: the lock, then the lookup and the `Existing` call it leads to. */
  function IterationEvents(db: DbState, optimistic: bool, id: Guid, env: Environment): seq<Event> {
    (if optimistic then [] else [Locked(id)])
    + if !optimistic && id in env.lockFailures then []
      else [LookedUp(id)] + if Find(db, id).Some? then [CalledExisting(Find(db, id).value)] else []
  }

  /** One iteration of the `foreach`: lock, look up, then `SendToInstance` or remember the id as missing. */
  function QueryStep(s: LoopState, optimistic: bool, id: Guid, next: Handler, env: Environment): LoopState {
    if s.failure.Some? then s
    else
      var events := s.events + IterationEvents(s.db, optimistic, id, env);
      if !optimistic && id in env.lockFailures then s.(failure := Some(env.lockFailures[id]), events := events)
      else
        match Find(s.db, id)
        case None => s.(missing := s.missing + [id], events := events)
        case Some(instance) =>
          var step := SendToInstance(s.db, instance, next);
          LoopState(step.failure, step.db, s.missing, events)
  }

  /** The loop over the first `|ids|` ids, as a left fold; a failure ends it. */
  function QueryLoop(db: DbState, optimistic: bool, ids: seq<Guid>, next: Handler, env: Environment): LoopState
    decreases |ids|
  {
    if ids == [] then LoopState(None, db, [], [])
    else QueryStep(QueryLoop(db, optimistic, ids[..|ids| - 1], next, env), optimistic, ids[|ids| - 1], next, env)
  }

  /** `Missing` runs after the loop when every id was missing, which includes a query that matched nothing. */
  predicate CallsMissing(loop: LoopState, ids: seq<Guid>) {
    loop.failure.None? && |ids| == |loop.missing|
  }

  function AfterLoop(loop: LoopState, ids: seq<Guid>, policy: Policy, next: Handler, env: Environment): Step {
    if CallsMissing(loop, ids) then PolicyMissing(loop.db, policy.missing, next, env.missingSave)
    else Step(loop.failure, loop.db)
  }

  /** `SendQuery`: the ids come from the query, run outside the transaction. */
  function SendQueryRun(db: DbState, optimistic: bool, ids: seq<Guid>, policy: Policy,
                        next: Handler, env: Environment): Run
  {
    var loop := QueryLoop(Begin(db), optimistic, ids, next, env);
    FinishTry(AfterLoop(loop, ids, policy, next, env),
              [Began] + loop.events + (if CallsMissing(loop, ids) then [CalledMissing] else []), env, true)
  }

  // ---------------------------------------------------------------------------------------
  // Properties of Send
  // ---------------------------------------------------------------------------------------

  predicate IsPolicyCall(e: Event) { e == CalledMissing || e.CalledExisting? }
  predicate IsMissingCall(e: Event) { e == CalledMissing }
  predicate IsExistingCall(e: Event) { e.CalledExisting? }
  predicate IsLock(e: Event) { e.Locked? }
  predicate IsLookup(e: Event) { e.LookedUp? }

  /** Without a correlation id, `Send` throws a SagaException before any transaction is opened, and changes nothing. */
  lemma SendWithoutCorrelationId(db: DbState, optimistic: bool, policy: Policy, next: Handler, env: Environment)
    ensures SendRun(db, optimistic, None, policy, next, env) == Run(Threw(SagaFault(None, None)), db, [])
  {
  }

  /** The closing events are a commit or a rollback. */
  lemma ClosingIsInvisible(saved: Step, p: Event -> bool)
    requires !p(Committed) && !p(RolledBack)
    ensures Filter(Closing(saved), p) == []
  {
  }

  /** The events of a `Send` that gets past the lock, seen through a filter that ignores the transaction's own events. */
  lemma {:induction false} SendEventsFiltered(db: DbState, optimistic: bool, id: Guid, policy: Policy,
                                              next: Handler, env: Environment, p: Event -> bool)
    requires optimistic || id !in env.lockFailures
    requires !p(Began) && !p(Committed) && !p(RolledBack)
    ensures var r := ResolveInstance(Begin(db), id, policy, env);
      Filter(SendRun(db, optimistic, Some(id), policy, next, env).events, p)
        == Filter(if optimistic then [] else [Locked(id)], p) + Filter(r.events, p) + Filter([PolicyCall(r)], p)
  {
    var r := ResolveInstance(Begin(db), id, policy, env);
    var lock := if optimistic then [] else [Locked(id)];
    var saved := Saved(DispatchStep(r, policy, next, env), env);
    var before := Opening(id, optimistic) + r.events + [PolicyCall(r)];
    assert SendRun(db, optimistic, Some(id), policy, next, env) == FinishTry(DispatchStep(r, policy, next, env), before, env, false);
    FinishTryEvents(DispatchStep(r, policy, next, env), before, env, false);
    FilterConcat(before, Closing(saved), p);
    ClosingIsInvisible(saved, p);
    FilterConcat(Opening(id, optimistic) + r.events, [PolicyCall(r)], p);
    FilterConcat(Opening(id, optimistic), r.events, p);
    FilterConcat([Began], lock, p);
  }

  /** When it gets past the lock, `Send` calls exactly one of `Missing` and `Existing`: `Existing` exactly when an instance is supplied or found. */
  lemma SendCallsExactlyOnePolicyMethod(db: DbState, optimistic: bool, id: Guid, policy: Policy,
                                        next: Handler, env: Environment)
    requires optimistic || id !in env.lockFailures
    ensures var r := ResolveInstance(Begin(db), id, policy, env);
      Filter(SendRun(db, optimistic, Some(id), policy, next, env).events, IsPolicyCall)
        == if r.instance.Some? then [CalledExisting(r.instance.value)] else [CalledMissing]
  {
    SendEventsFiltered(db, optimistic, id, policy, next, env, IsPolicyCall);
  }

  /** When the policy supplies an instance, `Send` never looks the row up and hands that instance to `Existing`, whether or not its insert succeeded. */
  lemma PreInsertShortcut(db: DbState, optimistic: bool, id: Guid, policy: Policy, next: Handler, env: Environment)
    requires optimistic || id !in env.lockFailures
    requires policy.preInsert.instance.Some?
    ensures var events := SendRun(db, optimistic, Some(id), policy, next, env).events;
      Filter(events, IsLookup) == [] && Filter(events, IsPolicyCall) == [CalledExisting(policy.preInsert.instance.value)]
  {
    SendEventsFiltered(db, optimistic, id, policy, next, env, IsLookup);
    SendEventsFiltered(db, optimistic, id, policy, next, env, IsPolicyCall);
  }

  /** A failed pre-insert is swallowed: it reports `false`, leaves the transaction's rows as they were and keeps the instance tracked. */
  lemma FailedPreInsertIsSwallowed(db: DbState, s: Saga, reported: Option<Failure>)
    requires reported.Some? || s.correlationId in db.working
    ensures PreInsert(db, Some(s), reported) == PreInserted(false, AddRow(db, s))
  {
  }

  /** `MissingPipe` adds the saga after the handler runs if and only if the handler did not mark it completed. */
  lemma MissingPipeInsertsUnlessCompleted(db: DbState, s: Saga, next: Handler, state: int, completed: bool)
    requires db.pending == map[] && s.correlationId !in db.working
    requires next(s) == Handled(state, completed)
    ensures var r := MissingPipeSend(db, s, next, None);
      r.failure.None?
      && r.db.working == if completed then db.working else db.working[s.correlationId := Saga(s.correlationId, state)]
  {
    if !completed {
      assert db.working + map[s.correlationId := Saga(s.correlationId, state)]
             == db.working[s.correlationId := Saga(s.correlationId, state)];
    }
  }

  /** Nothing before the commit changes the committed rows. */
  lemma DispatchKeepsCommitted(db: DbState, id: Guid, policy: Policy, next: Handler, env: Environment)
    ensures var r := ResolveInstance(Begin(db), id, policy, env);
      Saved(DispatchStep(r, policy, next, env), env).db.committed == db.committed
  {
  }

  /** Commit happens exactly when `Send` succeeds; the committed rows change only then, and the transaction is closed either way. */
  lemma SendCommitsOnlyOnSuccess(db: DbState, optimistic: bool, correlationId: Option<Guid>, policy: Policy,
                                 next: Handler, env: Environment)
    requires !db.inTransaction
    ensures var r := SendRun(db, optimistic, correlationId, policy, next, env);
      !r.db.inTransaction
      && (Committed in r.events <==> r.outcome.Succeeded?)
      && (r.outcome.Threw? ==> r.db.committed == db.committed)
      && (r.outcome.Succeeded? ==> env.finalSave.None? && env.commitFailure.None?)
  {
    if correlationId.Some? {
      var id := correlationId.value;
      if optimistic || id !in env.lockFailures {
        var r := ResolveInstance(Begin(db), id, policy, env);
        var before := Opening(id, optimistic) + r.events + [PolicyCall(r)];
        assert Committed !in before;
        var saved := Saved(DispatchStep(r, policy, next, env), env);
        assert SendRun(db, optimistic, correlationId, policy, next, env) == FinishTry(DispatchStep(r, policy, next, env), before, env, false);
        FinishTryEvents(DispatchStep(r, policy, next, env), before, env, false);
        DispatchKeepsCommitted(db, id, policy, next, env);
      }
    }
  }

  /** A failure inside the `try` block of `Send` is rethrown unchanged, after a rollback unless it is a deadlock. */
  lemma SendRethrowsUnchanged(db: DbState, optimistic: bool, id: Guid, policy: Policy, next: Handler, env: Environment)
    requires optimistic || id !in env.lockFailures
    ensures var r := ResolveInstance(Begin(db), id, policy, env);
      var saved := Saved(DispatchStep(r, policy, next, env), env);
      var run := SendRun(db, optimistic, Some(id), policy, next, env);
      saved.failure.Some? ==>
        run.outcome == Threw(saved.failure.value)
        && (RolledBack in run.events <==> RollsBack(saved.failure.value))
  {
    var r := ResolveInstance(Begin(db), id, policy, env);
    assert RolledBack !in Opening(id, optimistic) + r.events + [PolicyCall(r)];
  }

  /** A lock statement that fails in `Send` propagates without reaching a catch block: no explicit rollback, nothing committed. */
  lemma SendLockFailurePropagates(db: DbState, id: Guid, policy: Policy, next: Handler, env: Environment)
    requires id in env.lockFailures
    ensures SendRun(db, false, Some(id), policy, next, env)
            == Run(Threw(env.lockFailures[id]), RollbackTx(Begin(db)), [Began, Locked(id)])
  {
  }

  /** The row lock is taken only in pessimistic mode, once, for the message's correlation id. */
  lemma SendLocksOnlyWhenPessimistic(db: DbState, optimistic: bool, id: Guid, policy: Policy,
                                     next: Handler, env: Environment)
    ensures Filter(SendRun(db, optimistic, Some(id), policy, next, env).events, IsLock)
            == if optimistic then [] else [Locked(id)]
  {
    if optimistic || id !in env.lockFailures {
      SendEventsFiltered(db, optimistic, id, policy, next, env, IsLock);
    } else {
      FilterConcat([Began], [Locked(id)], IsLock);
    }
  }

  lemma SaveKeepsKeyed(db: DbState, reported: Option<Failure>)
    requires WellKeyed(db)
    ensures WellKeyed(Save(db, reported).db)
  {
  }

  lemma DispatchKeepsKeyed(db: DbState, id: Guid, policy: Policy, next: Handler, env: Environment)
    requires WellKeyed(db)
    ensures var r := ResolveInstance(Begin(db), id, policy, env);
      WellKeyed(r.db) && WellKeyed(Saved(DispatchStep(r, policy, next, env), env).db)
  {
    var b := Begin(db);
    if policy.preInsert.accepted && policy.preInsert.instance.Some? {
      SaveKeepsKeyed(AddRow(b, policy.preInsert.instance.value), env.preInsertSave);
    }
    var r := ResolveInstance(b, id, policy, env);
    var step := DispatchStep(r, policy, next, env);
    match r.instance
    case None =>
      if policy.missing.SendNew? {
        var s := policy.missing.instance;
        if next(s).Handled? {
          SaveKeepsKeyed(if next(s).completed then r.db else AddRow(r.db, Saga(s.correlationId, next(s).state)), env.missingSave);
        }
      }
      if step.failure.None? {
        SaveKeepsKeyed(step.db, env.finalSave);
      }
    case Some(s) =>
      if step.failure.None? {
        SaveKeepsKeyed(step.db, env.finalSave);
      }
  }

  /** The rows stay keyed by their correlation id through `Send`: at most one live instance per id. */
  lemma SendKeepsRowsKeyed(db: DbState, optimistic: bool, correlationId: Option<Guid>, policy: Policy,
                           next: Handler, env: Environment)
    requires WellKeyed(db)
    ensures WellKeyed(SendRun(db, optimistic, correlationId, policy, next, env).db)
  {
    if correlationId.Some? && (optimistic || correlationId.value !in env.lockFailures) {
      DispatchKeepsKeyed(db, correlationId.value, policy, next, env);
    }
  }

  /** The database reports no failure for a `Send` of `id`: not for the lock, nor for the missing-instance save, the final save or the commit. */
  predicate NoDatabaseFailure(env: Environment, optimistic: bool, id: Guid) {
    (optimistic || id !in env.lockFailures)
    && env.missingSave.None? && env.finalSave.None? && env.commitFailure.None?
  }

  /**
   * A message for an id with no row, whose policy supplies no instance and creates one for
   * that id, and whose handler does not complete it, leaves exactly that new row after commit.
   */
  lemma NewSagaIsStored(db: DbState, id: Guid, optimistic: bool, policy: Policy, next: Handler, env: Environment, state: int)
    requires id !in db.committed
    requires policy.preInsert.instance.None? && policy.missing.SendNew? && policy.missing.instance.correlationId == id
    requires next(policy.missing.instance) == Handled(state, false)
    requires NoDatabaseFailure(env, optimistic, id)
    ensures var r := SendRun(db, optimistic, Some(id), policy, next, env);
      r.outcome.Succeeded? && r.db.committed == db.committed[id := Saga(id, state)]
  {
    var r := ResolveInstance(Begin(db), id, policy, env);
    assert r == Resolved(Begin(db), None, [LookedUp(id)]);
    MissingPipeInsertsUnlessCompleted(Begin(db), policy.missing.instance, next, state, false);
  }

  /** ... and if the handler marks the new saga completed, no row is stored. */
  lemma CompletedNewSagaIsNotStored(db: DbState, id: Guid, optimistic: bool, policy: Policy, next: Handler, env: Environment, state: int)
    requires id !in db.committed
    requires policy.preInsert.instance.None? && policy.missing.SendNew? && policy.missing.instance.correlationId == id
    requires next(policy.missing.instance) == Handled(state, true)
    requires NoDatabaseFailure(env, optimistic, id)
    ensures var r := SendRun(db, optimistic, Some(id), policy, next, env);
      r.outcome.Succeeded? && r.db.committed == db.committed
  {
    var r := ResolveInstance(Begin(db), id, policy, env);
    assert r == Resolved(Begin(db), None, [LookedUp(id)]);
    MissingPipeInsertsUnlessCompleted(Begin(db), policy.missing.instance, next, state, true);
  }

  /** A later message for a stored saga, with no instance supplied, whose handler marks it completed deletes the row on commit. */
  lemma CompletedExistingSagaIsDeleted(db: DbState, id: Guid, optimistic: bool, policy: Policy, next: Handler, env: Environment, state: int)
    requires KeyedById(db.committed) && id in db.committed
    requires policy.preInsert.instance.None?
    requires next(db.committed[id]) == Handled(state, true)
    requires NoDatabaseFailure(env, optimistic, id)
    ensures var r := SendRun(db, optimistic, Some(id), policy, next, env);
      r.outcome.Succeeded? && r.db.committed == db.committed - {id}
  {
    var r := ResolveInstance(Begin(db), id, policy, env);
    assert r == Resolved(Begin(db), Some(db.committed[id]), [LookedUp(id)]);
    assert DispatchStep(r, policy, next, env) == Step(None, RemoveRow(Begin(db), id));
  }

  // ---------------------------------------------------------------------------------------
  // Properties of SendQuery
  // ---------------------------------------------------------------------------------------

  /** Once an iteration fails, the loop stops: later ids are not processed. */
  lemma {:induction false} QueryLoopStopsAtFailure(db: DbState, optimistic: bool, ids: seq<Guid>, j: nat,
                                                   next: Handler, env: Environment)
    requires j <= |ids|
    requires QueryLoop(db, optimistic, ids[..j], next, env).failure.Some?
    ensures QueryLoop(db, optimistic, ids, next, env) == QueryLoop(db, optimistic, ids[..j], next, env)
    decreases |ids|
  {
    if j < |ids| {
      var init := ids[..|ids| - 1];
      assert init[..j] == ids[..j];
      QueryLoopStopsAtFailure(db, optimistic, init, j, next, env);
    } else {
      assert ids[..j] == ids;
    }
  }

  /** The lock statements of a whole query: one per id, in query order. */
  function LockEvents(ids: seq<Guid>): (r: seq<Event>)
    ensures |r| == |ids| && forall i :: 0 <= i < |ids| ==> r[i] == Locked(ids[i])
  {
    if ids == [] then [] else [Locked(ids[0])] + LockEvents(ids[1..])
  }

  lemma LockEventsSnoc(ids: seq<Guid>, id: Guid)
    ensures LockEvents(ids + [id]) == LockEvents(ids) + [Locked(id)]
  {
  }

  /** What one iteration's events contain: its lock, and an `Existing` call exactly when the row was found. */
  lemma IterationEventsContents(db: DbState, optimistic: bool, id: Guid, env: Environment)
    requires optimistic || id !in env.lockFailures
    ensures var events := IterationEvents(db, optimistic, id, env);
      Filter(events, IsLock) == (if optimistic then [] else [Locked(id)])
      && Filter(events, IsPolicyCall) == (if Find(db, id).Some? then [CalledExisting(Find(db, id).value)] else [])
      && CalledMissing !in events
  {
    var lock := if optimistic then [] else [Locked(id)];
    var call := if Find(db, id).Some? then [CalledExisting(Find(db, id).value)] else [];
    assert IterationEvents(db, optimistic, id, env) == lock + ([LookedUp(id)] + call);
    assert CalledMissing !in lock && CalledMissing !in [LookedUp(id)] + call;
    assert Filter(lock, IsPolicyCall) == [] && Filter(lock, IsLock) == lock;
    assert Filter([LookedUp(id)] + call, IsLock) == [] by {
      FilterConcat([LookedUp(id)], call, IsLock);
    }
    assert Filter([LookedUp(id)] + call, IsPolicyCall) == call by {
      FilterConcat([LookedUp(id)], call, IsPolicyCall);
    }
    FilterConcat(lock, [LookedUp(id)] + call, IsLock);
    FilterConcat(lock, [LookedUp(id)] + call, IsPolicyCall);
  }

  /** One successful iteration accounts for its id once: as missing or as an `Existing` call, after its lock. */
  lemma QueryStepAccounts(s: LoopState, optimistic: bool, id: Guid, next: Handler, env: Environment)
    requires s.failure.None?
    ensures var t := QueryStep(s, optimistic, id, next, env);
      t.failure.None? ==>
        |t.missing| + |Filter(t.events, IsPolicyCall)| == |s.missing| + |Filter(s.events, IsPolicyCall)| + 1
        && (CalledMissing in t.events <==> CalledMissing in s.events)
        && Filter(t.events, IsLock) == Filter(s.events, IsLock) + (if optimistic then [] else [Locked(id)])
  {
    var t := QueryStep(s, optimistic, id, next, env);
    if t.failure.None? {
      var events := IterationEvents(s.db, optimistic, id, env);
      assert t.events == s.events + events;
      IterationEventsContents(s.db, optimistic, id, env);
      FilterConcat(s.events, events, IsPolicyCall);
      FilterConcat(s.events, events, IsLock);
    }
  }

  /** Without a failure, every id is either remembered as missing or handed to `Existing`, and locked in query order. */
  lemma {:induction false} QueryLoopAccounts(db: DbState, optimistic: bool, ids: seq<Guid>, next: Handler, env: Environment)
    ensures var s := QueryLoop(db, optimistic, ids, next, env);
      s.failure.None? ==>
        |s.missing| + |Filter(s.events, IsPolicyCall)| == |ids|
        && CalledMissing !in s.events
        && Filter(s.events, IsLock) == (if optimistic then [] else LockEvents(ids))
    decreases |ids|
  {
    if ids != [] {
      var init := ids[..|ids| - 1];
      var id := ids[|ids| - 1];
      QueryLoopAccounts(db, optimistic, init, next, env);
      assert ids == init + [id];
      LockEventsSnoc(init, id);
      var prev := QueryLoop(db, optimistic, init, next, env);
      if prev.failure.None? {
        QueryStepAccounts(prev, optimistic, id, next, env);
      }
    }
  }

  /** With `CalledMissing` absent, the policy calls are exactly the `Existing` calls. */
  lemma {:induction false} PolicyCallsSplit(events: seq<Event>)
    ensures CalledMissing !in events ==>
      Filter(events, IsPolicyCall) == Filter(events, IsExistingCall) && Filter(events, IsMissingCall) == []
  {
    if events != [] {
      PolicyCallsSplit(events[1..]);
    }
  }

  /**
   * `SendQuery` calls `Missing` once if every id was missing (also when the query matched
   * nothing), and not at all if some id was handed to `Existing`.
   */
  lemma {:induction false} QueryCallsMissingIffAllMissing(db: DbState, optimistic: bool, ids: seq<Guid>, policy: Policy,
                                                          next: Handler, env: Environment)
    requires QueryLoop(Begin(db), optimistic, ids, next, env).failure.None?
    ensures var events := SendQueryRun(db, optimistic, ids, policy, next, env).events;
      |Filter(events, IsMissingCall)| == (if Filter(events, IsExistingCall) == [] then 1 else 0)
  {
    var loop := QueryLoop(Begin(db), optimistic, ids, next, env);
    QueryLoopAccounts(Begin(db), optimistic, ids, next, env);
    PolicyCallsSplit(loop.events);
    var call := if CallsMissing(loop, ids) then [CalledMissing] else [];
    var before := [Began] + loop.events + call;
    var saved := Saved(AfterLoop(loop, ids, policy, next, env), env);
    assert SendQueryRun(db, optimistic, ids, policy, next, env) == FinishTry(AfterLoop(loop, ids, policy, next, env), before, env, true);
    FinishTryEvents(AfterLoop(loop, ids, policy, next, env), before, env, true);
    FilterConcat(before, Closing(saved), IsMissingCall);
    FilterConcat(before, Closing(saved), IsExistingCall);
    ClosingIsInvisible(saved, IsMissingCall);
    ClosingIsInvisible(saved, IsExistingCall);
    FilterConcat([Began] + loop.events, call, IsMissingCall);
    FilterConcat([Began] + loop.events, call, IsExistingCall);
    FilterConcat([Began], loop.events, IsMissingCall);
    FilterConcat([Began], loop.events, IsExistingCall);
  }

  /** In pessimistic mode `SendQuery` locks each id once, in query order, before looking it up. */
  lemma QueryLocksEachIdInOrder(db: DbState, ids: seq<Guid>, next: Handler, env: Environment)
    ensures var s := QueryLoop(Begin(db), false, ids, next, env);
      s.failure.None? ==> Filter(s.events, IsLock) == LockEvents(ids)
  {
    QueryLoopAccounts(Begin(db), false, ids, next, env);
  }

  /** What `SendQuery` throws is always a DbUpdate, concurrency or Saga exception: any other failure gets wrapped. */
  lemma QueryThrowsOnlyClassifiedFailures(db: DbState, optimistic: bool, ids: seq<Guid>, policy: Policy,
                                          next: Handler, env: Environment)
    ensures var r := SendQueryRun(db, optimistic, ids, policy, next, env);
      r.outcome.Threw? ==>
        r.outcome.failure.DbUpdateConcurrency? || r.outcome.failure.DbUpdate? || r.outcome.failure.SagaFault?
  {
  }

  /** The `foreach` works inside the transaction: it never changes the committed rows. */
  lemma {:induction false} QueryLoopKeepsCommitted(db: DbState, optimistic: bool, ids: seq<Guid>, next: Handler, env: Environment)
    ensures QueryLoop(db, optimistic, ids, next, env).db.committed == db.committed
    decreases |ids|
  {
    if ids != [] {
      QueryLoopKeepsCommitted(db, optimistic, ids[..|ids| - 1], next, env);
    }
  }

  /**
   * An unclassified failure of `Missing` in `SendQuery` is wrapped as a SagaException with
   * `Guid.Empty`, after a rollback: for the empty query and for any query whose ids were all missing.
   */
  lemma QueryWrapsMissingFailure(db: DbState, optimistic: bool, ids: seq<Guid>, policy: Policy, next: Handler,
                                 env: Environment, d: string)
    requires policy.missing == Reject(OtherFailure(d))
    requires CallsMissing(QueryLoop(Begin(db), optimistic, ids, next, env), ids)
    ensures var r := SendQueryRun(db, optimistic, ids, policy, next, env);
      var loop := QueryLoop(Begin(db), optimistic, ids, next, env);
      r.outcome == Threw(SagaFault(Some(EmptyGuid), Some(OtherFailure(d))))
      && r.events == [Began] + loop.events + [CalledMissing, RolledBack]
      && r.db.committed == db.committed
  {
    var loop := QueryLoop(Begin(db), optimistic, ids, next, env);
    QueryLoopKeepsCommitted(Begin(db), optimistic, ids, next, env);
    var step := AfterLoop(loop, ids, policy, next, env);
    assert step == Step(Some(OtherFailure(d)), loop.db);
    FinishTryCloses(step, [Began] + loop.events + [CalledMissing], env, true);
  }

  /** `SendToInstance` wraps a handler failure with the instance's id, and passes a SagaException through. */
  lemma SendToInstanceWrapping(db: DbState, instance: Saga, next: Handler, f: Failure)
    requires next(instance) == HandlerFailed(f)
    ensures SendToInstance(db, instance, next).failure
            == Some(if f.SagaFault? then f else SagaFault(Some(instance.correlationId), Some(f)))
  {
  }

  // ---------------------------------------------------------------------------------------
  // Finding: the result of the pre-insert is never read
  // ---------------------------------------------------------------------------------------

  /**
   * As written, a pre-insert that fails because the row already exists does not lead to a
   * lookup: `Existing` receives the policy's instance instead of the stored saga.
   */
  lemma PreInsertConflictSkipsStoredRow(db: DbState, optimistic: bool, stored: Saga, supplied: Saga,
                                        next: Handler, env: Environment)
    requires optimistic || supplied.correlationId !in env.lockFailures
    requires supplied.correlationId in db.committed && db.committed[supplied.correlationId] == stored && stored != supplied
    ensures var policy := Policy(PreInsertAnswer(true, Some(supplied)), Ignore);
      var run := SendRun(db, optimistic, Some(supplied.correlationId), policy, next, env);
      !PreInsert(Begin(db), Some(supplied), env.preInsertSave).inserted
      && Filter(run.events, IsPolicyCall) == [CalledExisting(supplied)]
      && CalledExisting(stored) !in run.events
  {
    var policy := Policy(PreInsertAnswer(true, Some(supplied)), Ignore);
    PreInsertShortcut(db, optimistic, supplied.correlationId, policy, next, env);
    var events := SendRun(db, optimistic, Some(supplied.correlationId), policy, next, env).events;
    FilterMembership(events, IsPolicyCall, CalledExisting(stored));
    assert CalledExisting(stored) !in Filter(events, IsPolicyCall);
  }

  /**
   * What follows on that path: the failed insert stays tracked, so unless the handler
   * completes the instance (which only detaches it) the final save collides with the stored
   * row again and `Send` rolls back. The stored row survives in every case; the handler's
   * work on it is lost.
   */
  lemma PreInsertConflictKeepsStoredRow(db: DbState, optimistic: bool, supplied: Saga, missing: MissingAction,
                                        next: Handler, env: Environment)
    requires optimistic || supplied.correlationId !in env.lockFailures
    requires supplied.correlationId in db.committed
    ensures var policy := Policy(PreInsertAnswer(true, Some(supplied)), missing);
      var run := SendRun(db, optimistic, Some(supplied.correlationId), policy, next, env);
      run.db.committed == db.committed
      && (next(supplied).Handled? && !next(supplied).completed ==>
            run.outcome.Threw?
            && (env.finalSave.None? ==> run.outcome == Threw(DbUpdate(SqlError(DuplicateKeyNumber)))))
  {
    var id := supplied.correlationId;
    var policy := Policy(PreInsertAnswer(true, Some(supplied)), missing);
    var b := Begin(db);
    var r := ResolveInstance(b, id, policy, env);
    assert r.db == AddRow(b, supplied);
    var step := DispatchStep(r, policy, next, env);
    var before := Opening(id, optimistic) + r.events + [PolicyCall(r)];
    FinishTryCloses(step, before, env, false);
    match next(supplied)
    case HandlerFailed(f) =>
    case Handled(state, completed) =>
      if completed {
        assert step.db.working == db.committed && step.db.pending == map[];
        assert step.db.working + step.db.pending == db.committed;
      } else {
        assert id in step.db.pending && id in step.db.working;
        assert !(step.db.pending.Keys !! step.db.working.Keys);
      }
  }

  /**
   * The evident intent: use the supplied instance only when its insert succeeded; otherwise
   * detach the failed insert and look the row up.
   */
  function ResolveInstanceAsIntended(db: DbState, id: Guid, policy: Policy, env: Environment): Resolved {
    var pre := policy.preInsert;
    var attempt := PreInsert(db, pre.instance, env.preInsertSave);
    if pre.accepted && attempt.inserted then Resolved(attempt.db, pre.instance, [])
    else Resolved(db, Find(db, id), [LookedUp(id)])
  }

  /** `Send` with the intended pre-insert handling. */
  function SendRunAsIntended(db: DbState, optimistic: bool, correlationId: Option<Guid>, policy: Policy,
                             next: Handler, env: Environment): Run
  {
    if correlationId.None? then Run(Threw(SagaFault(None, None)), db, [])
    else
      var id := correlationId.value;
      var begun := Begin(db);
      if !optimistic && id in env.lockFailures then
        Run(Threw(env.lockFailures[id]), RollbackTx(begun), Opening(id, optimistic))
      else
        var r := ResolveInstanceAsIntended(begun, id, policy, env);
        FinishTry(DispatchStep(r, policy, next, env), Opening(id, optimistic) + r.events + [PolicyCall(r)], env, false)
  }

  /** With the intended handling, a pre-insert that loses to an existing row hands the stored saga to `Existing`, and the handler's change to it is committed. */
  lemma FailedPreInsertFallsBackToLookup(db: DbState, optimistic: bool, stored: Saga, supplied: Saga,
                                         next: Handler, env: Environment)
    requires optimistic || supplied.correlationId !in env.lockFailures
    requires KeyedById(db.committed)
    requires supplied.correlationId in db.committed && db.committed[supplied.correlationId] == stored
    ensures var policy := Policy(PreInsertAnswer(true, Some(supplied)), Ignore);
      var run := SendRunAsIntended(db, optimistic, Some(supplied.correlationId), policy, next, env);
      CalledExisting(stored) in run.events && LookedUp(supplied.correlationId) in run.events
      && (next(stored).Handled? && !next(stored).completed && env.finalSave.None? && env.commitFailure.None? ==>
            run.outcome.Succeeded?
            && run.db.committed == db.committed[supplied.correlationId := Saga(supplied.correlationId, next(stored).state)])
  {
    var id := supplied.correlationId;
    var policy := Policy(PreInsertAnswer(true, Some(supplied)), Ignore);
    var r := ResolveInstanceAsIntended(Begin(db), id, policy, env);
    assert r == Resolved(Begin(db), Some(stored), [LookedUp(id)]);
    var before := Opening(id, optimistic) + r.events + [PolicyCall(r)];
    assert CalledExisting(stored) in before && LookedUp(id) in before;
    var step := DispatchStep(r, policy, next, env);
    FinishTryCloses(step, before, env, false);
    if next(stored).Handled? && !next(stored).completed {
      assert step == Step(None, UpdateRow(Begin(db), Saga(id, next(stored).state)));
      assert step.db.working + step.db.pending == db.committed[id := Saga(id, next(stored).state)];
    }
  }

  // ---------------------------------------------------------------------------------------
  // The imperative repository
  // ---------------------------------------------------------------------------------------

  /** A `DbContext` over the saga table, with its transaction. */
  class SagaDbContext {
    var committed: map<Guid, Saga>
    var working: map<Guid, Saga>
    var pending: map<Guid, Saga>
    var inTransaction: bool

    function State(): DbState
      reads this
    {
      DbState(committed, working, pending, inTransaction)
    }

    ghost predicate Valid()
      reads this
    {
      WellKeyed(State()) && (!inTransaction ==> working == committed && pending == map[])
    }

    constructor (rows: map<Guid, Saga>)
      requires KeyedById(rows)
      ensures Valid() && State() == DbState(rows, rows, map[], false)
    {
      committed, working, pending, inTransaction := rows, rows, map[], false;
    }

    method BeginTransaction()
      requires Valid()
      modifies this
      ensures Valid() && State() == Begin(old(State()))
    {
      working, pending, inTransaction := committed, map[], true;
    }

    method SingleOrDefault(id: Guid) returns (r: Option<Saga>)
      ensures r == Find(State(), id)
    {
      r := if id in working then Some(working[id]) else None;
    }

    method Add(s: Saga)
      requires Valid() && inTransaction
      modifies this
      ensures Valid() && State() == AddRow(old(State()), s)
    {
      pending := pending[s.correlationId := s];
    }

    method Update(s: Saga)
      requires Valid() && inTransaction
      modifies this
      ensures Valid() && State() == UpdateRow(old(State()), s)
    {
      if s.correlationId in pending {
        pending := pending[s.correlationId := s];
      } else {
        working := working[s.correlationId := s];
      }
    }

    method Remove(id: Guid)
      requires Valid() && inTransaction
      modifies this
      ensures Valid() && State() == RemoveRow(old(State()), id)
    {
      if id in pending {
        pending := pending - {id};
      } else {
        working := working - {id};
      }
    }

    method SaveChanges(reported: Option<Failure>) returns (failure: Option<Failure>)
      requires Valid() && inTransaction
      modifies this
      ensures Valid() && Step(failure, State()) == Save(old(State()), reported)
    {
      if reported.Some? {
        failure := reported;
      } else if !(pending.Keys !! working.Keys) {
        failure := Some(DbUpdate(SqlError(DuplicateKeyNumber)));
      } else {
        failure := None;
        working, pending := working + pending, map[];
      }
    }

    /** `transaction.Commit()`, which fails with the failure the database reports and then changes nothing. */
    method Commit(reported: Option<Failure>) returns (failure: Option<Failure>)
      requires Valid() && inTransaction
      modifies this
      ensures Valid() && failure == reported
      ensures State() == if reported.None? then CommitTx(old(State())) else old(State())
    {
      failure := reported;
      if reported.None? {
        committed, pending, inTransaction := working, map[], false;
      }
    }

    /** `transaction.Rollback()`, and also what disposing an uncommitted transaction does. */
    method Rollback()
      requires Valid()
      modifies this
      ensures Valid() && State() == RollbackTx(old(State()))
    {
      working, pending, inTransaction := committed, map[], false;
    }
  }

  /** `MissingPipe<TMessage>`: once the handler pipe has processed a new instance, add it unless it completed. */
  class MissingPipe {
    const db: SagaDbContext
    const next: Handler

    constructor (db: SagaDbContext, next: Handler)
      ensures this.db == db && this.next == next
    {
      this.db := db;
      this.next := next;
    }

    method Send(instance: Saga, reported: Option<Failure>) returns (failure: Option<Failure>)
      requires db.Valid() && db.inTransaction
      modifies db
      ensures db.Valid() && Step(failure, db.State()) == MissingPipeSend(old(db.State()), instance, next, reported)
    {
      match next(instance)
      case HandlerFailed(f) =>
        failure := Some(f);
      case Handled(state, completed) =>
        if !completed {
          db.Add(Saga(instance.correlationId, state));
        }
        failure := db.SaveChanges(reported);
    }
  }

  class EntityFrameworkSagaRepository {
    const optimistic: bool

    constructor (optimistic: bool)
      ensures this.optimistic == optimistic
    {
      this.optimistic := optimistic;
    }

    static method PreInsertSagaInstance(db: SagaDbContext, instance: Option<Saga>, reported: Option<Failure>)
      returns (inserted: bool)
      requires db.Valid() && db.inTransaction
      modifies db
      ensures db.Valid() && PreInserted(inserted, db.State()) == PreInsert(old(db.State()), instance, reported)
    {
      if instance.None? {
        return false;
      }
      db.Add(instance.value);
      var failure := db.SaveChanges(reported);
      inserted := failure.None?;
    }

    static method CallMissing(db: SagaDbContext, action: MissingAction, next: Handler, reported: Option<Failure>)
      returns (failure: Option<Failure>)
      requires db.Valid() && db.inTransaction
      modifies db
      ensures db.Valid() && Step(failure, db.State()) == PolicyMissing(old(db.State()), action, next, reported)
    {
      match action
      case Ignore => failure := None;
      case Reject(f) => failure := Some(f);
      case SendNew(s) =>
        var pipe := new MissingPipe(db, next);
        failure := pipe.Send(s, reported);
    }

    static method CallExisting(db: SagaDbContext, instance: Saga, next: Handler) returns (failure: Option<Failure>)
      requires db.Valid() && db.inTransaction
      modifies db
      ensures db.Valid() && Step(failure, db.State()) == PolicyExisting(old(db.State()), instance, next)
    {
      match next(instance)
      case HandlerFailed(f) =>
        failure := Some(f);
      case Handled(state, completed) =>
        failure := None;
        if completed {
          db.Remove(instance.correlationId);
        } else {
          db.Update(Saga(instance.correlationId, state));
        }
    }

    /** The end of the `try` block and the catch blocks of both `Send` and `SendQuery`. */
    static method Finish(db: SagaDbContext, failure: Option<Failure>, events: seq<Event>, env: Environment, query: bool)
      returns (outcome: Outcome, events': seq<Event>)
      requires db.Valid() && db.inTransaction
      modifies db
      ensures db.Valid()
      ensures Run(outcome, db.State(), events') == FinishTry(Step(failure, old(db.State())), events, env, query)
    {
      var f := failure;
      if f.None? {
        f := db.SaveChanges(env.finalSave);
      }
      if f.None? {
        f := db.Commit(env.commitFailure);
      }
      if f.None? {
        outcome, events' := Succeeded, events + [Committed];
      } else {
        var rollsBack := RollsBack(f.value);
        db.Rollback();
        events' := events + (if rollsBack then [RolledBack] else []);
        outcome := Threw(if query then QueryRethrown(f.value) else f.value);
      }
    }

    method Send(db: SagaDbContext, correlationId: Option<Guid>, policy: Policy, next: Handler, env: Environment)
      returns (outcome: Outcome, events: seq<Event>)
      requires db.Valid() && !db.inTransaction
      modifies db
      ensures db.Valid()
      ensures Run(outcome, db.State(), events) == SendRun(old(db.State()), optimistic, correlationId, policy, next, env)
    {
      if correlationId.None? {
        return Threw(SagaFault(None, None)), [];
      }
      var id := correlationId.value;
      db.BeginTransaction();
      events := [Began];
      if !optimistic {
        events := events + [Locked(id)];
        if id in env.lockFailures {
          db.Rollback();
          return Threw(env.lockFailures[id]), events;
        }
      }
      ghost var begun := db.State();
      assert events == Opening(id, optimistic);
      var instance := policy.preInsert.instance;
      if policy.preInsert.accepted {
        var inserted := PreInsertSagaInstance(db, instance, env.preInsertSave);
      }
      var lookup: seq<Event> := [];
      if instance.None? {
        lookup := [LookedUp(id)];
        instance := db.SingleOrDefault(id);
      }
      ghost var r := Resolved(db.State(), instance, lookup);
      assert r == ResolveInstance(begun, id, policy, env);
      events := events + lookup;
      var failure;
      if instance.None? {
        events := events + [CalledMissing];
        failure := CallMissing(db, policy.missing, next, env.missingSave);
      } else {
        events := events + [CalledExisting(instance.value)];
        failure := CallExisting(db, instance.value, next);
      }
      assert Step(failure, db.State()) == DispatchStep(r, policy, next, env);
      outcome, events := Finish(db, failure, events, env, false);
    }

    /** One pass of `SendQuery`'s `foreach`: lock the row, look it up, `SendToInstance` or remember the id as missing. */
    method SendQueryIteration(db: SagaDbContext, id: Guid, next: Handler, env: Environment,
                              missing: seq<Guid>, events: seq<Event>)
      returns (failure: Option<Failure>, missing': seq<Guid>, events': seq<Event>)
      requires db.Valid() && db.inTransaction
      modifies db
      ensures db.Valid() && db.inTransaction
      ensures LoopState(failure, db.State(), missing', events')
              == QueryStep(LoopState(None, old(db.State()), missing, events), optimistic, id, next, env)
    {
      failure, missing', events' := None, missing, events;
      if !optimistic {
        events' := events' + [Locked(id)];
        if id in env.lockFailures {
          failure := Some(env.lockFailures[id]);
          return;
        }
      }
      var instance := db.SingleOrDefault(id);
      events' := events' + [LookedUp(id)];
      if instance.Some? {
        events' := events' + [CalledExisting(instance.value)];
        failure := CallExisting(db, instance.value, next);
        if failure.Some? && !failure.value.SagaFault? {
          failure := Some(SagaFault(Some(instance.value.correlationId), failure));
        }
      } else {
        missing' := missing + [id];
      }
    }

    /** The `foreach` of `SendQuery` over the ids, left early by the first failure. */
    method SendQueryLoop(db: SagaDbContext, correlationIds: seq<Guid>, next: Handler, env: Environment)
      returns (failure: Option<Failure>, missing: seq<Guid>, loopEvents: seq<Event>)
      requires db.Valid() && db.inTransaction
      modifies db
      ensures db.Valid() && db.inTransaction
      ensures LoopState(failure, db.State(), missing, loopEvents) == QueryLoop(old(db.State()), optimistic, correlationIds, next, env)
    {
      ghost var begun := db.State();
      failure, missing, loopEvents := None, [], [];
      var i := 0;
      while i < |correlationIds| && failure.None?
        invariant 0 <= i <= |correlationIds|
        invariant db.Valid() && db.inTransaction
        invariant LoopState(failure, db.State(), missing, loopEvents) == QueryLoop(begun, optimistic, correlationIds[..i], next, env)
      {
        assert correlationIds[..i + 1][..i] == correlationIds[..i];
        failure, missing, loopEvents := SendQueryIteration(db, correlationIds[i], next, env, missing, loopEvents);
        i := i + 1;
      }
      if failure.Some? {
        QueryLoopStopsAtFailure(begun, optimistic, correlationIds, i, next, env);
      } else {
        assert correlationIds[..i] == correlationIds;
      }
    }

    method SendQuery(db: SagaDbContext, correlationIds: seq<Guid>, policy: Policy, next: Handler, env: Environment)
      returns (outcome: Outcome, events: seq<Event>)
      requires db.Valid() && !db.inTransaction
      modifies db
      ensures db.Valid()
      ensures Run(outcome, db.State(), events) == SendQueryRun(old(db.State()), optimistic, correlationIds, policy, next, env)
    {
      db.BeginTransaction();
      ghost var begun := db.State();
      var failure, missing, loopEvents := SendQueryLoop(db, correlationIds, next, env);
      ghost var loop := QueryLoop(begun, optimistic, correlationIds, next, env);
      assert loop == LoopState(failure, db.State(), missing, loopEvents);
      events := [Began] + loopEvents;
      if failure.None? && |correlationIds| == |missing| {
        events := events + [CalledMissing];
        failure := CallMissing(db, policy.missing, next, env.missingSave);
      }
      assert Step(failure, db.State()) == AfterLoop(loop, correlationIds, policy, next, env);
      outcome, events := Finish(db, failure, events, env, true);
    }
  }
}
