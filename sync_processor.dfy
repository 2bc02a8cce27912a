/**
 * The sync processor: one sync of an email RFQ to the commerce backend under a
 * distributed lock, with the idempotency lookup, validation, transformation, insert and
 * id cache, and the processor's counters. `Sync` states the whole effect of one call
 * as a function of the state before it; `SyncProcessor.ProcessSyncToMedusa` carries it
 * out against the store and database objects and is proved to agree with it.
 */
module SyncProcessing {
  import opened Wrappers
  import opened Python
  import opened Config
  import opened Events
  import opened Transformer
  import opened KeyValue
  import opened MedusaDb

  /** Which store and database calls fail during one sync, and with what text. */
  datatype Faults = Faults(
    lockSet: Option<string> := None,
    find: Option<string> := None,
    create: Option<string> := None,
    cacheSet: Option<string> := None,
    release: Option<string> := None)

  /** The clock readings of one sync (start, completion, elapsed milliseconds). */
  datatype Timing = Timing(startedAt: Timestamp, completedAt: Timestamp, durationMs: int)

  /** Everything one sync takes from outside: faults, the uuid digits of a new id, the
      insert instant and the clock. */
  datatype SyncEnv = SyncEnv(faults: Faults, newIdHex: string, insertedAt: Timestamp, timing: Timing)

  datatype Metrics = Metrics(totalSyncs: int, successfulSyncs: int, failedSyncs: int, retries: int)

  const LockValue: string := "1"
  const LockNotAcquired: string := "Lock not acquired, will retry"

  function LockKey(emailRfqId: string): string {
    RedisKeyPrefix + "lock:" + emailRfqId
  }

  function MapKey(emailRfqId: string): string {
    RedisKeyPrefix + "map:" + emailRfqId
  }

  /** The lock key of one RFQ is never the cache key of any. */
  lemma LockKeyNotMapKey(a: string, b: string)
    ensures LockKey(a) != MapKey(b)
  {
    assert LockKey(a)[|RedisKeyPrefix|] == 'l';
    assert MapKey(b)[|RedisKeyPrefix|] == 'm';
  }

  function ValidationFailure(errors: seq<string>): PyError {
    ValueError("Validation failed: " + Join(", ", errors))
  }

  function PendingResult(req: RfqSyncRequest, t: Timing): RfqSyncResult {
    RfqSyncResult(emailRfqId := req.emailRfqId, medusaRfqId := None, rfqNumber := req.rfqNumber,
      syncDirection := EmailToMedusa, syncStatus := Pending, syncStartedAt := t.startedAt,
      syncCompletedAt := t.completedAt, durationMs := 0, errorMessage := Some(LockNotAcquired))
  }

  function CompletedResult(req: RfqSyncRequest, id: string, t: Timing): RfqSyncResult {
    RfqSyncResult(emailRfqId := req.emailRfqId, medusaRfqId := Some(id), rfqNumber := req.rfqNumber,
      syncDirection := EmailToMedusa, syncStatus := Completed, syncStartedAt := t.startedAt,
      syncCompletedAt := t.completedAt, durationMs := t.durationMs, errorMessage := None)
  }

  function FailedResult(req: RfqSyncRequest, e: PyError, t: Timing): RfqSyncResult {
    RfqSyncResult(emailRfqId := req.emailRfqId, medusaRfqId := None, rfqNumber := req.rfqNumber,
      syncDirection := EmailToMedusa, syncStatus := Failed, syncStartedAt := t.startedAt,
      syncCompletedAt := t.completedAt, durationMs := t.durationMs, errorMessage := Some(e.Message()))
  }

  /** What the part under the lock leaves behind: the backend id or the exception, the
      store and table, and whether the success counter moved. */
  datatype Attempt = Attempt(outcome: Result<string, PyError>, kv: map<string, string>, rows: map<string, Row>, succeeded: bool)

  /** What the payload becomes before the insert: the validation errors raise as one
      ValueError, an exception of either step propagates, and otherwise it is the
      transformed record. */
  function Prepare(data: Fields): Result<MedusaRfq, PyError> {
    match ValidationErrors(data)
    case Failure(e) => Failure(e)
    case Success(errors) =>
      if errors != [] then Failure(ValidationFailure(errors)) else TransformEmailToMedusa(data)
  }

  /** The payload is prepared exactly when it validates and transforms; the record then
      is the transform's, and carries the payload's `email_rfq_id` as its external id. */
  lemma PrepareSucceeds(data: Fields)
    ensures Prepare(data).Success? <==> IsSyncable(data) && TransformEmailToMedusa(data).Success?
    ensures Prepare(data).Success? ==>
      Prepare(data).value == TransformEmailToMedusa(data).value && Prepare(data).value.externalId == ExternalIdOf(data)
  {
    ValidIffSyncable(data);
  }

  /** The part under the lock. `prepared` is `Prepare` of the payload, `found` the
      idempotency lookup's answer. */
  function Guarded(req: RfqSyncRequest, prepared: Result<MedusaRfq, PyError>, kv: map<string, string>,
                   rows: map<string, Row>, connected: bool, env: SyncEnv, found: Option<Summary>): Attempt {
    if !connected then Attempt(Failure(NoPool), kv, rows, false)
    else if env.faults.find.Some? then Attempt(Failure(Infra(env.faults.find.value)), kv, rows, false)
    else if found.Some? then Attempt(Success(found.value.id), kv, rows, false)
    else if prepared.Failure? then Attempt(Failure(prepared.error), kv, rows, false)
    else
      var created := CreateResult(rows, connected, env.newIdHex, env.faults.create);
      if created.Failure? then Attempt(Failure(created.error), kv, rows, false)
      else
        var rows' := CreateState(rows, prepared.value, connected, env.newIdHex, env.insertedAt, env.faults.create);
        if env.faults.cacheSet.Some? then Attempt(Failure(Infra(env.faults.cacheSet.value)), kv, rows', false)
        else Attempt(Success(created.value), kv[MapKey(req.emailRfqId) := created.value], rows', true)
  }

  /** The part under the lock followed by the `finally` that deletes the lock; an
      exception there replaces the return value or the exception in flight. */
  function Locked(req: RfqSyncRequest, prepared: Result<MedusaRfq, PyError>, kv: map<string, string>,
                  rows: map<string, Row>, connected: bool, env: SyncEnv, found: Option<Summary>): Attempt {
    var a := Guarded(req, prepared, kv, rows, connected, env, found);
    var outcome := if env.faults.release.Some? then Failure(Infra(env.faults.release.value)) else a.outcome;
    Attempt(outcome, DeleteState(a.kv, LockKey(req.emailRfqId), env.faults.release), a.rows, a.succeeded)
  }

  /** The catch-all: a return value becomes COMPLETED, an exception FAILED and a count. */
  function Concluded(req: RfqSyncRequest, a: Attempt, counted: Metrics, timing: Timing): SyncOutcome {
    var afterTry := if a.succeeded then counted.(successfulSyncs := counted.successfulSyncs + 1) else counted;
    match a.outcome
    case Success(id) => SyncOutcome(CompletedResult(req, id, timing), a.kv, a.rows, afterTry)
    case Failure(e) => SyncOutcome(FailedResult(req, e, timing), a.kv, a.rows, afterTry.(failedSyncs := afterTry.failedSyncs + 1))
  }

  /** The lookup is made exactly when the lock was taken and the pool exists and answers. */
  predicate ReachesLookup(req: RfqSyncRequest, kv: map<string, string>, connected: bool, env: SyncEnv) {
    env.faults.lockSet.None? && LockKey(req.emailRfqId) !in kv && connected && env.faults.find.None?
  }

  /** `found` is an answer the table could give when the lookup is made. */
  predicate ValidFound(req: RfqSyncRequest, kv: map<string, string>, rows: map<string, Row>, connected: bool,
                       env: SyncEnv, found: Option<Summary>) {
    ReachesLookup(req, kv, connected, env) ==> IsFindAnswer(rows, req.emailRfqId, found)
  }

  datatype SyncOutcome = SyncOutcome(result: RfqSyncResult, kv: map<string, string>, rows: map<string, Row>, metrics: Metrics)

  /** The whole effect of `process_sync_to_medusa`, for the payload prepared as `prepared`. */
  function Sync(req: RfqSyncRequest, prepared: Result<MedusaRfq, PyError>, kv: map<string, string>, rows: map<string, Row>, connected: bool,
                    metrics: Metrics, env: SyncEnv, found: Option<Summary>): SyncOutcome {
    var counted := metrics.(totalSyncs := metrics.totalSyncs + 1);
    var lockKey := LockKey(req.emailRfqId);
    if env.faults.lockSet.Some? then
      SyncOutcome(FailedResult(req, Infra(env.faults.lockSet.value), env.timing), kv, rows,
        counted.(failedSyncs := counted.failedSyncs + 1))
    else if lockKey in kv then
      SyncOutcome(PendingResult(req, env.timing), kv, rows, counted)
    else Concluded(req, Locked(req, prepared, kv[lockKey := LockValue], rows, connected, env, found), counted, env.timing)
  }

  // ---------------------------------------------------------------------------
  // Properties of one sync

  /** While another sync holds the lock, a sync returns PENDING at once and changes
      nothing but the total counter. */
  lemma LockHeldIsPending(req: RfqSyncRequest, prepared: Result<MedusaRfq, PyError>, kv: map<string, string>, rows: map<string, Row>, connected: bool,
                          metrics: Metrics, env: SyncEnv, found: Option<Summary>)
    requires env.faults.lockSet.None? && LockKey(req.emailRfqId) in kv
    ensures var o := Sync(req, prepared, kv, rows, connected, metrics, env, found);
      && o.result.syncStatus == Pending && o.result.durationMs == 0
      && o.result.errorMessage == Some(LockNotAcquired) && o.result.medusaRfqId.None?
      && o.kv == kv && o.rows == rows
      && o.metrics == metrics.(totalSyncs := metrics.totalSyncs + 1)
  {
  }

  /** The part under the lock writes at most the cache key. */
  lemma GuardedTouchesOnlyCache(req: RfqSyncRequest, prepared: Result<MedusaRfq, PyError>, kv: map<string, string>, rows: map<string, Row>, connected: bool,
                                env: SyncEnv, found: Option<Summary>)
    ensures var a := Guarded(req, prepared, kv, rows, connected, env, found);
      forall k :: k != MapKey(req.emailRfqId) ==> (k in a.kv <==> k in kv) && (k in kv ==> a.kv[k] == kv[k])
  {
  }

  /** A sync that took the lock releases it, unless the release itself fails. */
  lemma LockReleased(req: RfqSyncRequest, prepared: Result<MedusaRfq, PyError>, kv: map<string, string>, rows: map<string, Row>, connected: bool,
                     metrics: Metrics, env: SyncEnv, found: Option<Summary>)
    requires env.faults.lockSet.None? && LockKey(req.emailRfqId) !in kv
    ensures var o := Sync(req, prepared, kv, rows, connected, metrics, env, found);
      LockKey(req.emailRfqId) in o.kv <==> env.faults.release.Some?
  {
    var lockKey := LockKey(req.emailRfqId);
    GuardedTouchesOnlyCache(req, prepared, kv[lockKey := LockValue], rows, connected, env, found);
    LockKeyNotMapKey(req.emailRfqId, req.emailRfqId);
  }

  /** Every call counts once in the total; a FAILED result counts once as failed; the
      success counter moves at most once; retries never move. */
  lemma MetricsAccounting(req: RfqSyncRequest, prepared: Result<MedusaRfq, PyError>, kv: map<string, string>, rows: map<string, Row>, connected: bool,
                          metrics: Metrics, env: SyncEnv, found: Option<Summary>)
    ensures var o := Sync(req, prepared, kv, rows, connected, metrics, env, found);
      && o.metrics.totalSyncs == metrics.totalSyncs + 1
      && o.metrics.retries == metrics.retries
      && o.metrics.failedSyncs == metrics.failedSyncs + (if o.result.syncStatus == Failed then 1 else 0)
      && metrics.successfulSyncs <= o.metrics.successfulSyncs <= metrics.successfulSyncs + 1
      && (o.result.syncStatus == Pending ==> o.metrics.successfulSyncs == metrics.successfulSyncs)
  {
  }

  /** The part under the lock counts a success exactly when the lookup found nothing, the
      payload was prepared, and the insert and the cache write both succeeded; it then
      reports the new id, has cached it and has added the one row. */
  lemma GuardedSucceeds(req: RfqSyncRequest, prepared: Result<MedusaRfq, PyError>, kv: map<string, string>, rows: map<string, Row>, connected: bool,
                        env: SyncEnv, found: Option<Summary>)
    ensures var a := Guarded(req, prepared, kv, rows, connected, env, found);
      var id := RfqId(env.newIdHex);
      && (a.succeeded <==>
          connected && env.faults.find.None? && found.None? && prepared.Success?
          && env.faults.create.None? && id !in rows && env.faults.cacheSet.None?)
      && (a.succeeded ==>
          && a.outcome == Success(id)
          && a.kv == kv[MapKey(req.emailRfqId) := id]
          && a.rows == rows[id := RowOf(prepared.value, id, env.insertedAt)])
  {
  }

  /** The success counter moves only after an insert and a cache write: the lookup found
      nothing, the prepared record was inserted under the new id, and the map key holds
      that id afterwards. */
  lemma SuccessCountedOnlyAfterInsert(req: RfqSyncRequest, prepared: Result<MedusaRfq, PyError>, kv: map<string, string>, rows: map<string, Row>, connected: bool,
                                      metrics: Metrics, env: SyncEnv, found: Option<Summary>)
    ensures var o := Sync(req, prepared, kv, rows, connected, metrics, env, found);
      o.metrics.successfulSyncs == metrics.successfulSyncs + 1 ==>
        && found.None? && prepared.Success? && RfqId(env.newIdHex) !in rows
        && o.rows == rows[RfqId(env.newIdHex) := RowOf(prepared.value, RfqId(env.newIdHex), env.insertedAt)]
        && MapKey(req.emailRfqId) in o.kv && o.kv[MapKey(req.emailRfqId)] == RfqId(env.newIdHex)
  {
    var kv1 := kv[LockKey(req.emailRfqId) := LockValue];
    GuardedSucceeds(req, prepared, kv1, rows, connected, env, found);
    LockKeyNotMapKey(req.emailRfqId, req.emailRfqId);
  }

  /** The result always names the request's RFQ and the email-to-backend direction; a
      FAILED one carries the exception text and no backend id. */
  lemma ResultEchoesRequest(req: RfqSyncRequest, prepared: Result<MedusaRfq, PyError>, kv: map<string, string>, rows: map<string, Row>, connected: bool,
                            metrics: Metrics, env: SyncEnv, found: Option<Summary>)
    ensures var r := Sync(req, prepared, kv, rows, connected, metrics, env, found).result;
      && r.emailRfqId == req.emailRfqId && r.rfqNumber == req.rfqNumber
      && r.syncDirection == EmailToMedusa && r.syncStartedAt == env.timing.startedAt
      && (r.syncStatus == Failed ==> r.medusaRfqId.None? && r.errorMessage.Some?)
      && (r.syncStatus == Completed ==> r.medusaRfqId.Some? && r.errorMessage.None?)
      && r.syncStatus != InProgress
  {
    var lockKey := LockKey(req.emailRfqId);
    if env.faults.lockSet.None? && lockKey !in kv {
      var counted := metrics.(totalSyncs := metrics.totalSyncs + 1);
      ConcludedEchoes(req, Locked(req, prepared, kv[lockKey := LockValue], rows, connected, env, found), counted, env.timing);
    }
  }

  /** Whatever the attempt, the concluded result echoes the request and its status agrees
      with its id and message. */
  lemma ConcludedEchoes(req: RfqSyncRequest, a: Attempt, counted: Metrics, timing: Timing)
    ensures var r := Concluded(req, a, counted, timing).result;
      && r.emailRfqId == req.emailRfqId && r.rfqNumber == req.rfqNumber
      && r.syncDirection == EmailToMedusa && r.syncStartedAt == timing.startedAt
      && (r.syncStatus == Failed ==> r.medusaRfqId.None? && r.errorMessage.Some?)
      && (r.syncStatus == Completed ==> r.medusaRfqId.Some? && r.errorMessage.None?)
      && r.syncStatus in {Completed, Failed}
  {
  }

  /** A COMPLETED sync names a backend RFQ that exists in the table afterwards. */
  lemma CompletedNamesExistingRow(req: RfqSyncRequest, prepared: Result<MedusaRfq, PyError>, kv: map<string, string>, rows: map<string, Row>, connected: bool,
                                  metrics: Metrics, env: SyncEnv, found: Option<Summary>)
    requires WellKeyed(rows)
    requires ValidFound(req, kv, rows, connected, env, found)
    ensures var o := Sync(req, prepared, kv, rows, connected, metrics, env, found);
      o.result.syncStatus == Completed ==> o.result.medusaRfqId.value in o.rows
  {
    var o := Sync(req, prepared, kv, rows, connected, metrics, env, found);
    if o.result.syncStatus == Completed && found.Some? && ReachesLookup(req, kv, connected, env) {
      var id :| id in rows && rows[id].externalId == req.emailRfqId && found.value == SummaryOf(rows[id]);
      assert found.value.id == id;
    }
  }

  /** A sync adds at most one row, the transformed payload under a fresh id, and never
      changes or removes the rows that were there. */
  lemma RowsGrowByAtMostOne(req: RfqSyncRequest, prepared: Result<MedusaRfq, PyError>, kv: map<string, string>, rows: map<string, Row>, connected: bool,
                            metrics: Metrics, env: SyncEnv, found: Option<Summary>)
    ensures var o := Sync(req, prepared, kv, rows, connected, metrics, env, found);
      || o.rows == rows
      || (&& RfqId(env.newIdHex) !in rows
          && prepared.Success?
          && o.rows == rows[RfqId(env.newIdHex) := RowOf(prepared.value, RfqId(env.newIdHex), env.insertedAt)]
          && o.rows[RfqId(env.newIdHex)].externalId == prepared.value.externalId
          && found.None? && ReachesLookup(req, kv, connected, env))
  {
  }

  /** A lookup that finds a row ends the sync as COMPLETED with that row's id; the store
      is as it was before the lock was taken, and the table and success count stay. */
  lemma FoundRowCompletes(req: RfqSyncRequest, prepared: Result<MedusaRfq, PyError>, kv: map<string, string>, rows: map<string, Row>, connected: bool,
                          metrics: Metrics, env: SyncEnv, found: Option<Summary>)
    requires ReachesLookup(req, kv, connected, env) && found.Some? && env.faults.release.None?
    ensures var o := Sync(req, prepared, kv, rows, connected, metrics, env, found);
      && o.result == CompletedResult(req, found.value.id, env.timing)
      && o.result.medusaRfqId == Some(found.value.id)
      && o.kv == kv && o.rows == rows
      && o.metrics == metrics.(totalSyncs := metrics.totalSyncs + 1)
  {
    SetThenDelete(kv, LockKey(req.emailRfqId), LockValue);
  }

  /** A payload that fails validation ends the sync as FAILED with "Validation failed: "
      and the errors joined by ", "; nothing is inserted or cached. */
  lemma InvalidDataFails(req: RfqSyncRequest, kv: map<string, string>, rows: map<string, Row>, connected: bool,
                         metrics: Metrics, env: SyncEnv, found: Option<Summary>, errors: seq<string>)
    requires ReachesLookup(req, kv, connected, env) && found.None? && env.faults.release.None?
    requires ValidationErrors(req.rfqData) == Success(errors) && errors != []
    ensures var o := Sync(req, Prepare(req.rfqData), kv, rows, connected, metrics, env, found);
      && o.result.syncStatus == Failed
      && o.result.errorMessage == Some("Validation failed: " + Join(", ", errors))
      && o.result.medusaRfqId.None?
      && o.kv == kv && o.rows == rows
      && o.metrics == metrics.(totalSyncs := metrics.totalSyncs + 1, failedSyncs := metrics.failedSyncs + 1)
  {
    SetThenDelete(kv, LockKey(req.emailRfqId), LockValue);
  }

  /** A sync in which nothing fails and the lookup finds nothing inserts the prepared
      record under the new id, caches that id under the map key, releases the lock and
      reports COMPLETED with the new id: the table grows by exactly one row. */
  lemma SuccessfulSyncInserts(req: RfqSyncRequest, prepared: Result<MedusaRfq, PyError>, kv: map<string, string>, rows: map<string, Row>,
                              metrics: Metrics, env: SyncEnv)
    requires env.faults == Faults() && LockKey(req.emailRfqId) !in kv
    requires prepared.Success? && RfqId(env.newIdHex) !in rows
    ensures var o := Sync(req, prepared, kv, rows, true, metrics, env, None);
      var id := RfqId(env.newIdHex);
      && o.result == CompletedResult(req, id, env.timing)
      && o.kv == kv[MapKey(req.emailRfqId) := id]
      && o.rows == rows[id := RowOf(prepared.value, id, env.insertedAt)]
      && |o.rows.Keys| == |rows.Keys| + 1
      && o.metrics == metrics.(totalSyncs := metrics.totalSyncs + 1, successfulSyncs := metrics.successfulSyncs + 1)
  {
    var id := RfqId(env.newIdHex);
    LockedInserts(req, prepared, kv, rows, env);
    assert rows[id := RowOf(prepared.value, id, env.insertedAt)].Keys == rows.Keys + {id};
  }

  /** With nothing failing and nothing found, the part under the lock and its release
      leave the store as before plus the cached id, and the table plus the new row. */
  lemma LockedInserts(req: RfqSyncRequest, prepared: Result<MedusaRfq, PyError>, kv: map<string, string>, rows: map<string, Row>,
                      env: SyncEnv)
    requires env.faults == Faults() && LockKey(req.emailRfqId) !in kv
    requires prepared.Success? && RfqId(env.newIdHex) !in rows
    ensures var id := RfqId(env.newIdHex);
      Locked(req, prepared, kv[LockKey(req.emailRfqId) := LockValue], rows, true, env, None)
        == Attempt(Success(id), kv[MapKey(req.emailRfqId) := id], rows[id := RowOf(prepared.value, id, env.insertedAt)], true)
  {
    var id := RfqId(env.newIdHex);
    var lockKey, mapKey := LockKey(req.emailRfqId), MapKey(req.emailRfqId);
    var kv1 := kv[lockKey := LockValue];
    GuardedSucceeds(req, prepared, kv1, rows, true, env, None);
    LockKeyNotMapKey(req.emailRfqId, req.emailRfqId);
    assert kv1[mapKey := id] - {lockKey} == kv[mapKey := id];
  }

  /** No two rows share an external id. */
  predicate UniqueExternalIds(rows: map<string, Row>) {
    forall a, b :: a in rows && b in rows && rows[a].externalId == rows[b].externalId ==> a == b
  }

  /** The idempotency guarantee, under its hidden condition: when the record stored for the
      payload carries the request's id as its external id (for `Prepare`, when the
      payload's own `email_rfq_id` is the request's), a sync never creates a second row for
      an RFQ. */
  lemma SyncKeepsExternalIdsUnique(req: RfqSyncRequest, prepared: Result<MedusaRfq, PyError>, kv: map<string, string>, rows: map<string, Row>, connected: bool,
                                   metrics: Metrics, env: SyncEnv, found: Option<Summary>)
    requires UniqueExternalIds(rows)
    requires ValidFound(req, kv, rows, connected, env, found)
    requires prepared.Success? ==> prepared.value.externalId == req.emailRfqId
    ensures UniqueExternalIds(Sync(req, prepared, kv, rows, connected, metrics, env, found).rows)
  {
    RowsGrowByAtMostOne(req, prepared, kv, rows, connected, metrics, env, found);
    var o := Sync(req, prepared, kv, rows, connected, metrics, env, found);
    if o.rows != rows {
      var id := RfqId(env.newIdHex);
      InsertKeepsUnique(rows, id, RowOf(prepared.value, id, env.insertedAt));
    }
  }

  /** Adding a row whose external id no row has keeps external ids unique. */
  lemma InsertKeepsUnique(rows: map<string, Row>, id: string, row: Row)
    requires UniqueExternalIds(rows) && IsFindAnswer(rows, row.externalId, None)
    ensures UniqueExternalIds(rows[id := row])
  {
    var rows' := rows[id := row];
    forall a, b | a in rows' && b in rows' && rows'[a].externalId == rows'[b].externalId
      ensures a == b
    {
      if a != id && b != id {
        assert rows[a].externalId == rows[b].externalId;
      }
    }
  }

  /** Redelivery of a request that was synced: the lookup now finds the row, so the second
      sync returns COMPLETED and inserts nothing. */
  lemma RedeliveryFindsRow(req: RfqSyncRequest, prepared: Result<MedusaRfq, PyError>, kv: map<string, string>, rows: map<string, Row>, connected: bool,
                           metrics: Metrics, env: SyncEnv, found: Option<Summary>, env2: SyncEnv, found2: Option<Summary>)
    requires ValidFound(req, kv, rows, connected, env, found)
    requires prepared.Success? ==> prepared.value.externalId == req.emailRfqId
    requires var o := Sync(req, prepared, kv, rows, connected, metrics, env, found);
      o.rows != rows && ValidFound(req, o.kv, o.rows, connected, env2, found2)
    requires env2.faults == Faults() && env.faults.release.None?
    ensures var o := Sync(req, prepared, kv, rows, connected, metrics, env, found);
      var o2 := Sync(req, prepared, o.kv, o.rows, connected, o.metrics, env2, found2);
      && o2.result.syncStatus == Completed && o2.rows == o.rows
      && o2.result.medusaRfqId == Some(RfqId(env.newIdHex))
  {
    var o := Sync(req, prepared, kv, rows, connected, metrics, env, found);
    RowsGrowByAtMostOne(req, prepared, kv, rows, connected, metrics, env, found);
    LockReleased(req, prepared, kv, rows, connected, metrics, env, found);
    var id := RfqId(env.newIdHex);
    assert id in o.rows && o.rows[id].externalId == req.emailRfqId;
    assert ReachesLookup(req, o.kv, connected, env2);
    assert found2.Some?;
  }

  /** Two syncs of one request, one after the other, both report COMPLETED and leave two
      rows with the same external id "". */
  predicate DuplicatesOnRedelivery(req: RfqSyncRequest, prepared: Result<MedusaRfq, PyError>, kv: map<string, string>,
                                   rows: map<string, Row>, metrics: Metrics, env: SyncEnv, env2: SyncEnv) {
    var o := Sync(req, prepared, kv, rows, true, metrics, env, None);
    && ValidFound(req, o.kv, o.rows, true, env2, None)
    && var o2 := Sync(req, prepared, o.kv, o.rows, true, o.metrics, env2, None);
    && o.result.syncStatus == Completed && o2.result.syncStatus == Completed
    && RfqId(env.newIdHex) in o2.rows && RfqId(env2.newIdHex) in o2.rows
    && RfqId(env.newIdHex) != RfqId(env2.newIdHex)
    && o2.rows[RfqId(env.newIdHex)].externalId == ""
    && o2.rows[RfqId(env2.newIdHex)].externalId == ""
    && !UniqueExternalIds(o2.rows)
  }

  /** A record stored with external id "" is never found by a lookup for a real id, so
      the second sync inserts again. */
  lemma RedeliveryDuplicatesEmptyExternalId(req: RfqSyncRequest, prepared: Result<MedusaRfq, PyError>, kv: map<string, string>,
                                            rows: map<string, Row>, metrics: Metrics, env: SyncEnv, env2: SyncEnv)
    requires req.emailRfqId != "" && prepared.Success? && prepared.value.externalId == ""
    requires IsFindAnswer(rows, req.emailRfqId, None)
    requires LockKey(req.emailRfqId) !in kv
    requires env.faults == Faults() && env2.faults == Faults()
    requires env.newIdHex != env2.newIdHex
    requires RfqId(env.newIdHex) !in rows && RfqId(env2.newIdHex) !in rows
    ensures DuplicatesOnRedelivery(req, prepared, kv, rows, metrics, env, env2)
  {
    var o := Sync(req, prepared, kv, rows, true, metrics, env, None);
    var id1, id2 := RfqId(env.newIdHex), RfqId(env2.newIdHex);
    LockReleased(req, prepared, kv, rows, true, metrics, env, None);
    assert o.rows == rows[id1 := RowOf(prepared.value, id1, env.insertedAt)];
    assert IsFindAnswer(o.rows, req.emailRfqId, None);
    var o2 := Sync(req, prepared, o.kv, o.rows, true, o.metrics, env2, None);
    assert id1[4..] == env.newIdHex && id2[4..] == env2.newIdHex;
    assert o2.rows == o.rows[id2 := RowOf(prepared.value, id2, env2.insertedAt)];
  }

  /** The hidden condition matters: when the payload has no `email_rfq_id`, the row is
      stored with external id "", the lookup by the request's id keeps coming back empty,
      and a redelivered request inserts a second row for the same RFQ. */
  lemma RedeliveryDuplicatesWithoutPayloadId(req: RfqSyncRequest, kv: map<string, string>, rows: map<string, Row>,
                                             metrics: Metrics, env: SyncEnv, env2: SyncEnv)
    requires Lookup(req.rfqData, "email_rfq_id").None? && req.emailRfqId != ""
    requires Prepare(req.rfqData).Success?
    requires IsFindAnswer(rows, req.emailRfqId, None)
    requires LockKey(req.emailRfqId) !in kv
    requires env.faults == Faults() && env2.faults == Faults()
    requires env.newIdHex != env2.newIdHex
    requires RfqId(env.newIdHex) !in rows && RfqId(env2.newIdHex) !in rows
    ensures DuplicatesOnRedelivery(req, Prepare(req.rfqData), kv, rows, metrics, env, env2)
  {
    PrepareSucceeds(req.rfqData);
    assert ExternalIdOf(req.rfqData) == "";
    RedeliveryDuplicatesEmptyExternalId(req, Prepare(req.rfqData), kv, rows, metrics, env, env2);
  }

  // ---------------------------------------------------------------------------
  // The processor object

  class SyncProcessor {
    var metrics: Metrics
    const kv: KeyValueStore
    const db: MedusaDbClient

    constructor(store: KeyValueStore, database: MedusaDbClient)
      ensures metrics == Metrics(0, 0, 0, 0) && kv == store && db == database
    {
      metrics := Metrics(0, 0, 0, 0);
      kv := store;
      db := database;
    }

    /** `get_metrics`: a copy of the counters. */
    method GetMetrics() returns (m: Metrics)
      ensures m == metrics
    {
      m := metrics;
    }

    /** Validation, then the transform; a validation failure raises one ValueError
        listing every error. */
    method PreparePayload(data: Fields) returns (r: Result<MedusaRfq, PyError>)
      ensures r == Prepare(data)
    {
      var validation := ValidateForSync(data);
      if validation.Failure? {
        return Failure(validation.error);
      }
      var (isValid, errors) := validation.value;
      if !isValid {
        return Failure(ValidationFailure(errors));
      }
      r := TransformEmailToMedusa(data);
    }

    /** The insert and the id cache, for a payload that prepared to `rfq`. */
    method Insert(req: RfqSyncRequest, rfq: MedusaRfq, env: SyncEnv) returns (outcome: Result<string, PyError>)
      requires IsIdSuffix(env.newIdHex) && db.connected && env.faults.find.None?
      modifies this, kv, db
      ensures var a := Guarded(req, Success(rfq), old(kv.entries), old(db.rows), old(db.connected), env, None);
        && outcome == a.outcome && kv.entries == a.kv && db.rows == a.rows
        && metrics == (if a.succeeded then old(metrics).(successfulSyncs := old(metrics).successfulSyncs + 1) else old(metrics))
      ensures db.connected == old(db.connected)
    {
      var created := db.CreateRfq(rfq, env.newIdHex, env.insertedAt, env.faults.create);
      if created.Failure? {
        return Failure(created.error);
      }
      var cached := kv.Set(MapKey(req.emailRfqId), created.value, env.faults.cacheSet);
      if cached.Failure? {
        return Failure(cached.error);
      }
      metrics := metrics.(successfulSyncs := metrics.successfulSyncs + 1);
      return Success(created.value);
    }

    /** The part of `process_sync_to_medusa` between taking and releasing the lock. */
    method RunGuarded(req: RfqSyncRequest, env: SyncEnv) returns (outcome: Result<string, PyError>, ghost found: Option<Summary>)
      requires IsIdSuffix(env.newIdHex)
      modifies this, kv, db
      ensures var a := Guarded(req, Prepare(req.rfqData), old(kv.entries), old(db.rows), old(db.connected), env, found);
        && outcome == a.outcome && kv.entries == a.kv && db.rows == a.rows
        && metrics == (if a.succeeded then old(metrics).(successfulSyncs := old(metrics).successfulSyncs + 1) else old(metrics))
      ensures db.connected == old(db.connected)
      ensures old(db.connected) && env.faults.find.None? ==> IsFindAnswer(old(db.rows), req.emailRfqId, found)
    {
      found := None;
      var existing := db.FindRfqByExternalId(req.emailRfqId, env.faults.find);
      if existing.Failure? {
        return Failure(existing.error), found;
      }
      found := existing.value;
      if existing.value.Some? {
        return Success(existing.value.value.id), found;
      }
      var prepared := PreparePayload(req.rfqData);
      if prepared.Failure? {
        return Failure(prepared.error), found;
      }
      outcome := Insert(req, prepared.value, env);
    }

    /** The locked part of `process_sync_to_medusa` with its `finally`. */
    method RunLocked(req: RfqSyncRequest, env: SyncEnv) returns (outcome: Result<string, PyError>, ghost found: Option<Summary>)
      requires IsIdSuffix(env.newIdHex)
      modifies this, kv, db
      ensures var a := Locked(req, Prepare(req.rfqData), old(kv.entries), old(db.rows), old(db.connected), env, found);
        && outcome == a.outcome && kv.entries == a.kv && db.rows == a.rows
        && metrics == (if a.succeeded then old(metrics).(successfulSyncs := old(metrics).successfulSyncs + 1) else old(metrics))
      ensures db.connected == old(db.connected)
      ensures old(db.connected) && env.faults.find.None? ==> IsFindAnswer(old(db.rows), req.emailRfqId, found)
    {
      outcome, found := RunGuarded(req, env);
      var released := kv.Delete(LockKey(req.emailRfqId), env.faults.release);
      if released.Failure? {
        outcome := Failure(released.error);
      }
    }

    /** `process_sync_to_medusa`: its result, the store, the table and the counters
        afterwards are those `Sync` gives for the prepared payload and the lookup answer
        `found`. */
    method ProcessSyncToMedusa(req: RfqSyncRequest, env: SyncEnv) returns (result: RfqSyncResult, ghost found: Option<Summary>)
      requires IsIdSuffix(env.newIdHex)
      modifies this, kv, db
      ensures ValidFound(req, old(kv.entries), old(db.rows), old(db.connected), env, found)
      ensures var o := Sync(req, Prepare(req.rfqData), old(kv.entries), old(db.rows), old(db.connected), old(metrics), env, found);
        && result == o.result && kv.entries == o.kv && db.rows == o.rows && metrics == o.metrics
      ensures db.connected == old(db.connected)
    {
      found := None;
      metrics := metrics.(totalSyncs := metrics.totalSyncs + 1);
      var lockKey := LockKey(req.emailRfqId);
      var lock := kv.SetIfAbsent(lockKey, LockValue, env.faults.lockSet);
      if lock.Failure? {
        metrics := metrics.(failedSyncs := metrics.failedSyncs + 1);
        return FailedResult(req, lock.error, env.timing), found;
      }
      if !lock.value {
        return PendingResult(req, env.timing), found;
      }
      var outcome;
      outcome, found := RunLocked(req, env);
      match outcome
      case Success(id) =>
        result := CompletedResult(req, id, env.timing);
      case Failure(e) =>
        metrics := metrics.(failedSyncs := metrics.failedSyncs + 1);
        result := FailedResult(req, e, env.timing);
    }
  }
}
