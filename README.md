# RFQ sync service — a verified model

The RFQ sync service moves requests for quotation (RFQs) from the email service to the
commerce backend (MedusaJS). It reads sync requests from the message bus and, for each
one, does the following:

- takes a per-RFQ lock in the key-value store (Redis, `SET NX`);
- asks the backend database whether an RFQ with that external id already exists;
- validates and transforms the email RFQ into the backend's shape;
- inserts it, caches the email-id-to-backend-id mapping, and releases the lock;
- publishes a completion event.

Any exception that escapes a handler sends a dead-letter record instead. Status-change
events are consumed and ignored.

The files:

- `config.dfy` holds the configuration defaults the core uses: service name, key prefix
  and topics.
- `events.dfy` holds the event models and the decoding of a sync request.
- `python.dfy` holds the part of Python the code relies on:
  - JSON values and truthiness;
  - `dict.get` and iteration;
  - `str`/`repr`;
  - the exceptions and their texts.
- `transformer.dfy` is the transformer: the status and priority tables, both transforms
  and `validate_for_sync`. `validate_for_sync` is an imperative loop proved against the
  function `ValidationErrors`.
- `kv_store.dfy` is the key-value store: a class over a map, with its three commands.
- `medusa_db.dfy` is the database client: a class over the `rfq` table, with connection
  state and the lookup, insert and update statements.
- `sync_processor.dfy` is the processor.
  - `Sync` gives the whole effect of one `process_sync_to_medusa` call as a function of
    the state before it.
  - The `SyncProcessor` class carries the call out against the store and database objects
    and is proved to agree with `Sync`.
  - Lemmas about `Sync` state the lock, counter, idempotency and insert properties.
- `sync_consumer.dfy` is the consumer.
  - `ProcessMessageSpec` gives the effect of one message.
  - The `SyncConsumer` class routes messages to the handlers and appends the records it
    publishes to an outbox.
  - `Run` handles a sequence of messages and returns a trace. Every step of the trace is
    one that `ProcessMessageSpec` allows, so properties of a whole run follow from lemmas
    about single steps.

Everything outside the program is a parameter:

- the clock: timestamps are ISO strings, and durations are given;
- the 24 hex digits `uuid4` supplies;
- which store, database or bus call fails, and the text it fails with;
- the answer to the backend lookup. Its `SELECT … LIMIT 1` has no `ORDER BY`, so any
  matching row is allowed.

Behaviours of the code that the model keeps:

- The backend row's `external_id` is `str(rfq_data.get("email_rfq_id", ""))`, taken from
  the payload (`transformer.py:123`). The idempotency lookup uses the request's own
  `email_rfq_id` (`sync_processor.py:99`). These are two different fields.
  - When they agree, redelivery is idempotent: `RunKeepsExternalIdsUnique`.
  - When the payload has no `email_rfq_id`, every redelivery inserts another row:
    `RedeliveryDuplicatesWithoutPayloadId`.
- The check "Only process events from Medusa" in `_handle_status_changed`
  (`sync_consumer.py:150-155`) does nothing either way: both branches return without
  effect (`StatusChangesPublishNothing`).
- A completion event is published for PENDING and FAILED results too, not only for
  COMPLETED ones (`sync_consumer.py:116-135`, `SyncRequestPublishesCompletion`).

## Model

| member | source | states |
|---|---|---|
| Events.DirectionFromValue | klapp-rfq-sync-service/src/models/events.py:13-15 | the enum member found for a value has that value; no member has a value that finds nothing |
| Events.SyncStatusValuesDistinct | klapp-rfq-sync-service/src/models/events.py:18-22 | two sync statuses have the same value exactly when they are the same status |
| Events.RequiredStr | klapp-rfq-sync-service/src/models/events.py:57-66 | a required `str` field validates exactly when the key is present with a string, and yields that string |
| Events.OptionalStr | klapp-rfq-sync-service/src/models/events.py:62 | an `Optional[str]` field is None exactly when the key is absent or null |
| Events.IntOr | klapp-rfq-sync-service/src/models/events.py:69-70 | an absent int field takes its declared default; an int is itself and a bool is 1 or 0; null, a list, a dict or the empty string is a validation error naming the field |
| Events.IntTextRoundTrip | klapp-rfq-sync-service/src/models/events.py:69-70 | the decimal text of any integer, signed or not, reads back as that integer |
| Events.WholeFloatRoundTrip | klapp-rfq-sync-service/src/models/events.py:69-70 | the `repr` of a whole float, the integer's text followed by ".0", reads back as that integer |
| Events.IntOrCoerces | klapp-rfq-sync-service/src/models/events.py:69-70 | an int field given as the decimal text of an integer, or as a whole float, validates to that integer |
| Events.TimestampField | klapp-rfq-sync-service/src/models/events.py:59 | a `datetime` field validates exactly for a string or a number, and a string is kept as given |
| Events.DirectionOr | klapp-rfq-sync-service/src/models/events.py:68 | an absent direction takes the default EMAIL_TO_MEDUSA |
| Events.DecodeSyncRequest | klapp-rfq-sync-service/src/models/events.py:55-70 | a non-mapping is a TypeError naming its type; a decoded request carries the event's email id, RFQ number and RFQ data dict; omitted direction, retry count and max retries take EMAIL_TO_MEDUSA, 0 and 3; a missing email id is an error |
| Events.DecodeEnvelope | klapp-rfq-sync-service/src/models/events.py:57-62 | a decoded envelope has the event's `event_id` string |
| Events.DecodeSubject | klapp-rfq-sync-service/src/models/events.py:64-66 | a decoded subject carries the event's email id and RFQ number strings and its RFQ data dict |
| Events.DecodeControl | klapp-rfq-sync-service/src/models/events.py:68-70 | omitted direction, retry count and max retries take EMAIL_TO_MEDUSA, 0 and 3 |
| Events.EnvelopeWellTyped | klapp-rfq-sync-service/src/models/events.py:57-62 | an envelope whose fields have their declared types decodes to exactly those values |
| Events.ControlWellTyped | klapp-rfq-sync-service/src/models/events.py:68-70 | a given direction value and given int counts decode to themselves; omitted ones to the defaults |
| Events.DecodeWellTyped | klapp-rfq-sync-service/src/models/events.py:55-70 | an event with every required field of its declared type decodes to a request holding exactly those values, with the defaults for omitted optional fields |
| Python.Lookup | klapp-rfq-sync-service/src/services/transformer.py:65 | a found value is stored under the key in the dict |
| Python.LookupMissing | klapp-rfq-sync-service/src/services/transformer.py:65 | a lookup comes back empty exactly when no entry has the key |
| Python.LookupDistinct | klapp-rfq-sync-service/src/services/transformer.py:149-158 | in a dict without repeated keys, every entry is what its key looks up |
| Python.FaultOutcome | klapp-rfq-sync-service/src/services/medusa_db.py:127-137 | a call that returns nothing succeeds exactly when the environment injects no fault |
| Python.IterationItems | klapp-rfq-sync-service/src/services/transformer.py:69-72 | `for x in v` fails exactly on None, bools and numbers; it visits nothing exactly when `v` is falsy; iterating a string or a dict yields strings |
| Python.NatToDecimal | klapp-rfq-sync-service/src/services/transformer.py:123 | `str(n)` is a non-empty string of decimal digits |
| Python.DecimalRoundTrip | klapp-rfq-sync-service/src/services/transformer.py:123 | reading back the digits of `str(n)` gives `n` |
| Python.DecimalInjective | klapp-rfq-sync-service/src/services/transformer.py:184 | distinct numbers print differently |
| Python.PyStr | klapp-rfq-sync-service/src/services/transformer.py:123 | `str` of a string is itself, of a non-negative int its digits, of None "None" |
| Transformer.TableGet | klapp-rfq-sync-service/src/services/transformer.py:97-98 | a table lookup raises exactly for an unhashable (list or dict) key; a known string maps through the table; anything else gives the default |
| Transformer.StatusMapping | klapp-rfq-sync-service/src/services/transformer.py:22-36 | an absent status becomes "received"; a string maps through the table or to "received"; null and bools become "received"; every mapped status is a backend status the reverse table knows |
| Transformer.QuoteRequestedIsQuoted | klapp-rfq-sync-service/src/services/transformer.py:29 | "quote_requested" becomes "quoted" |
| Transformer.PriorityMapping | klapp-rfq-sync-service/src/services/transformer.py:48-55 | an absent priority becomes "medium", "critical" becomes "urgent", an unknown string becomes "medium"; every mapped priority is one of low, medium, high and urgent |
| Transformer.StatusRoundTrip | klapp-rfq-sync-service/src/services/transformer.py:38-46 | mapping a backend status to the email vocabulary and back gives the same backend status |
| Transformer.TransformLineItem | klapp-rfq-sync-service/src/services/transformer.py:147-158 | a transformed line item is a dict |
| Transformer.LineItemKeysDistinct | klapp-rfq-sync-service/src/services/transformer.py:149-158 | a transformed line item has exactly the eight keys, each once |
| Transformer.LineItemDefaults | klapp-rfq-sync-service/src/services/transformer.py:150-155 | description, quantity, unit and specifications are the item's or default to "", 1, "pcs" and {}; part number and unit price are the item's or None |
| Transformer.TransformLineItems | klapp-rfq-sync-service/src/services/transformer.py:69-72 | the comprehension succeeds exactly when every item is a dict, keeps length and order, and otherwise raises the AttributeError of the first non-dict item |
| Transformer.DeliveryAddressOf | klapp-rfq-sync-service/src/services/transformer.py:75-85 | None exactly when `delivery` is missing or falsy; an AttributeError exactly when it is truthy and not a dict; otherwise a dict of the six delivery fields |
| Transformer.JoinStrs | klapp-rfq-sync-service/src/services/transformer.py:90-92 | `"; ".join` succeeds exactly when every value is a string, and then is `Join` of those strings; otherwise it raises the TypeError naming the index and type of the first non-string |
| Transformer.ItemDescriptions | klapp-rfq-sync-service/src/services/transformer.py:91 | one description per line item |
| Transformer.FirstNonStr | klapp-rfq-sync-service/src/services/transformer.py:90-92 | the index of the first value that is not a string: every value before it is a string, and it is the length exactly when all are |
| Transformer.DescriptionGiven | klapp-rfq-sync-service/src/services/transformer.py:88 | a truthy description wins; otherwise a truthy title; with no line items the title is kept as it is |
| Transformer.DescriptionFromItems | klapp-rfq-sync-service/src/services/transformer.py:89-94 | with neither description nor title, the first three item descriptions are joined with "; ", and " (+n more items)" is added for n items beyond three |
| Transformer.DescriptionJoinRaises | klapp-rfq-sync-service/src/services/transformer.py:88-92 | with neither description nor title, a non-string among the first three item descriptions makes the join raise the TypeError naming the first such index and its type |
| Transformer.ExternalIdOf | klapp-rfq-sync-service/src/services/transformer.py:123 | "" when the payload has no `email_rfq_id`; the string itself; the digits of a number; "None" for null |
| Transformer.AiAnalysisOf | klapp-rfq-sync-service/src/services/transformer.py:117-122 | a dict of the four keys in order, with source "email" |
| Transformer.ExpectStr | klapp-rfq-sync-service/src/models/events.py:88-89 | a `str` field validates exactly for strings |
| Transformer.ExpectOptStr | klapp-rfq-sync-service/src/models/events.py:90-94 | an `Optional[str]` field validates exactly for strings and None |
| Transformer.DeriveFields | klapp-rfq-sync-service/src/services/transformer.py:64-102 | the derived line items, delivery address, status, priority and customer are those of the per-field functions, in Python's evaluation order |
| Transformer.BuildRecord | klapp-rfq-sync-service/src/services/transformer.py:104-125 | the record carries the validated RFQ number and customer email and the derived line items, status, priority and delivery address |
| Transformer.TransformEmailToMedusa | klapp-rfq-sync-service/src/services/transformer.py:57-125 | a transformed RFQ has the payload's external id, source "email", sync status "synced" and the AI analysis blob; customer id, company id, requirements and attachments are None; its status, priority, delivery address and line items are the mapped ones |
| Transformer.TransformKeepsLineItems | klapp-rfq-sync-service/src/services/transformer.py:68-72 | the transformed line items are the payload's, one for one and in order, each through `_transform_line_item` |
| Transformer.TransformOfSyncable | klapp-rfq-sync-service/src/services/transformer.py:57-125 | a payload that validates, and has strings where the record wants strings, transforms, keeping its RFQ number and customer email |
| Transformer.DescriptionIsOptionalStr | klapp-rfq-sync-service/src/services/transformer.py:88-94 | with string-or-None description and title and string item descriptions, the derived description is a string or None |
| Transformer.EmailStatusMapping | klapp-rfq-sync-service/src/services/transformer.py:135-136 | an absent status becomes "received"; a string maps through the reverse table or to "validated"; the result is always an email status the forward table knows |
| Transformer.TransformMedusaToEmail | klapp-rfq-sync-service/src/services/transformer.py:127-145 | the update succeeds exactly when the status lookup does, and is a dict |
| Transformer.EmailUpdateEntry | klapp-rfq-sync-service/src/services/transformer.py:138-145 | the update has its six keys, each once, and each key looks up its own entry |
| Transformer.MedusaToEmailFields | klapp-rfq-sync-service/src/services/transformer.py:138-145 | the update carries the mapped status, the priority (default "medium"), the backend id and the sync instant |
| Transformer.MedusaStatusSurvivesRoundTrip | klapp-rfq-sync-service/src/services/transformer.py:127-136 | a transformed RFQ's status, sent back to the email service and mapped again, is the same backend status |
| Transformer.ItemErrors | klapp-rfq-sync-service/src/services/transformer.py:182-184 | the item checks succeed exactly when every item is a dict |
| Transformer.ItemErrorsEmptyIff | klapp-rfq-sync-service/src/services/transformer.py:182-184 | no item errors exactly when every item is a dict with a truthy description |
| Transformer.ItemErrorsExact | klapp-rfq-sync-service/src/services/transformer.py:183-184 | "Line item k missing description" is reported exactly for the k-th item (1-based) without a truthy description |
| Transformer.ItemErrorsLines | klapp-rfq-sync-service/src/services/transformer.py:184 | every item error names a line of the list |
| Transformer.ItemErrorsSkip | klapp-rfq-sync-service/src/services/transformer.py:182 | no error names the line before the first item checked |
| Transformer.LineItemErrorInjective | klapp-rfq-sync-service/src/services/transformer.py:184 | distinct lines give distinct messages |
| Transformer.ValidIffSyncable | klapp-rfq-sync-service/src/services/transformer.py:160-186 | validation reports no errors exactly for an RFQ with a truthy number, a customer with a truthy email and a non-empty list of dict items that all have truthy descriptions |
| Transformer.ValidationErrorsOrder | klapp-rfq-sync-service/src/services/transformer.py:170-184 | the error list is the RFQ number, customer email and empty-list errors in that order, each present exactly when its check fails, followed by the item errors |
| Transformer.ValidateForSync | klapp-rfq-sync-service/src/services/transformer.py:160-186 | the loop returns `ValidationErrors` and a flag that is true exactly when the list is empty, or raises exactly the exception `ValidationErrors` names |
| KeyValue.SetIfAbsentResult | klapp-rfq-sync-service/src/services/sync_processor.py:76-81 | `SET NX` answers whenever no fault occurs, and answers true exactly when the key was absent |
| KeyValue.SetIfAbsentState | klapp-rfq-sync-service/src/services/sync_processor.py:76-81 | `SET NX` writes the key only when it was absent and no fault occurs |
| KeyValue.SetState | klapp-rfq-sync-service/src/services/sync_processor.py:128-132 | `SET` stores the value under the key; on a fault the store is unchanged; every other key keeps its presence and its value |
| KeyValue.DeleteState | klapp-rfq-sync-service/src/services/sync_processor.py:148-150 | `DEL` removes the key and keeps every other entry |
| KeyValue.SetThenDelete | klapp-rfq-sync-service/src/services/sync_processor.py:76-150 | taking the lock and releasing it leaves the store as it was |
| KeyValue.SetIfAbsentExcludes | klapp-rfq-sync-service/src/services/sync_processor.py:76-83 | a second `SET NX` on a held lock answers false |
| KeyValue.KeyValueStore.constructor | klapp-rfq-sync-service/src/services/sync_processor.py:73 | a store starts empty |
| KeyValue.KeyValueStore.SetIfAbsent | klapp-rfq-sync-service/src/services/sync_processor.py:76-81 | the command's answer and the new entries are those of `SetIfAbsentResult` and `SetIfAbsentState` |
| KeyValue.KeyValueStore.Set | klapp-rfq-sync-service/src/services/sync_processor.py:128-132 | the command fails exactly on a fault, and the new entries are `SetState` |
| KeyValue.KeyValueStore.Delete | klapp-rfq-sync-service/src/services/sync_processor.py:150 | the command fails exactly on a fault, and the new entries are `DeleteState` |
| MedusaDb.NullIfFalsy | klapp-rfq-sync-service/src/services/medusa_db.py:104-108 | a JSON column is NULL exactly when its value is absent or falsy, and otherwise stores the value |
| MedusaDb.RfqId | klapp-rfq-sync-service/src/services/medusa_db.py:72 | a backend id is "rfq_" followed by the 24 hex digits |
| MedusaDb.RowOf | klapp-rfq-sync-service/src/services/medusa_db.py:74-115 | the inserted row has the new id, the RFQ's number, status, external id and source, sync status "synced", and NULL for falsy JSON columns |
| MedusaDb.CreateResult | klapp-rfq-sync-service/src/services/medusa_db.py:64-118 | the insert succeeds exactly when the pool exists, no fault occurs and the id is new, and then returns the id |
| MedusaDb.UpdateState | klapp-rfq-sync-service/src/services/medusa_db.py:127-137 | with a pool and no fault the named row gets the new status and update instant; without a pool or on a fault the table is unchanged; no row is added or removed and no other row changes |
| MedusaDb.FindAfterCreate | klapp-rfq-sync-service/src/services/medusa_db.py:47-118 | after an insert, the lookup by its external id finds a row with that external id |
| MedusaDb.CreateKeepsRows | klapp-rfq-sync-service/src/services/medusa_db.py:64-118 | an insert keeps every existing row, adds at most one, and keeps rows keyed by their id |
| MedusaDb.UpdateKeepsLookups | klapp-rfq-sync-service/src/services/medusa_db.py:120-138 | a status update does not change whether a lookup by external id comes back empty |
| MedusaDb.MedusaDbClient.constructor | klapp-rfq-sync-service/src/services/medusa_db.py:24-25 | a new client has no pool |
| MedusaDb.MedusaDbClient.Connect | klapp-rfq-sync-service/src/services/medusa_db.py:27-38 | connecting is a no-op when the pool exists; otherwise it opens the pool or fails with the fault; the rows stay |
| MedusaDb.MedusaDbClient.Disconnect | klapp-rfq-sync-service/src/services/medusa_db.py:40-45 | a no-op without a pool; otherwise the close succeeds and drops the pool exactly when no fault occurs, and a failing close raises its error and keeps the pool; the rows stay |
| MedusaDb.MedusaDbClient.FindRfqByExternalId | klapp-rfq-sync-service/src/services/medusa_db.py:47-62 | without a pool, the `'NoneType'…'acquire'` error; on a fault, the fault; otherwise an answer the table could give: some row with that external id, or none exactly when no row has it |
| MedusaDb.MedusaDbClient.CreateRfq | klapp-rfq-sync-service/src/services/medusa_db.py:64-118 | its result and new table are `CreateResult` and `CreateState` |
| MedusaDb.MedusaDbClient.UpdateRfqStatus | klapp-rfq-sync-service/src/services/medusa_db.py:120-138 | it fails without a pool or on a fault; the new table is `UpdateState` |
| SyncProcessing.LockKeyNotMapKey | klapp-rfq-sync-service/src/services/sync_processor.py:74 | a lock key is never a cache key |
| SyncProcessing.PrepareSucceeds | klapp-rfq-sync-service/src/services/sync_processor.py:117-122 | the payload is prepared exactly when it validates and transforms, and the prepared record is the transform's |
| SyncProcessing.LockHeldIsPending | klapp-rfq-sync-service/src/services/sync_processor.py:83-94 | while the lock is held, a sync returns PENDING with "Lock not acquired, will retry", duration 0 and no backend id, and changes only the total counter |
| SyncProcessing.GuardedTouchesOnlyCache | klapp-rfq-sync-service/src/services/sync_processor.py:96-146 | the part under the lock writes no store key but the cache key |
| SyncProcessing.LockReleased | klapp-rfq-sync-service/src/services/sync_processor.py:148-150 | a sync that took the lock leaves it held exactly when the release fails |
| SyncProcessing.MetricsAccounting | klapp-rfq-sync-service/src/services/sync_processor.py:69-153 | each call adds one to the total; a FAILED result adds one to the failed count; the success count moves at most once, and never on PENDING; retries never move |
| SyncProcessing.GuardedSucceeds | klapp-rfq-sync-service/src/services/sync_processor.py:96-146 | the part under the lock counts a success exactly when the pool answers, the lookup finds nothing, the payload is prepared and the insert and the cache write succeed; it then returns the new id, has cached it and has added the one row |
| SyncProcessing.SuccessCountedOnlyAfterInsert | klapp-rfq-sync-service/src/services/sync_processor.py:125-134 | the success count moves only after a lookup that found nothing, an insert of the prepared record under the new id, and a cache write of that id under the map key |
| SyncProcessing.ResultEchoesRequest | klapp-rfq-sync-service/src/services/sync_processor.py:85-165 | the result names the request's RFQ, the email-to-backend direction and the start instant; FAILED carries an error and no id; COMPLETED an id and no error; never IN_PROGRESS |
| SyncProcessing.ConcludedEchoes | klapp-rfq-sync-service/src/services/sync_processor.py:152-165 | whatever the attempt, the concluded result echoes the request; FAILED carries an error and no id, COMPLETED an id and no error |
| SyncProcessing.CompletedNamesExistingRow | klapp-rfq-sync-service/src/services/sync_processor.py:99-146 | a COMPLETED result names a row that exists afterwards |
| SyncProcessing.FoundRowCompletes | klapp-rfq-sync-service/src/services/sync_processor.py:99-114 | when the lookup finds a row, the sync completes with that row's id, leaves the store and table as they were, and counts only the total |
| SyncProcessing.InvalidDataFails | klapp-rfq-sync-service/src/services/sync_processor.py:116-119 | a payload with validation errors fails with "Validation failed: " and the errors joined by ", ", inserts nothing, leaves the store as it was, and counts one total and one failure |
| SyncProcessing.SuccessfulSyncInserts | klapp-rfq-sync-service/src/services/sync_processor.py:121-146 | with nothing failing and nothing found, the sync completes with the new id, caches it under the map key, releases the lock, and grows the table by exactly the one new row |
| SyncProcessing.LockedInserts | klapp-rfq-sync-service/src/services/sync_processor.py:121-150 | with nothing failing and nothing found, the store after the release is the old store plus the cached id, and the table is the old one plus the new row |
| SyncProcessing.RowsGrowByAtMostOne | klapp-rfq-sync-service/src/services/sync_processor.py:98-125 | a sync leaves the table as it was, or adds the transformed payload under a fresh id, and only after a lookup that found nothing |
| SyncProcessing.SyncKeepsExternalIdsUnique | klapp-rfq-sync-service/src/services/sync_processor.py:98-125 | when the payload's external id is the request's, a sync keeps external ids unique in the table |
| SyncProcessing.InsertKeepsUnique | klapp-rfq-sync-service/src/services/sync_processor.py:99-125 | inserting a row whose external id no row has keeps external ids unique |
| SyncProcessing.RedeliveryFindsRow | klapp-rfq-sync-service/src/services/sync_processor.py:99-114 | redelivering a request that was inserted finds the row and completes with the backend id the first delivery created, without inserting again |
| SyncProcessing.RedeliveryDuplicatesEmptyExternalId | klapp-rfq-sync-service/src/services/sync_processor.py:99-125 | a record stored with external id "" is never found again, so two deliveries both complete and leave two rows |
| SyncProcessing.RedeliveryDuplicatesWithoutPayloadId | klapp-rfq-sync-service/src/services/transformer.py:123 | a payload without `email_rfq_id` is stored with external id "", so every redelivery inserts another row |
| SyncProcessing.SyncProcessor.constructor | klapp-rfq-sync-service/src/services/sync_processor.py:38-44 | all four counters start at zero |
| SyncProcessing.SyncProcessor.GetMetrics | klapp-rfq-sync-service/src/services/sync_processor.py:167-169 | returns the counters |
| SyncProcessing.SyncProcessor.PreparePayload | klapp-rfq-sync-service/src/services/sync_processor.py:117-122 | validation, then the transform, gives `Prepare` of the payload |
| SyncProcessing.SyncProcessor.Insert | klapp-rfq-sync-service/src/services/sync_processor.py:125-132 | the insert and the cache write leave the store and table as `Guarded` says for a lookup that found nothing |
| SyncProcessing.SyncProcessor.RunGuarded | klapp-rfq-sync-service/src/services/sync_processor.py:96-146 | the part under the lock agrees with `Guarded` for the lookup answer the table gave |
| SyncProcessing.SyncProcessor.RunLocked | klapp-rfq-sync-service/src/services/sync_processor.py:96-150 | with the `finally`, it agrees with `Locked` |
| SyncProcessing.SyncProcessor.ProcessSyncToMedusa | klapp-rfq-sync-service/src/services/sync_processor.py:61-165 | the result, the store, the table and the counters are those of `Sync`, and the lookup answer is one the table could give |
| SyncConsumers.KeyOf | klapp-rfq-sync-service/src/consumers/sync_consumer.py:56 | an empty key is sent as no key; any other key as itself |
| SyncConsumers.CompletionEventKeys | klapp-rfq-sync-service/src/consumers/sync_consumer.py:120-135 | the completion event has its fourteen keys, each once |
| SyncConsumers.CompletionEventContents | klapp-rfq-sync-service/src/consumers/sync_consumer.py:120-135 | event id and idempotency key are both "sync_completed_" and the email id; status, ids, duration and error are the result's |
| SyncConsumers.DlqRecord | klapp-rfq-sync-service/src/consumers/sync_consumer.py:160-169 | the dead-letter record goes to the DLQ topic, keyed "dlq_" and a timestamp, with its four keys |
| SyncConsumers.DlqRecordContents | klapp-rfq-sync-service/src/consumers/sync_consumer.py:162-167 | the dead-letter record carries the topic, the event as received and the failure text |
| SyncConsumers.SendResult | klapp-rfq-sync-service/src/consumers/sync_consumer.py:118 | a send succeeds exactly when a producer exists and no fault occurs |
| SyncConsumers.Sent | klapp-rfq-sync-service/src/consumers/sync_consumer.py:118 | a send appends its record exactly when it succeeds, and otherwise nothing |
| SyncConsumers.HandleSyncOutcome | klapp-rfq-sync-service/src/consumers/sync_consumer.py:111-146 | a request that does not decode raises its error and changes nothing; a handled request publishes exactly its completion record; a raising one publishes nothing; the connection stays |
| SyncConsumers.HandleStatusOutcome | klapp-rfq-sync-service/src/consumers/sync_consumer.py:148-155 | a status change is handled exactly when it is a dict; otherwise the `.get` AttributeError |
| SyncConsumers.ProcessMessageSpec | klapp-rfq-sync-service/src/consumers/sync_consumer.py:91-109 | handling a message never changes the connection |
| SyncConsumers.OtherTopicsIgnored | klapp-rfq-sync-service/src/consumers/sync_consumer.py:104-105 | a message on another topic publishes nothing and changes nothing |
| SyncConsumers.StatusChangesPublishNothing | klapp-rfq-sync-service/src/consumers/sync_consumer.py:102-103 | a status change changes nothing; it is ignored exactly when it is a dict, and is otherwise dead-lettered with the AttributeError text |
| SyncConsumers.SyncRequestPublishesCompletion | klapp-rfq-sync-service/src/consumers/sync_consumer.py:111-137 | a decoded request with a working producer leaves the processor's state after one sync and publishes exactly its completion record on the completed topic, keyed by the RFQ number |
| SyncConsumers.ErrorsGoToDeadLetter | klapp-rfq-sync-service/src/consumers/sync_consumer.py:107-109 | a message publishes at most one record; a dead-lettered one attempts exactly one dead-letter record carrying the error text; an undecodable request is dead-lettered with changes to nothing; a decoded one is dead-lettered exactly when publishing fails |
| SyncConsumers.StepKeepsExternalIdsUnique | klapp-rfq-sync-service/src/consumers/sync_consumer.py:91-109 | a message whose ids agree keeps external ids unique |
| SyncConsumers.RunKeepsExternalIdsUnique | klapp-rfq-sync-service/src/consumers/sync_consumer.py:79-89 | over a run of messages whose ids agree, the table never holds two rows with one external id |
| SyncConsumers.RunRecordsBounded | klapp-rfq-sync-service/src/consumers/sync_consumer.py:79-89 | a run publishes at most one record per message |
| SyncConsumers.SyncConsumer.constructor | klapp-rfq-sync-service/src/consumers/sync_consumer.py:28-31 | a consumer starts not running, without consumer or producer |
| SyncConsumers.SyncConsumer.Start | klapp-rfq-sync-service/src/consumers/sync_consumer.py:33-68 | a no-op when running; otherwise it creates both clients and runs exactly when starting them does not fail |
| SyncConsumers.SyncConsumer.Stop | klapp-rfq-sync-service/src/consumers/sync_consumer.py:70-77 | clears the running flag and changes nothing else |
| SyncConsumers.SyncConsumer.Send | klapp-rfq-sync-service/src/consumers/sync_consumer.py:118-137 | its outcome is `SendResult`, and the outbox grows by `Sent` |
| SyncConsumers.SyncConsumer.SendToDlq | klapp-rfq-sync-service/src/consumers/sync_consumer.py:157-171 | the outbox grows by the dead-letter record when it can be sent, and a failure is swallowed |
| SyncConsumers.SyncConsumer.HandleSyncToMedusa | klapp-rfq-sync-service/src/consumers/sync_consumer.py:111-146 | its outcome, the processor's state and the outbox are `HandleSyncOutcome`'s, for a lookup answer the table could give |
| SyncConsumers.SyncConsumer.HandleStatusChanged | klapp-rfq-sync-service/src/consumers/sync_consumer.py:148-155 | its outcome is `HandleStatusOutcome` |
| SyncConsumers.SyncConsumer.ProcessMessage | klapp-rfq-sync-service/src/consumers/sync_consumer.py:91-109 | the new state and the appended records are those `ProcessMessageSpec` allows; the flags stay |
| SyncConsumers.SyncConsumer.Run | klapp-rfq-sync-service/src/consumers/sync_consumer.py:79-89 | a failure to start propagates and changes nothing; otherwise the consumer is running, the messages are handled in order, each step allowed by `ProcessMessageSpec`, and the outbox grows by the trace's records |

## Left out

- The circuit breaker and retry decorators (`sync_processor.py:46-60`) are left out.
  `process_sync_to_medusa` catches every exception and returns a result, so the retry
  never fires, the breaker never counts a failure, and the `retries` counter stays 0.
- Key expiry (`ex=` on the lock and on the cache entry) is left out. Time does not pass
  in the model.
- Concurrency is left out: two syncs never interleave. The lock is modelled as a map
  entry, which is what it is between syncs.
- A `KafkaError` raised by the consumer's iterator in `run` is left out. The message
  stream is a finite sequence given in advance.
- The clock and `uuid4` are parameters: sync start, completion and duration, the insert
  instant, the dead-letter stamp, and the hex digits of a new id.
- MedusaDb.RowOf: the insert's three `datetime.utcnow()` calls are one instant.
- MedusaDb.MedusaDbClient.Disconnect: after a failing `close()` the closed pool is kept,
  and the model treats it as a pool that is still present. A later `connect` is then a
  no-op, as in the source. Statements through the closed pool fail only where a fault is
  supplied for them.
- `get_medusa_db` is not modelled. It creates the singleton client and connects it on
  its first call, and the model starts from the client after that call. A client whose
  connect failed has no pool, and every statement then fails with the `'NoneType'` error,
  as in the source.
- Pydantic is left out beyond what the code exercises:
  - the `str`, `Optional[str]` and enum fields of the request and of `MedusaRFQ` are
    checked as pydantic's lax mode does: no coercion to `str`;
  - list, dict and float fields are accepted as given;
  - the text of a validation error is a fixed shape, not pydantic's full message, and
    only the first failing field is reported.
- Events.IntOr: lax `int` coercion is modelled for ints, bools, whole floats written as
  digits and ".0", and strings of an optional minus sign and decimal digits. Other texts
  pydantic may accept are not: surrounding whitespace, a leading "+", underscores,
  strings with a fraction of zeros such as "1.0" or "1.", and float `repr`s in exponent
  form such as `1e+16`.
- Events.DecodeSyncRequest: `event_timestamp` is kept as text. A string is not checked
  against ISO 8601, and a number (seconds since the epoch) is kept as its decimal text or
  `repr`, not turned into a date.
- Floats are opaque and carried by their `repr`. Nothing in the service computes with
  them.
- Python.PyStr: `repr` of characters above U+00A0 that Python escapes as not printable is
  not modelled. Those characters are written as themselves.
- Logging is left out: it has no effect on state or results.
- `CustomerInfo` and `DeliveryInfo` in `events.py` are declared but never used by the
  core, so they are not modelled.
- `main.py`, the service entry point, is not part of this model.
- Configuration loading from the environment is left out. Only the default values are
  modelled.
- SyncConsumers.SyncConsumer.Stop: stopping the bus clients is not modelled, because they
  are outside the model. `Stop` clears the running flag.
- Python.Lookup: a JSON object with a repeated key is looked up by its first entry, while
  `json.loads` keeps the last one.
- SyncConsumers.SyncConsumer.Run: the consumer loop never ends in the source. The model
  handles a given finite sequence of messages.
