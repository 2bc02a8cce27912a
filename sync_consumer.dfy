/**
 * The consumer: it routes each incoming message by topic, runs a sync request through
 * the processor and publishes one completion event for it, ignores status changes, and
 * sends any exception that escapes a handler to the dead-letter topic. The producer is
 * an append-only outbox of records.
 */
module SyncConsumers {
  import opened Wrappers
  import opened Python
  import opened Config
  import opened Events
  import opened MedusaDb
  import opened Transformer
  import opened SyncProcessing

  /** A consumed message: its topic, its decoded key and its decoded JSON value. */
  datatype Message = Message(topic: string, key: Option<string>, value: Json)

  /** A published record. A key that is empty or missing is sent as no key. */
  datatype Record = Record(topic: string, key: Option<string>, value: Json)

  /** What one message's handling takes from outside: the sync's environment, whether the
      completion and dead-letter sends fail, and the clock readings of the dead-letter
      record (its `failure_timestamp` and the `timestamp()` text in its key). */
  datatype MessageEnv = MessageEnv(
    sync: SyncEnv,
    publishFault: Option<string>,
    dlqFault: Option<string>,
    failureTimestamp: Timestamp,
    dlqStamp: string)

  const CompletedPrefix: string := "sync_completed_"
  const DlqKeyPrefix: string := "dlq_"

  /** Sending on a consumer whose producer was never created. */
  const NoProducer: PyError := AttributeError("NoneType", "send_and_wait")

  /** `k.encode() if k else None` */
  function KeyOf(k: string): (r: Option<string>)
    ensures r.None? <==> k == ""
    ensures r.Some? ==> r.value == k
  {
    if k == "" then None else Some(k)
  }

  function OptStr(v: Option<string>): Json {
    if v.Some? then JStr(v.value) else JNull
  }

  const CompletionKeys: seq<string> := ["event_id", "event_type", "event_timestamp", "source_service",
    "idempotency_key", "email_rfq_id", "medusa_rfq_id", "rfq_number", "sync_direction", "sync_status",
    "sync_started_at", "sync_completed_at", "sync_duration_ms", "error_message"]

  /** The completion event for one sync result. Timestamps are carried in ISO form. */
  function CompletionFields(r: RfqSyncResult): Fields {
    [("event_id", JStr(CompletedPrefix + r.emailRfqId)),
     ("event_type", JStr(TopicRfqSyncCompleted)),
     ("event_timestamp", JStr(r.syncCompletedAt)),
     ("source_service", JStr(ServiceName)),
     ("idempotency_key", JStr(CompletedPrefix + r.emailRfqId)),
     ("email_rfq_id", JStr(r.emailRfqId)),
     ("medusa_rfq_id", OptStr(r.medusaRfqId)),
     ("rfq_number", JStr(r.rfqNumber)),
     ("sync_direction", JStr(r.syncDirection.Value())),
     ("sync_status", JStr(r.syncStatus.Value())),
     ("sync_started_at", JStr(r.syncStartedAt)),
     ("sync_completed_at", JStr(r.syncCompletedAt)),
     ("sync_duration_ms", JInt(r.durationMs)),
     ("error_message", OptStr(r.errorMessage))]
  }

  function CompletionRecord(r: RfqSyncResult): Record {
    Record(TopicRfqSyncCompleted, KeyOf(r.rfqNumber), JObj(CompletionFields(r)))
  }

  /** The completion event has its fourteen keys, each once. */
  lemma CompletionEventKeys(r: RfqSyncResult)
    ensures Keys(CompletionFields(r)) == CompletionKeys && DistinctKeys(CompletionFields(r))
  {
  }

  /** The completion event's id and idempotency key are both "sync_completed_" and the
      RFQ's email id, and its status, ids, error and duration are the result's. */
  lemma CompletionEventContents(r: RfqSyncResult)
    ensures var fs := CompletionFields(r);
      && Lookup(fs, "event_id") == Some(JStr(CompletedPrefix + r.emailRfqId))
      && Lookup(fs, "idempotency_key") == Lookup(fs, "event_id")
      && Lookup(fs, "email_rfq_id") == Some(JStr(r.emailRfqId))
      && Lookup(fs, "sync_status") == Some(JStr(r.syncStatus.Value()))
      && Lookup(fs, "medusa_rfq_id") == Some(OptStr(r.medusaRfqId))
      && Lookup(fs, "sync_duration_ms") == Some(JInt(r.durationMs))
      && Lookup(fs, "error_message") == Some(OptStr(r.errorMessage))
  {
    var fs := CompletionFields(r);
    CompletionEventKeys(r);
    LookupDistinct(fs);
    assert fs[0].0 == "event_id" && fs[4].0 == "idempotency_key" && fs[5].0 == "email_rfq_id";
    assert fs[6].0 == "medusa_rfq_id" && fs[9].0 == "sync_status";
    assert fs[12].0 == "sync_duration_ms" && fs[13].0 == "error_message";
  }

  /** The dead-letter record for a message whose handling raised `reason`. */
  function DlqRecord(topic: string, event: Json, reason: string, env: MessageEnv): (rec: Record)
    ensures rec.topic == TopicRfqDlq && rec.key == Some(DlqKeyPrefix + env.dlqStamp)
    ensures rec.value.JObj? && Keys(rec.value.fields) == ["original_topic", "original_event", "failure_reason", "failure_timestamp"]
  {
    Record(TopicRfqDlq, Some(DlqKeyPrefix + env.dlqStamp),
      JObj([("original_topic", JStr(topic)), ("original_event", event),
            ("failure_reason", JStr(reason)), ("failure_timestamp", JStr(env.failureTimestamp))]))
  }

  /** The dead-letter record carries the topic, the event as received and the text of the
      exception. */
  lemma DlqRecordContents(topic: string, event: Json, reason: string, env: MessageEnv)
    ensures var fs := DlqRecord(topic, event, reason, env).value.fields;
      && Lookup(fs, "original_topic") == Some(JStr(topic))
      && Lookup(fs, "original_event") == Some(event)
      && Lookup(fs, "failure_reason") == Some(JStr(reason))
  {
    var fs := DlqRecord(topic, event, reason, env).value.fields;
    assert DistinctKeys(fs);
    LookupDistinct(fs);
    assert fs[0].0 == "original_topic" && fs[1].0 == "original_event" && fs[2].0 == "failure_reason";
  }

  /** `send_and_wait` of one record: what it raises, and what it appends. */
  function SendResult(hasProducer: bool, fault: Option<string>): (r: Result<(), PyError>)
    ensures r.Success? <==> hasProducer && fault.None?
  {
    if !hasProducer then Failure(NoProducer) else FaultOutcome(fault)
  }

  function Sent(rec: Record, hasProducer: bool, fault: Option<string>): (out: seq<Record>)
    ensures out == [] || out == [rec]
    ensures out == [rec] <==> SendResult(hasProducer, fault).Success?
  {
    if SendResult(hasProducer, fault).Success? then [rec] else []
  }

  /** The processor's state a message sees. */
  datatype World = World(kv: map<string, string>, rows: map<string, Row>, connected: bool, metrics: Metrics)

  /** What a handler did before it returned or raised: its outcome, the processor's state
      afterwards, the records it sent and the sync result it computed, if any. */
  datatype Handled = Handled(r: Result<(), PyError>, after: World, records: seq<Record>, result: Option<RfqSyncResult>)

  /** `_handle_sync_to_medusa`: a payload that does not decode raises before anything
      happens; otherwise the sync runs and its completion event is sent, and a send that
      fails raises. */
  function HandleSyncOutcome(event: Json, hasProducer: bool, w: World, env: MessageEnv, found: Option<Summary>): (h: Handled)
    ensures h.r.Failure? ==> h.records == []
    ensures h.r.Success? ==> h.result.Some? && h.records == [CompletionRecord(h.result.value)]
    ensures DecodeSyncRequest(event).Failure? ==> h.r == Failure(DecodeSyncRequest(event).error) && h.after == w
    ensures h.after.connected == w.connected
  {
    match DecodeSyncRequest(event)
    case Failure(e) => Handled(Failure(e), w, [], None)
    case Success(req) =>
      var o := Sync(req, Prepare(req.rfqData), w.kv, w.rows, w.connected, w.metrics, env.sync, found);
      Handled(SendResult(hasProducer, env.publishFault), World(o.kv, o.rows, w.connected, o.metrics),
              Sent(CompletionRecord(o.result), hasProducer, env.publishFault), Some(o.result))
  }

  /** `_handle_status_changed`: `event.get` raises on anything but a dict; on a dict the
      handler returns without effect, whichever service sent the event. */
  function HandleStatusOutcome(event: Json): (r: Result<(), PyError>)
    ensures r.Success? <==> event.JObj?
    ensures r.Failure? ==> r.error == AttributeError(TypeName(event), "get")
  {
    if event.JObj? then Success(()) else Failure(AttributeError(TypeName(event), "get"))
  }

  /** How a message ended. */
  datatype Handling =
    | Ignored
    | Published(result: RfqSyncResult)
    | DeadLettered(reason: string)

  /** The effect of `_process_message`: the records it appends, the processor's state
      afterwards, and how the message ended. */
  datatype MessageOutcome = MessageOutcome(records: seq<Record>, after: World, handling: Handling)

  function DeadLetter(msg: Message, e: PyError, hasProducer: bool, env: MessageEnv, after: World): MessageOutcome {
    MessageOutcome(Sent(DlqRecord(msg.topic, msg.value, e.Message(), env), hasProducer, env.dlqFault),
      after, DeadLettered(e.Message()))
  }

  /** The effect of `_process_message` in state `w`. `found` is the processor's lookup answer. */
  function ProcessMessageSpec(msg: Message, hasProducer: bool, w: World, env: MessageEnv, found: Option<Summary>): (o: MessageOutcome)
    ensures o.after.connected == w.connected
  {
    if msg.topic == TopicRfqSyncToMedusa then
      var h := HandleSyncOutcome(msg.value, hasProducer, w, env, found);
      if h.r.Failure? then DeadLetter(msg, h.r.error, hasProducer, env, h.after)
      else MessageOutcome(h.records, h.after, Published(h.result.value))
    else if msg.topic == TopicRfqStatusChanged then
      var r := HandleStatusOutcome(msg.value);
      if r.Failure? then DeadLetter(msg, r.error, hasProducer, env, w)
      else MessageOutcome([], w, Ignored)
    else MessageOutcome([], w, Ignored)
  }

  /** `found` is an answer the table could give, if the sync request reaches the lookup. */
  predicate SyncFound(event: Json, w: World, env: MessageEnv, found: Option<Summary>) {
    DecodeSyncRequest(event).Success? ==>
      ValidFound(DecodeSyncRequest(event).value, w.kv, w.rows, w.connected, env.sync, found)
  }

  predicate MessageFound(msg: Message, w: World, env: MessageEnv, found: Option<Summary>) {
    msg.topic == TopicRfqSyncToMedusa ==> SyncFound(msg.value, w, env, found)
  }

  // ---------------------------------------------------------------------------
  // Properties of one message

  /** A message on any other topic publishes nothing and changes nothing. */
  lemma OtherTopicsIgnored(msg: Message, hasProducer: bool, w: World, env: MessageEnv, found: Option<Summary>)
    requires msg.topic != TopicRfqSyncToMedusa && msg.topic != TopicRfqStatusChanged
    ensures ProcessMessageSpec(msg, hasProducer, w, env, found) == MessageOutcome([], w, Ignored)
  {
  }

  /** A status change publishes nothing, whether this service sent it or not, and changes
      nothing; only a value that is not a dict makes it a dead letter. */
  lemma StatusChangesPublishNothing(msg: Message, hasProducer: bool, w: World, env: MessageEnv, found: Option<Summary>)
    requires msg.topic == TopicRfqStatusChanged
    ensures var o := ProcessMessageSpec(msg, hasProducer, w, env, found);
      && o.after == w
      && (o.handling.Ignored? <==> msg.value.JObj?)
      && (msg.value.JObj? ==> o.records == [])
      && (!msg.value.JObj? ==> o.handling == DeadLettered(AttributeError(TypeName(msg.value), "get").Message()))
  {
  }

  /** Each sync request that decodes gets exactly one sync and, when the producer sends,
      exactly one completion record, keyed by the RFQ number, naming the result of the
      sync; FAILED and PENDING results are published like COMPLETED ones. */
  lemma SyncRequestPublishesCompletion(msg: Message, hasProducer: bool, w: World, env: MessageEnv, found: Option<Summary>)
    requires msg.topic == TopicRfqSyncToMedusa && DecodeSyncRequest(msg.value).Success?
    requires hasProducer && env.publishFault.None?
    ensures var req := DecodeSyncRequest(msg.value).value;
      var s := Sync(req, Prepare(req.rfqData), w.kv, w.rows, w.connected, w.metrics, env.sync, found);
      var o := ProcessMessageSpec(msg, hasProducer, w, env, found);
      && o.handling == Published(s.result)
      && o.records == [CompletionRecord(s.result)]
      && o.records[0].topic == TopicRfqSyncCompleted
      && o.records[0].key == KeyOf(req.rfqNumber)
      && o.after == World(s.kv, s.rows, w.connected, s.metrics)
  {
    var req := DecodeSyncRequest(msg.value).value;
    ResultEchoesRequest(req, Prepare(req.rfqData), w.kv, w.rows, w.connected, w.metrics, env.sync, found);
  }

  /** Any exception that escapes a handler, including a request that does not decode and
      a completion record that cannot be sent, ends in exactly one dead-letter attempt
      carrying its text; a failed attempt is swallowed. */
  lemma ErrorsGoToDeadLetter(msg: Message, hasProducer: bool, w: World, env: MessageEnv, found: Option<Summary>)
    ensures var o := ProcessMessageSpec(msg, hasProducer, w, env, found);
      && |o.records| <= 1
      && (o.handling.DeadLettered? ==>
          o.records == Sent(DlqRecord(msg.topic, msg.value, o.handling.reason, env), hasProducer, env.dlqFault))
      && (msg.topic == TopicRfqSyncToMedusa && DecodeSyncRequest(msg.value).Failure? ==>
          o.handling == DeadLettered(DecodeSyncRequest(msg.value).error.Message()) && o.after == w)
      && (msg.topic == TopicRfqSyncToMedusa && DecodeSyncRequest(msg.value).Success? ==>
          (o.handling.DeadLettered? <==> !hasProducer || env.publishFault.Some?))
  {
  }

  // ---------------------------------------------------------------------------
  // A run over a sequence of messages

  /** One handled message: the state before and after it, its environment, the lookup
      answer the processor got and the records it published. */
  datatype StepRec = StepRec(before: World, msg: Message, env: MessageEnv, found: Option<Summary>,
                             after: World, records: seq<Record>)

  /** `s` is what handling its message does, for a lookup answer the table could give. */
  predicate StepOk(hasProducer: bool, s: StepRec) {
    && MessageFound(s.msg, s.before, s.env, s.found)
    && ProcessMessageSpec(s.msg, hasProducer, s.before, s.env, s.found).after == s.after
    && ProcessMessageSpec(s.msg, hasProducer, s.before, s.env, s.found).records == s.records
  }

  /** Every step of `trace` is one the specification allows. */
  predicate AllOk(hasProducer: bool, trace: seq<StepRec>) {
    forall k {:trigger StepOk(hasProducer, trace[k])} :: 0 <= k < |trace| ==> StepOk(hasProducer, trace[k])
  }

  lemma SingleStepOk(hasProducer: bool, s: StepRec)
    requires StepOk(hasProducer, s)
    ensures AllOk(hasProducer, [s])
  {
  }

  /** Two allowed traces concatenate to an allowed trace. */
  lemma AllOkAppend(hasProducer: bool, t1: seq<StepRec>, t2: seq<StepRec>)
    requires AllOk(hasProducer, t1) && AllOk(hasProducer, t2)
    ensures AllOk(hasProducer, t1 + t2)
  {
    forall k | 0 <= k < |t1| + |t2|
      ensures StepOk(hasProducer, (t1 + t2)[k])
    {
      if k < |t1| {
        assert (t1 + t2)[k] == t1[k];
      } else {
        assert (t1 + t2)[k] == t2[k - |t1|];
      }
    }
  }

  /** Step `k` starts where step `k - 1` ended. */
  predicate Chained(trace: seq<StepRec>, k: int) {
    0 < k < |trace| && trace[k - 1].after == trace[k].before
  }

  /** Step `k` of `trace` handles message `k` with environment `k`, the first step
      starts in `w` and every other one where its predecessor ended. */
  predicate Linked(w: World, msgs: seq<Message>, envs: seq<MessageEnv>, trace: seq<StepRec>) {
    && |trace| <= |msgs| && |trace| <= |envs|
    && (forall k :: 0 <= k < |trace| ==> trace[k].msg == msgs[k] && trace[k].env == envs[k])
    && (|trace| > 0 ==> trace[0].before == w)
    && (forall k :: 0 < k < |trace| ==> Chained(trace, k))
  }

  lemma LinkedSnoc(w: World, msgs: seq<Message>, envs: seq<MessageEnv>, trace: seq<StepRec>, s: StepRec)
    requires Linked(w, msgs, envs, trace) && |trace| < |msgs| && |trace| < |envs|
    requires s.msg == msgs[|trace|] && s.env == envs[|trace|] && s.before == WorldAfter(w, trace, |trace|)
    ensures Linked(w, msgs, envs, trace + [s])
  {
    assert forall k :: 0 <= k < |trace| ==> (trace + [s])[k] == trace[k];
    assert forall k :: 0 < k < |trace| ==> Chained(trace, k) ==> Chained(trace + [s], k);
  }

  /** The state after the first `j` steps of a trace that starts in `w`. */
  function WorldAfter(w: World, trace: seq<StepRec>, j: nat): World
    requires j <= |trace|
  {
    if j == 0 then w else trace[j - 1].after
  }

  /** The records a trace publishes, in order. */
  function Records(trace: seq<StepRec>): seq<Record>
    decreases |trace|
  {
    if trace == [] then [] else Records(trace[..|trace| - 1]) + trace[|trace| - 1].records
  }

  /** `trace` handles `msgs` in order, starting in `w`. */
  predicate IsRun(w: World, hasProducer: bool, msgs: seq<Message>, envs: seq<MessageEnv>, trace: seq<StepRec>) {
    && |trace| == |msgs| && |envs| == |msgs|
    && Linked(w, msgs, envs, trace)
    && AllOk(hasProducer, trace)
  }

  /** Payloads whose own `email_rfq_id` is the request's, and only those. */
  predicate IdsAgree(msg: Message) {
    msg.topic == TopicRfqSyncToMedusa && DecodeSyncRequest(msg.value).Success? ==>
      ExternalIdOf(DecodeSyncRequest(msg.value).value.rfqData) == DecodeSyncRequest(msg.value).value.emailRfqId
  }

  /** One message keeps the table free of duplicate external ids when its ids agree. */
  lemma StepKeepsExternalIdsUnique(hasProducer: bool, s: StepRec)
    requires UniqueExternalIds(s.before.rows) && IdsAgree(s.msg)
    requires StepOk(hasProducer, s)
    ensures UniqueExternalIds(s.after.rows)
  {
    var w := s.before;
    if s.msg.topic == TopicRfqSyncToMedusa && DecodeSyncRequest(s.msg.value).Success? {
      var req := DecodeSyncRequest(s.msg.value).value;
      PrepareSucceeds(req.rfqData);
      SyncKeepsExternalIdsUnique(req, Prepare(req.rfqData), w.kv, w.rows, w.connected, w.metrics, s.env.sync, s.found);
    }
  }

  /** Over a whole run of requests whose ids agree, the table never holds two rows for
      one RFQ, however often a request is redelivered. */
  lemma {:induction false} RunKeepsExternalIdsUnique(w: World, hasProducer: bool, msgs: seq<Message>,
                                                     envs: seq<MessageEnv>, trace: seq<StepRec>, j: nat)
    requires IsRun(w, hasProducer, msgs, envs, trace)
    requires UniqueExternalIds(w.rows)
    requires forall k :: 0 <= k < |msgs| ==> IdsAgree(msgs[k])
    requires j <= |trace|
    ensures UniqueExternalIds(WorldAfter(w, trace, j).rows)
    decreases j
  {
    if j > 0 {
      RunKeepsExternalIdsUnique(w, hasProducer, msgs, envs, trace, j - 1);
      assert StepOk(hasProducer, trace[j - 1]);
      if j > 1 {
        assert Chained(trace, j - 1);
      }
      StepKeepsExternalIdsUnique(hasProducer, trace[j - 1]);
    }
  }

  /** Each message appends at most one record, so a run publishes at most one per message. */
  lemma {:induction false} RunRecordsBounded(w: World, hasProducer: bool, msgs: seq<Message>,
                                             envs: seq<MessageEnv>, trace: seq<StepRec>, j: nat)
    requires IsRun(w, hasProducer, msgs, envs, trace)
    requires j <= |trace|
    ensures |Records(trace[..j])| <= j
    decreases j
  {
    if j > 0 {
      RunRecordsBounded(w, hasProducer, msgs, envs, trace, j - 1);
      assert trace[..j][..j - 1] == trace[..j - 1];
      assert StepOk(hasProducer, trace[j - 1]);
      var s := trace[j - 1];
      ErrorsGoToDeadLetter(s.msg, hasProducer, s.before, s.env, s.found);
    }
  }

  // ---------------------------------------------------------------------------
  // The consumer object

  class SyncConsumer {
    var running: bool
    var hasConsumer: bool
    var hasProducer: bool
    var outbox: seq<Record>
    const processor: SyncProcessor

    constructor(p: SyncProcessor)
      ensures !running && !hasConsumer && !hasProducer && outbox == [] && processor == p
    {
      running := false;
      hasConsumer := false;
      hasProducer := false;
      outbox := [];
      processor := p;
    }

    /** The processor's state as a message sees it. */
    function WorldOf(): World
      reads processor, processor.kv, processor.db
    {
      World(processor.kv.entries, processor.db.rows, processor.db.connected, processor.metrics)
    }

    /** `start`: a no-op when running; otherwise it creates the consumer and the producer
        and starts both, which can fail. */
    method Start(fault: Option<string>) returns (r: Result<(), PyError>)
      modifies this
      ensures old(running) ==> r == Success(()) && hasConsumer == old(hasConsumer) && hasProducer == old(hasProducer)
      ensures !old(running) ==> r == FaultOutcome(fault) && hasConsumer && hasProducer
      ensures running == (old(running) || fault.None?)
      ensures outbox == old(outbox)
    {
      if running {
        return Success(());
      }
      hasConsumer := true;
      hasProducer := true;
      if fault.Some? {
        return Failure(Infra(fault.value));
      }
      running := true;
      return Success(());
    }

    /** `stop`: always clears the running flag; the client objects stay. */
    method Stop()
      modifies this
      ensures !running && hasConsumer == old(hasConsumer) && hasProducer == old(hasProducer) && outbox == old(outbox)
    {
      running := false;
    }

    /** `send_and_wait` of one record. */
    method Send(rec: Record, fault: Option<string>) returns (r: Result<(), PyError>)
      modifies this`outbox
      ensures r == SendResult(hasProducer, fault)
      ensures outbox == old(outbox) + Sent(rec, hasProducer, fault)
    {
      if !hasProducer {
        return Failure(NoProducer);
      }
      if fault.Some? {
        return Failure(Infra(fault.value));
      }
      outbox := outbox + [rec];
      return Success(());
    }

    /** `_send_to_dlq`: a failure to send is swallowed. */
    method SendToDlq(topic: string, event: Json, reason: string, env: MessageEnv)
      modifies this`outbox
      ensures outbox == old(outbox) + Sent(DlqRecord(topic, event, reason, env), hasProducer, env.dlqFault)
    {
      var _ := Send(DlqRecord(topic, event, reason, env), env.dlqFault);
    }

    /** `_handle_sync_to_medusa`: decode, sync, publish the completion event; an exception
        propagates to the caller. */
    method HandleSyncToMedusa(event: Json, env: MessageEnv) returns (r: Result<(), PyError>, ghost found: Option<Summary>)
      requires IsIdSuffix(env.sync.newIdHex)
      modifies this`outbox, processor, processor.kv, processor.db
      ensures SyncFound(event, old(WorldOf()), env, found)
      ensures var h := HandleSyncOutcome(event, hasProducer, old(WorldOf()), env, found);
        r == h.r && WorldOf() == h.after && outbox == old(outbox) + h.records
    {
      found := None;
      var decoded := DecodeSyncRequest(event);
      if decoded.Failure? {
        return Failure(decoded.error), found;
      }
      var result;
      result, found := processor.ProcessSyncToMedusa(decoded.value, env.sync);
      r := Send(CompletionRecord(result), env.publishFault);
    }

    /** `_handle_status_changed` */
    method HandleStatusChanged(event: Json) returns (r: Result<(), PyError>)
      ensures r == HandleStatusOutcome(event)
    {
      if !event.JObj? {
        return Failure(AttributeError(TypeName(event), "get"));
      }
      return Success(());
    }

    /** `_process_message`: its records, the processor's state afterwards and its outcome
        are those `ProcessMessageSpec` gives. */
    method ProcessMessage(msg: Message, env: MessageEnv) returns (ghost s: StepRec)
      requires IsIdSuffix(env.sync.newIdHex)
      modifies this, processor, processor.kv, processor.db
      ensures AllOk(hasProducer, [s])
      ensures s.before == old(WorldOf()) && s.msg == msg && s.env == env && s.after == WorldOf()
      ensures outbox == old(outbox) + s.records
      ensures running == old(running) && hasConsumer == old(hasConsumer) && hasProducer == old(hasProducer)
    {
      ghost var w := WorldOf();
      ghost var found: Option<Summary> := None;
      if msg.topic == TopicRfqSyncToMedusa {
        var r;
        r, found := HandleSyncToMedusa(msg.value, env);
        if r.Failure? {
          SendToDlq(msg.topic, msg.value, r.error.Message(), env);
        }
      } else if msg.topic == TopicRfqStatusChanged {
        var r := HandleStatusChanged(msg.value);
        if r.Failure? {
          SendToDlq(msg.topic, msg.value, r.error.Message(), env);
        }
      }
      s := StepRec(w, msg, env, found, WorldOf(), ProcessMessageSpec(msg, hasProducer, w, env, found).records);
      SingleStepOk(hasProducer, s);
    }

    /** `run`: starts the consumer when it is not running (a failure to start
        propagates), then handles the messages in order. */
    method Run(msgs: seq<Message>, envs: seq<MessageEnv>, startFault: Option<string>)
      returns (r: Result<(), PyError>, ghost trace: seq<StepRec>)
      requires |envs| == |msgs|
      requires forall k :: 0 <= k < |envs| ==> IsIdSuffix(envs[k].sync.newIdHex)
      modifies this, processor, processor.kv, processor.db
      ensures r.Failure? ==> !old(running) && r == FaultOutcome(startFault) && outbox == old(outbox) && WorldOf() == old(WorldOf())
      ensures r.Success? ==>
        && IsRun(old(WorldOf()), hasProducer, msgs, envs, trace)
        && WorldOf() == WorldAfter(old(WorldOf()), trace, |trace|)
        && outbox == old(outbox) + Records(trace)
        && running
    {
      trace := [];
      if !running {
        r := Start(startFault);
        if r.Failure? {
          return;
        }
      }
      r := Success(());
      ghost var out0, w0, hp := outbox, old(WorldOf()), hasProducer;
      var i := 0;
      while i < |msgs|
        invariant 0 <= i <= |msgs| && |trace| == i && hasProducer == hp && out0 == old(outbox) && w0 == old(WorldOf())
        invariant Linked(w0, msgs, envs, trace) && AllOk(hp, trace)
        invariant WorldOf() == WorldAfter(w0, trace, i)
        invariant outbox == out0 + Records(trace)
        invariant running
      {
        var s := ProcessMessage(msgs[i], envs[i]);
        AllOkAppend(hp, trace, [s]);
        LinkedSnoc(w0, msgs, envs, trace, s);
        assert (trace + [s])[..i] == trace;
        trace := trace + [s];
        i := i + 1;
      }
    }
  }
}
