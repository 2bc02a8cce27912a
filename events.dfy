/**
 * The event records and enumerations of the sync service, with the defaults their
 * declarations give, and the decoding of a bus message into a sync request
 * (`RFQSyncRequest(**event)`).
 */
module Events {
  import opened Wrappers
  import opened Python

  /** An instant, carried by its ISO-8601 text (`datetime.isoformat()`); the clock is not modelled. */
  type Timestamp = string

  datatype SyncDirection = EmailToMedusa | MedusaToEmail {
    function Value(): string {
      match this
      case EmailToMedusa => "email_to_medusa"
      case MedusaToEmail => "medusa_to_email"
    }
  }

  /** `SyncDirection(v)`: the member whose value is `v`, if any. */
  function DirectionFromValue(v: string): (r: Option<SyncDirection>)
    ensures r.Some? ==> r.value.Value() == v
    ensures r.None? ==> forall d: SyncDirection :: d.Value() != v
  {
    if v == "email_to_medusa" then Some(EmailToMedusa)
    else if v == "medusa_to_email" then Some(MedusaToEmail)
    else None
  }

  datatype SyncStatus = Pending | InProgress | Completed | Failed {
    function Value(): string {
      match this
      case Pending => "pending"
      case InProgress => "in_progress"
      case Completed => "completed"
      case Failed => "failed"
    }
  }

  /** The four statuses have four distinct values. */
  lemma SyncStatusValuesDistinct(s: SyncStatus, t: SyncStatus)
    ensures s.Value() == t.Value() <==> s == t
  {
  }

  /** A line item as the event model declares it (the transformer itself builds plain dicts). */
  datatype LineItem = LineItem(
    description: string,
    quantity: int := 1,
    unit: string := "pcs",
    partNumber: Option<string> := None,
    manufacturer: Option<string> := None,
    specifications: Fields := [],
    unitPrice: Json := JNull)

  datatype RfqSyncRequest = RfqSyncRequest(
    eventId: string,
    eventType: string,
    eventTimestamp: Timestamp,
    sourceService: string,
    idempotencyKey: string,
    correlationId: Option<string> := None,
    emailRfqId: string,
    rfqNumber: string,
    rfqData: Fields,
    syncDirection: SyncDirection := EmailToMedusa,
    retryCount: int := 0,
    maxRetries: int := 3)

  datatype RfqSyncResult = RfqSyncResult(
    emailRfqId: string,
    medusaRfqId: Option<string> := None,
    rfqNumber: string,
    syncDirection: SyncDirection,
    syncStatus: SyncStatus,
    syncStartedAt: Timestamp,
    syncCompletedAt: Timestamp,
    durationMs: int,
    errorMessage: Option<string> := None)

  /** An RFQ in the commerce backend's shape. Floats (`estimated_value`,
      `ai_confidence_score`) are passed through as opaque values. */
  datatype MedusaRfq = MedusaRfq(
    rfqNumber: string,
    customerEmail: string,
    customerName: Option<string> := None,
    customerCompany: Option<string> := None,
    customerId: Option<string> := None,
    companyId: Option<string> := None,
    description: Option<string> := None,
    lineItems: seq<Json> := [],
    status: string := "received",
    priority: string := "medium",
    currency: string := "EUR",
    estimatedValue: Json := JNull,
    requirements: Option<Json> := None,
    deliveryAddress: Option<Json> := None,
    attachments: Option<Json> := None,
    aiConfidenceScore: Json := JNull,
    aiAnalysis: Option<Json> := None,
    externalId: string,
    externalSource: string := "email",
    syncStatus: string := "synced")

  const RequestModel: string := "RFQSyncRequest"

  /** How Python names the request class when `**event` is not a mapping. */
  const RequestCallee: string := "src.models.events.RFQSyncRequest()"

  /** A required `str` field. */
  function RequiredStr(fs: Fields, field: string): (r: Result<string, PyError>)
    ensures r.Success? <==> Lookup(fs, field).Some? && Lookup(fs, field).value.JStr?
    ensures r.Success? ==> Lookup(fs, field) == Some(JStr(r.value))
  {
    match Lookup(fs, field)
    case Some(JStr(s)) => Success(s)
    case _ => Failure(ValidationError(RequestModel, field))
  }

  /** An `Optional[str]` field that defaults to None. */
  function OptionalStr(fs: Fields, field: string): (r: Result<Option<string>, PyError>)
    ensures r == Success(None) <==> Lookup(fs, field) in {None, Some(JNull)}
  {
    match Lookup(fs, field)
    case None => Success(None)
    case Some(JNull) => Success(None)
    case Some(JStr(s)) => Success(Some(s))
    case _ => Failure(ValidationError(RequestModel, field))
  }

  predicate AllDigits(s: string) { forall k :: 0 <= k < |s| ==> IsDigit(s[k]) }

  /** The integer a string spells as an optional minus sign followed by decimal digits. */
  function IntText(s: string): (r: Option<int>)
    ensures r.Some? ==> |s| > 0
  {
    if |s| > 1 && s[0] == '-' && AllDigits(s[1..]) then var v: int := DecimalValue(s[1..]); Some(-v)
    else if |s| > 0 && AllDigits(s) then Some(DecimalValue(s))
    else None
  }

  /** The integer a float's `repr` spells when its fraction is `.0`. */
  function WholeFloatText(repr: string): Option<int> {
    if |repr| >= 2 && repr[|repr| - 2..] == ".0" then IntText(repr[..|repr| - 2]) else None
  }

  /** `str(i)` reads back as `i`. */
  lemma IntTextRoundTrip(i: int)
    ensures IntText(IntToDecimal(i)) == Some(i)
  {
    if i < 0 {
      var digits := NatToDecimal(-i);
      assert ("-" + digits)[1..] == digits;
      DecimalRoundTrip(-i);
    } else {
      assert NatToDecimal(i)[0] != '-';
      DecimalRoundTrip(i);
    }
  }

  /** The `repr` of a whole float, `str(i) + ".0"`, reads back as `i`. */
  lemma WholeFloatRoundTrip(i: int)
    ensures WholeFloatText(IntToDecimal(i) + ".0") == Some(i)
  {
    var s := IntToDecimal(i);
    assert (s + ".0")[|s + ".0"| - 2..] == ".0";
    assert (s + ".0")[..|s + ".0"| - 2] == s;
    IntTextRoundTrip(i);
  }

  /** An `int` field with a default, in pydantic's lax mode: an int, a bool, a whole float
      or a string of decimal digits is accepted. */
  function IntOr(fs: Fields, field: string, default: int): (r: Result<int, PyError>)
    ensures Lookup(fs, field).None? ==> r == Success(default)
    ensures Lookup(fs, field).Some? && Lookup(fs, field).value.JInt? ==> r == Success(Lookup(fs, field).value.i)
    ensures Lookup(fs, field).Some? && Lookup(fs, field).value.JBool? ==> r == Success(if Lookup(fs, field).value.b then 1 else 0)
    ensures Lookup(fs, field).Some? && (Lookup(fs, field).value.JNull? || Lookup(fs, field).value.JArr? || Lookup(fs, field).value.JObj?) ==>
      r == Failure(ValidationError(RequestModel, field))
    ensures Lookup(fs, field) == Some(JStr("")) ==> r.Failure?
  {
    match Lookup(fs, field)
    case None => Success(default)
    case Some(JInt(i)) => Success(i)
    case Some(JBool(b)) => Success(if b then 1 else 0)
    case Some(JStr(s)) =>
      (match IntText(s)
       case Some(i) => Success(i)
       case None => Failure(ValidationError(RequestModel, field)))
    case Some(JFloat(repr)) =>
      (match WholeFloatText(repr)
       case Some(i) => Success(i)
       case None => Failure(ValidationError(RequestModel, field)))
    case _ => Failure(ValidationError(RequestModel, field))
  }

  /** The decimal text of an integer, and the `repr` of a whole float, both read as that
      integer. */
  lemma IntOrCoerces(fs: Fields, field: string, default: int, i: int)
    ensures Lookup(fs, field) == Some(JStr(IntToDecimal(i))) ==> IntOr(fs, field, default) == Success(i)
    ensures Lookup(fs, field) == Some(JFloat(IntToDecimal(i) + ".0")) ==> IntOr(fs, field, default) == Success(i)
  {
    IntTextRoundTrip(i);
    WholeFloatRoundTrip(i);
  }

  /** A `datetime` field: ISO text is kept as given, and a number (seconds since the epoch)
      is kept by its decimal text. */
  function TimestampField(fs: Fields, field: string): (r: Result<Timestamp, PyError>)
    ensures r.Success? <==> Lookup(fs, field).Some? && (Lookup(fs, field).value.JStr? || Lookup(fs, field).value.JInt? || Lookup(fs, field).value.JFloat?)
    ensures Lookup(fs, field).Some? && Lookup(fs, field).value.JStr? ==> r == Success(Lookup(fs, field).value.s)
  {
    match Lookup(fs, field)
    case Some(JStr(s)) => Success(s)
    case Some(JInt(i)) => Success(IntToDecimal(i))
    case Some(JFloat(repr)) => Success(repr)
    case _ => Failure(ValidationError(RequestModel, field))
  }

  function DirectionOr(fs: Fields, field: string, default: SyncDirection): (r: Result<SyncDirection, PyError>)
    ensures Lookup(fs, field).None? ==> r == Success(default)
  {
    match Lookup(fs, field)
    case None => Success(default)
    case Some(JStr(v)) =>
      (match DirectionFromValue(v)
       case Some(d) => Success(d)
       case None => Failure(ValidationError(RequestModel, field)))
    case _ => Failure(ValidationError(RequestModel, field))
  }

  /** The envelope fields: id, type, timestamp, source, idempotency key and correlation id. */
  datatype Envelope = Envelope(eventId: string, eventType: string, eventTimestamp: Timestamp, sourceService: string,
                               idempotencyKey: string, correlationId: Option<string>)

  /** The RFQ the event concerns: its email id, number and payload. */
  datatype Subject = Subject(emailRfqId: string, rfqNumber: string, rfqData: Fields)

  /** The sync controls: direction, retry count and retry limit. */
  datatype Control = Control(direction: SyncDirection, retryCount: int, maxRetries: int)

  function DecodeEnvelope(fs: Fields): (r: Result<Envelope, PyError>)
    ensures r.Success? ==> Lookup(fs, "event_id") == Some(JStr(r.value.eventId))
  {
    var eventId :- RequiredStr(fs, "event_id");
    var eventType :- RequiredStr(fs, "event_type");
    var eventTimestamp :- TimestampField(fs, "event_timestamp");
    var sourceService :- RequiredStr(fs, "source_service");
    var idempotencyKey :- RequiredStr(fs, "idempotency_key");
    var correlationId :- OptionalStr(fs, "correlation_id");
    Success(Envelope(eventId, eventType, eventTimestamp, sourceService, idempotencyKey, correlationId))
  }

  function DecodeSubject(fs: Fields): (r: Result<Subject, PyError>)
    ensures r.Success? ==>
      && Lookup(fs, "email_rfq_id") == Some(JStr(r.value.emailRfqId))
      && Lookup(fs, "rfq_number") == Some(JStr(r.value.rfqNumber))
      && Lookup(fs, "rfq_data") == Some(JObj(r.value.rfqData))
  {
    var emailRfqId :- RequiredStr(fs, "email_rfq_id");
    var rfqNumber :- RequiredStr(fs, "rfq_number");
    var rfqData :- match Lookup(fs, "rfq_data")
      case Some(JObj(d)) => Success(d)
      case _ => Failure(ValidationError(RequestModel, "rfq_data"));
    Success(Subject(emailRfqId, rfqNumber, rfqData))
  }

  function DecodeControl(fs: Fields): (r: Result<Control, PyError>)
    ensures r.Success? ==>
      && (Lookup(fs, "sync_direction").None? ==> r.value.direction == EmailToMedusa)
      && (Lookup(fs, "retry_count").None? ==> r.value.retryCount == 0)
      && (Lookup(fs, "max_retries").None? ==> r.value.maxRetries == 3)
  {
    var direction :- DirectionOr(fs, "sync_direction", EmailToMedusa);
    var retryCount :- IntOr(fs, "retry_count", 0);
    var maxRetries :- IntOr(fs, "max_retries", 3);
    Success(Control(direction, retryCount, maxRetries))
  }

  /** `RFQSyncRequest(**event)`: a non-mapping is a TypeError; otherwise every field is
      checked in declaration order and the first one missing or of the wrong type is
      reported; unknown keys are ignored; omitted optional fields take their defaults. */
  function DecodeSyncRequest(event: Json): (r: Result<RfqSyncRequest, PyError>)
    ensures !event.JObj? ==> r == Failure(NotAMapping(RequestCallee, TypeName(event)))
    ensures r.Success? ==>
      && Lookup(event.fields, "email_rfq_id") == Some(JStr(r.value.emailRfqId))
      && Lookup(event.fields, "rfq_number") == Some(JStr(r.value.rfqNumber))
      && Lookup(event.fields, "rfq_data") == Some(JObj(r.value.rfqData))
    ensures r.Success? ==>
      && (Lookup(event.fields, "sync_direction").None? ==> r.value.syncDirection == EmailToMedusa)
      && (Lookup(event.fields, "retry_count").None? ==> r.value.retryCount == 0)
      && (Lookup(event.fields, "max_retries").None? ==> r.value.maxRetries == 3)
    ensures event.JObj? && Lookup(event.fields, "email_rfq_id").None? ==> r.Failure?
  {
    if !event.JObj? then Failure(NotAMapping(RequestCallee, TypeName(event)))
    else
      var e :- DecodeEnvelope(event.fields);
      var s :- DecodeSubject(event.fields);
      var c :- DecodeControl(event.fields);
      Success(RfqSyncRequest(
        eventId := e.eventId, eventType := e.eventType, eventTimestamp := e.eventTimestamp,
        sourceService := e.sourceService, idempotencyKey := e.idempotencyKey,
        correlationId := e.correlationId, emailRfqId := s.emailRfqId, rfqNumber := s.rfqNumber,
        rfqData := s.rfqData, syncDirection := c.direction, retryCount := c.retryCount,
        maxRetries := c.maxRetries))
  }

  /** A well-typed envelope decodes to its values. */
  lemma EnvelopeWellTyped(fs: Fields, e: Envelope)
    requires Lookup(fs, "event_id") == Some(JStr(e.eventId))
    requires Lookup(fs, "event_type") == Some(JStr(e.eventType))
    requires Lookup(fs, "event_timestamp") == Some(JStr(e.eventTimestamp))
    requires Lookup(fs, "source_service") == Some(JStr(e.sourceService))
    requires Lookup(fs, "idempotency_key") == Some(JStr(e.idempotencyKey))
    requires Lookup(fs, "correlation_id") == if e.correlationId.Some? then Some(JStr(e.correlationId.value)) else None
    ensures DecodeEnvelope(fs) == Success(e)
  {
    assert RequiredStr(fs, "event_id") == Success(e.eventId);
    assert RequiredStr(fs, "event_type") == Success(e.eventType);
    assert TimestampField(fs, "event_timestamp") == Success(e.eventTimestamp);
    assert RequiredStr(fs, "source_service") == Success(e.sourceService);
    assert RequiredStr(fs, "idempotency_key") == Success(e.idempotencyKey);
    assert OptionalStr(fs, "correlation_id") == Success(e.correlationId);
  }

  /** Well-typed sync controls decode to their values, or to the defaults when omitted. */
  lemma ControlWellTyped(fs: Fields, direction: Option<SyncDirection>, retryCount: Option<int>, maxRetries: Option<int>)
    requires Lookup(fs, "sync_direction") == if direction.Some? then Some(JStr(direction.value.Value())) else None
    requires Lookup(fs, "retry_count") == if retryCount.Some? then Some(JInt(retryCount.value)) else None
    requires Lookup(fs, "max_retries") == if maxRetries.Some? then Some(JInt(maxRetries.value)) else None
    ensures DecodeControl(fs) == Success(Control(if direction.Some? then direction.value else EmailToMedusa,
      if retryCount.Some? then retryCount.value else 0, if maxRetries.Some? then maxRetries.value else 3))
  {
    if direction.Some? {
      assert DirectionFromValue(direction.value.Value()) == direction;
    }
    assert DirectionOr(fs, "sync_direction", EmailToMedusa) == Success(if direction.Some? then direction.value else EmailToMedusa);
  }

  /** An event that carries every required field with its declared type decodes, and the
      request holds exactly those values, with the defaults for what was omitted. */
  lemma DecodeWellTyped(fs: Fields, eventId: string, eventType: string, eventTimestamp: string, sourceService: string,
                        idempotencyKey: string, correlationId: Option<string>, emailRfqId: string, rfqNumber: string,
                        rfqData: Fields, direction: Option<SyncDirection>, retryCount: Option<int>, maxRetries: Option<int>)
    requires Lookup(fs, "event_id") == Some(JStr(eventId))
    requires Lookup(fs, "event_type") == Some(JStr(eventType))
    requires Lookup(fs, "event_timestamp") == Some(JStr(eventTimestamp))
    requires Lookup(fs, "source_service") == Some(JStr(sourceService))
    requires Lookup(fs, "idempotency_key") == Some(JStr(idempotencyKey))
    requires Lookup(fs, "correlation_id") == if correlationId.Some? then Some(JStr(correlationId.value)) else None
    requires Lookup(fs, "email_rfq_id") == Some(JStr(emailRfqId))
    requires Lookup(fs, "rfq_number") == Some(JStr(rfqNumber))
    requires Lookup(fs, "rfq_data") == Some(JObj(rfqData))
    requires Lookup(fs, "sync_direction") == if direction.Some? then Some(JStr(direction.value.Value())) else None
    requires Lookup(fs, "retry_count") == if retryCount.Some? then Some(JInt(retryCount.value)) else None
    requires Lookup(fs, "max_retries") == if maxRetries.Some? then Some(JInt(maxRetries.value)) else None
    ensures DecodeSyncRequest(JObj(fs)) == Success(RfqSyncRequest(
      eventId := eventId, eventType := eventType, eventTimestamp := eventTimestamp,
      sourceService := sourceService, idempotencyKey := idempotencyKey,
      correlationId := correlationId, emailRfqId := emailRfqId, rfqNumber := rfqNumber, rfqData := rfqData,
      syncDirection := if direction.Some? then direction.value else EmailToMedusa,
      retryCount := if retryCount.Some? then retryCount.value else 0,
      maxRetries := if maxRetries.Some? then maxRetries.value else 3))
  {
    EnvelopeWellTyped(fs, Envelope(eventId, eventType, eventTimestamp, sourceService, idempotencyKey, correlationId));
    assert DecodeSubject(fs) == Success(Subject(emailRfqId, rfqNumber, rfqData));
    ControlWellTyped(fs, direction, retryCount, maxRetries);
  }
}
