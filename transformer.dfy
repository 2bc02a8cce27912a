/**
 * The RFQ transformer: maps an email-service RFQ dict to the commerce backend's RFQ
 * (status and priority through fixed tables, line-item defaults, a description derived
 * from the first line items), maps a backend RFQ back, and validates an RFQ before sync.
 * Python can raise while doing so (a `.get` on a value that is not a dict, an
 * unhashable table key, a join over a non-string); those paths are `Failure`s.
 */
module Transformer {
  import opened Wrappers
  import opened Python
  import opened Events

  // ---------------------------------------------------------------------------
  // Vocabulary tables

  const EmailToMedusaStatus: map<string, string> := map[
    "received" := "received",
    "parsing" := "processing",
    "classified" := "processing",
    "validated" := "processing",
    "pending_review" := "processing",
    "approved" := "processing",
    "quote_requested" := "quoted",
    "quoted" := "quoted",
    "proposal_sent" := "sent",
    "accepted" := "approved",
    "rejected" := "rejected",
    "cancelled" := "rejected",
    "completed" := "approved"
  ]

  const MedusaToEmailStatus: map<string, string> := map[
    "received" := "received",
    "processing" := "validated",
    "quoted" := "quoted",
    "sent" := "proposal_sent",
    "approved" := "accepted",
    "rejected" := "rejected"
  ]

  const PriorityMap: map<string, string> := map[
    "low" := "low",
    "medium" := "medium",
    "high" := "high",
    "urgent" := "urgent",
    "critical" := "urgent"
  ]

  /** `table.get(key, default)` on a dict with string keys: a list or dict key is
      unhashable; any other key that is not one of the table's strings gives the default. */
  function TableGet(table: map<string, string>, key: Json, default: string): (r: Result<string, PyError>)
    ensures r.Failure? <==> key.JArr? || key.JObj?
    ensures key.JStr? && key.s in table ==> r == Success(table[key.s])
    ensures r.Success? && !(key.JStr? && key.s in table) ==> r.value == default
  {
    match key
    case JArr(_) => Failure(Unhashable(TypeName(key)))
    case JObj(_) => Failure(Unhashable(TypeName(key)))
    case JStr(s) => if s in table then Success(table[s]) else Success(default)
    case _ => Success(default)
  }

  /** The backend status of an email RFQ: `status` (default "received") through the table. */
  function MedusaStatusOf(data: Fields): Result<string, PyError> {
    TableGet(EmailToMedusaStatus, GetOr(data, "status", JStr("received")), "received")
  }

  /** The backend priority of an email RFQ: `priority` (default "medium") through the table. */
  function MedusaPriorityOf(data: Fields): Result<string, PyError> {
    TableGet(PriorityMap, GetOr(data, "priority", JStr("medium")), "medium")
  }

  /** A known status maps through the table; an absent, null, numeric or unknown one maps to "received". */
  lemma StatusMapping(data: Fields)
    ensures Lookup(data, "status").None? ==> MedusaStatusOf(data) == Success("received")
    ensures forall s :: Lookup(data, "status") == Some(JStr(s)) ==>
      MedusaStatusOf(data) == Success(if s in EmailToMedusaStatus then EmailToMedusaStatus[s] else "received")
    ensures Lookup(data, "status") in {Some(JNull), Some(JBool(true)), Some(JBool(false))} ==>
      MedusaStatusOf(data) == Success("received")
    ensures MedusaStatusOf(data).Success? ==> MedusaStatusOf(data).value in MedusaToEmailStatus
  {
    assert "received" in EmailToMedusaStatus;
    assert forall s :: s in EmailToMedusaStatus ==> EmailToMedusaStatus[s] in MedusaToEmailStatus;
  }

  lemma QuoteRequestedIsQuoted(data: Fields)
    requires Lookup(data, "status") == Some(JStr("quote_requested"))
    ensures MedusaStatusOf(data) == Success("quoted")
  {
  }

  /** A known priority maps through the table ("critical" becomes "urgent"); any other
      scalar gives "medium"; the result is always one of the four backend priorities. */
  lemma PriorityMapping(data: Fields)
    ensures Lookup(data, "priority").None? ==> MedusaPriorityOf(data) == Success("medium")
    ensures Lookup(data, "priority") == Some(JStr("critical")) ==> MedusaPriorityOf(data) == Success("urgent")
    ensures forall s :: Lookup(data, "priority") == Some(JStr(s)) && s !in PriorityMap ==>
      MedusaPriorityOf(data) == Success("medium")
    ensures MedusaPriorityOf(data).Success? ==>
      MedusaPriorityOf(data).value in {"low", "medium", "high", "urgent"}
  {
    assert forall p :: p in PriorityMap ==> PriorityMap[p] in {"low", "medium", "high", "urgent"};
  }

  /** Mapping a backend status to the email vocabulary and back gives the same backend status. */
  lemma StatusRoundTrip(s: string)
    requires s in MedusaToEmailStatus
    ensures MedusaToEmailStatus[s] in EmailToMedusaStatus
    ensures EmailToMedusaStatus[MedusaToEmailStatus[s]] == s
  {
  }

  // ---------------------------------------------------------------------------
  // Line items, delivery address, description

  const LineItemKeys: seq<string> :=
    ["description", "quantity", "unit", "part_number", "manufacturer", "specifications", "unit_price", "total_price"]

  /** `_transform_line_item`: a dict of the eight line-item keys. */
  function TransformLineItem(item: Fields): (r: Json)
    ensures r.JObj?
  {
    JObj([
      ("description", GetOr(item, "description", JStr(""))),
      ("quantity", GetOr(item, "quantity", JInt(1))),
      ("unit", GetOr(item, "unit", JStr("pcs"))),
      ("part_number", Get(item, "part_number")),
      ("manufacturer", Get(item, "manufacturer")),
      ("specifications", GetOr(item, "specifications", JObj([]))),
      ("unit_price", Get(item, "unit_price")),
      ("total_price", Get(item, "total_price"))
    ])
  }

  /** A transformed line item has exactly the eight keys, each once. */
  lemma LineItemKeysDistinct(item: Fields)
    ensures Keys(TransformLineItem(item).fields) == LineItemKeys
    ensures DistinctKeys(TransformLineItem(item).fields)
  {
  }

  lemma LineItemEntry(item: Fields, i: nat)
    requires i < |LineItemKeys|
    ensures |TransformLineItem(item).fields| == |LineItemKeys|
    ensures Lookup(TransformLineItem(item).fields, LineItemKeys[i]) == Some(TransformLineItem(item).fields[i].1)
  {
    LineItemKeysDistinct(item);
    LookupDistinct(TransformLineItem(item).fields);
    assert Keys(TransformLineItem(item).fields)[i] == LineItemKeys[i];
  }

  /** Description, quantity, unit and specifications of a transformed line item default
      to "", 1, "pcs" and an empty dict; part number and unit price to None. */
  lemma LineItemDefaults(item: Fields)
    ensures var r := TransformLineItem(item).fields;
      && Lookup(r, "description") == Some(GetOr(item, "description", JStr("")))
      && Lookup(r, "quantity") == Some(GetOr(item, "quantity", JInt(1)))
      && Lookup(r, "unit") == Some(GetOr(item, "unit", JStr("pcs")))
      && Lookup(r, "specifications") == Some(GetOr(item, "specifications", JObj([])))
      && Lookup(r, "part_number") == Some(Get(item, "part_number"))
      && Lookup(r, "unit_price") == Some(Get(item, "unit_price"))
  {
    LineItemEntry(item, 0);
    LineItemEntry(item, 1);
    LineItemEntry(item, 2);
    LineItemEntry(item, 3);
    LineItemEntry(item, 5);
    LineItemEntry(item, 6);
  }

  predicate AllDicts(items: seq<Json>) {
    forall k :: 0 <= k < |items| ==> items[k].JObj?
  }

  /** The index of the first element that is not a dict; the length when all are dicts. */
  function FirstNonDict(items: seq<Json>): (k: nat)
    ensures k <= |items| && AllDicts(items[..k])
    ensures k < |items| <==> !AllDicts(items)
    ensures k < |items| ==> !items[k].JObj?
  {
    if items == [] || !items[0].JObj? then 0
    else
      var k := FirstNonDict(items[1..]);
      assert items[..k + 1] == [items[0]] + items[1..][..k];
      assert forall j :: 1 <= j < |items| ==> items[j] == items[1..][j - 1];
      k + 1
  }

  /** The list comprehension over the raw line items: same length and order; the first
      element that is not a dict raises AttributeError. */
  function TransformLineItems(items: seq<Json>): (r: Result<seq<Json>, PyError>)
    ensures r.Success? <==> AllDicts(items)
    ensures r.Success? ==>
      && |r.value| == |items|
      && forall k :: 0 <= k < |items| ==> r.value[k] == TransformLineItem(items[k].fields)
    ensures r.Failure? ==>
      FirstNonDict(items) < |items| && r.error == AttributeError(TypeName(items[FirstNonDict(items)]), "get")
  {
    if items == [] then Success([])
    else if !items[0].JObj? then Failure(AttributeError(TypeName(items[0]), "get"))
    else
      var tail := TransformLineItems(items[1..]);
      assert forall k :: 1 <= k < |items| ==> items[k] == items[1..][k - 1];
      if tail.Failure? then Failure(tail.error)
      else Success([TransformLineItem(items[0].fields)] + tail.value)
  }

  const DeliveryKeys: seq<string> :=
    ["city", "country", "address", "required_date", "payment_terms", "special_instructions"]

  /** The delivery address: None when `delivery` is missing or falsy, otherwise a dict of
      exactly the six delivery keys (None where the delivery lacks one). */
  function DeliveryAddressOf(data: Fields): (r: Result<Option<Json>, PyError>)
    ensures !Truthy(GetOr(data, "delivery", JObj([]))) <==> r == Success(None)
    ensures r.Success? && r.value.Some? ==>
      var d := GetOr(data, "delivery", JObj([]));
      && d.JObj? && r.value.value.JObj? && Keys(r.value.value.fields) == DeliveryKeys
      && forall k :: 0 <= k < |DeliveryKeys| ==> r.value.value.fields[k].1 == Get(d.fields, DeliveryKeys[k])
    ensures r.Failure? <==> Truthy(GetOr(data, "delivery", JObj([]))) && !GetOr(data, "delivery", JObj([])).JObj?
  {
    var delivery := GetOr(data, "delivery", JObj([]));
    if !Truthy(delivery) then Success(None)
    else if !delivery.JObj? then Failure(AttributeError(TypeName(delivery), "get"))
    else
      var fs := delivery.fields;
      Success(Some(JObj(seq(|DeliveryKeys|, k requires 0 <= k < |DeliveryKeys| => (DeliveryKeys[k], Get(fs, DeliveryKeys[k]))))))
  }

  predicate AllStrs(values: seq<Json>) {
    forall k :: 0 <= k < |values| ==> values[k].JStr?
  }

  /** The index of the first value that is not a string; the length when all are strings. */
  function FirstNonStr(values: seq<Json>): (k: nat)
    ensures k <= |values| && AllStrs(values[..k])
    ensures k < |values| <==> !AllStrs(values)
    ensures k < |values| ==> !values[k].JStr?
  {
    if values == [] || !values[0].JStr? then 0
    else
      var k := FirstNonStr(values[1..]);
      assert values[..k + 1] == [values[0]] + values[1..][..k];
      assert forall j :: 1 <= j < |values| ==> values[j] == values[1..][j - 1];
      k + 1
  }

  /** `sep.join(values)`: the first value that is not a string raises TypeError. */
  function JoinStrs(sep: string, values: seq<Json>): (r: Result<string, PyError>)
    ensures r.Success? <==> forall k :: 0 <= k < |values| ==> values[k].JStr?
    ensures r.Success? ==> r.value == Join(sep, seq(|values|, k requires 0 <= k < |values| => values[k].s))
    ensures r.Failure? ==>
      FirstNonStr(values) < |values| && r.error == JoinItemNotStr(FirstNonStr(values), TypeName(values[FirstNonStr(values)]))
  {
    JoinStrsFrom(sep, values, 0)
  }

  function JoinStrsFrom(sep: string, values: seq<Json>, offset: nat): (r: Result<string, PyError>)
    ensures r.Success? <==> forall k :: 0 <= k < |values| ==> values[k].JStr?
    ensures r.Success? ==> r.value == Join(sep, seq(|values|, k requires 0 <= k < |values| => values[k].s))
    ensures r.Failure? ==>
      FirstNonStr(values) < |values| && r.error == JoinItemNotStr(offset + FirstNonStr(values), TypeName(values[FirstNonStr(values)]))
    decreases |values|
  {
    if values == [] then Success("")
    else if !values[0].JStr? then Failure(JoinItemNotStr(offset, TypeName(values[0])))
    else
      var rest :- JoinStrsFrom(sep, values[1..], offset + 1);
      var strs := seq(|values|, k requires 0 <= k < |values| => values[k].s);
      assert strs[1..] == seq(|values[1..]|, k requires 0 <= k < |values[1..]| => values[1..][k].s);
      Success(if |values| == 1 then values[0].s else values[0].s + sep + rest)
  }

  function Min(a: nat, b: nat): nat { if a < b then a else b }

  /** The item descriptions the derived description is built from: `item.get("description", "")`. */
  function ItemDescriptions(items: seq<Json>): (r: seq<Json>)
    requires AllDicts(items)
    ensures |r| == |items|
  {
    seq(|items|, k requires 0 <= k < |items| => GetOr(items[k].fields, "description", JStr("")))
  }

  function MoreItemsSuffix(extra: nat): string {
    " (+" + NatToDecimal(extra) + " more items)"
  }

  /** The RFQ description: a truthy `description`, else `title` when truthy; when neither
      is truthy and there are line items, the first (at most three) item descriptions
      joined by "; ", suffixed " (+k more items)" when there are k > 0 further items. */
  function DescriptionOf(data: Fields, items: seq<Json>): Result<Json, PyError>
    requires AllDicts(items)
  {
    var given := if Truthy(Get(data, "description")) then Get(data, "description") else Get(data, "title");
    if !Truthy(given) && |items| > 0 then
      var joined :- JoinStrs("; ", ItemDescriptions(items)[..Min(3, |items|)]);
      Success(JStr(joined + (if |items| > 3 then MoreItemsSuffix(|items| - 3) else "")))
    else
      Success(given)
  }

  lemma DescriptionGiven(data: Fields, items: seq<Json>)
    requires AllDicts(items)
    ensures Truthy(Get(data, "description")) ==> DescriptionOf(data, items) == Success(Get(data, "description"))
    ensures !Truthy(Get(data, "description")) && Truthy(Get(data, "title")) ==>
      DescriptionOf(data, items) == Success(Get(data, "title"))
    ensures !Truthy(Get(data, "description")) && |items| == 0 ==> DescriptionOf(data, items) == Success(Get(data, "title"))
  {
  }

  /** With no description or title, the derived description joins the first
      min(3, n) item descriptions; the suffix is there exactly when n > 3. */
  lemma {:induction false} DescriptionFromItems(data: Fields, items: seq<Json>, descs: seq<string>)
    requires AllDicts(items) && |items| > 0
    requires !Truthy(Get(data, "description")) && !Truthy(Get(data, "title"))
    requires |descs| == |items| && forall k :: 0 <= k < |items| ==> ItemDescriptions(items)[k] == JStr(descs[k])
    ensures |items| <= 3 ==> DescriptionOf(data, items) == Success(JStr(Join("; ", descs)))
    ensures |items| > 3 ==>
      DescriptionOf(data, items) == Success(JStr(Join("; ", descs[..3]) + MoreItemsSuffix(|items| - 3)))
  {
    var m := Min(3, |items|);
    var firsts := ItemDescriptions(items)[..m];
    assert forall k :: 0 <= k < |firsts| ==> firsts[k] == JStr(descs[k]);
    var strs := seq(|firsts|, k requires 0 <= k < |firsts| => firsts[k].s);
    assert strs == descs[..m];
    assert JoinStrs("; ", firsts) == Success(Join("; ", descs[..m]));
    if |items| <= 3 {
      assert descs[..m] == descs;
      assert Join("; ", descs[..m]) + "" == Join("; ", descs);
    }
  }

  /** A description that cannot be derived: with neither description nor title, the join
      over the first (at most three) item descriptions raises TypeError naming the first
      of them that is not a string. */
  lemma DescriptionJoinRaises(data: Fields, items: seq<Json>)
    requires AllDicts(items) && |items| > 0
    requires !Truthy(Get(data, "description")) && !Truthy(Get(data, "title"))
    requires FirstNonStr(ItemDescriptions(items)[..Min(3, |items|)]) < Min(3, |items|)
    ensures var k := FirstNonStr(ItemDescriptions(items)[..Min(3, |items|)]);
      DescriptionOf(data, items) == Failure(JoinItemNotStr(k, TypeName(ItemDescriptions(items)[k])))
  {
  }

  // ---------------------------------------------------------------------------
  // email -> backend

  /** `external_id`: `str(email_rfq_id)` of the payload, "" when it has none. */
  function ExternalIdOf(data: Fields): (r: string)
    ensures Lookup(data, "email_rfq_id").None? ==> r == ""
    ensures forall s :: Lookup(data, "email_rfq_id") == Some(JStr(s)) ==> r == s
    ensures forall n: nat :: Lookup(data, "email_rfq_id") == Some(JInt(n)) ==> r == NatToDecimal(n)
    ensures Lookup(data, "email_rfq_id") == Some(JNull) ==> r == "None"
  {
    PyStr(GetOr(data, "email_rfq_id", JStr("")))
  }

  /** The `ai_analysis` blob: the source tag "email" and three copied payload values. */
  function AiAnalysisOf(data: Fields): (r: Json)
    ensures r.JObj? && Keys(r.fields) == ["source", "email_rfq_id", "confidence", "language"]
    ensures Lookup(r.fields, "source") == Some(JStr("email"))
  {
    JObj([
      ("source", JStr("email")),
      ("email_rfq_id", Get(data, "email_rfq_id")),
      ("confidence", Get(data, "ai_confidence_score")),
      ("language", Get(data, "language"))
    ])
  }

  const MedusaModel: string := "MedusaRFQ"

  /** The record's validation of a `str` field. */
  function ExpectStr(field: string, j: Json): (r: Result<string, PyError>)
    ensures r.Success? <==> j.JStr?
  {
    if j.JStr? then Success(j.s) else Failure(ValidationError(MedusaModel, field))
  }

  /** The record's validation of an `Optional[str]` field. */
  function ExpectOptStr(field: string, j: Json): (r: Result<Option<string>, PyError>)
    ensures r.Success? <==> j.JStr? || j.JNull?
  {
    match j
    case JNull => Success(None)
    case JStr(s) => Success(Some(s))
    case _ => Failure(ValidationError(MedusaModel, field))
  }

  function CustomerOf(data: Fields): Json {
    GetOr(data, "customer", JObj([]))
  }

  function RawLineItemsOf(data: Fields): Json {
    GetOr(data, "line_items", JArr([]))
  }

  /** What `transform_email_to_medusa` computes before it builds the record. */
  datatype Derived = Derived(
    customer: Fields,
    lineItems: seq<Json>,
    deliveryAddress: Option<Json>,
    description: Json,
    status: string,
    priority: string)

  /** The first half of `transform_email_to_medusa`, in Python's evaluation order: line
      items, delivery address, description, status, priority, then the first `customer.get`. */
  function DeriveFields(data: Fields): (r: Result<Derived, PyError>)
    ensures r.Success? ==>
      && IterationItems(RawLineItemsOf(data)).Success?
      && TransformLineItems(IterationItems(RawLineItemsOf(data)).value) == Success(r.value.lineItems)
      && DeliveryAddressOf(data) == Success(r.value.deliveryAddress)
      && MedusaStatusOf(data) == Success(r.value.status)
      && MedusaPriorityOf(data) == Success(r.value.priority)
      && CustomerOf(data) == JObj(r.value.customer)
  {
    var items :- IterationItems(RawLineItemsOf(data));
    var lineItems :- TransformLineItems(items);
    var deliveryAddress :- DeliveryAddressOf(data);
    var description :- DescriptionOf(data, items);
    var status :- MedusaStatusOf(data);
    var priority :- MedusaPriorityOf(data);
    var customer := CustomerOf(data);
    if !customer.JObj? then Failure(AttributeError(TypeName(customer), "get"))
    else Success(Derived(customer.fields, lineItems, deliveryAddress, description, status, priority))
  }

  /** The second half: the record's constructor checks its typed fields in declaration order. */
  function BuildRecord(data: Fields, d: Derived): (r: Result<MedusaRfq, PyError>)
    ensures r.Success? ==>
      && Success(r.value.rfqNumber) == ExpectStr("rfq_number", GetOr(data, "rfq_number", JStr("")))
      && Success(r.value.customerEmail) == ExpectStr("customer_email", GetOr(d.customer, "email", JStr("")))
      && r.value.lineItems == d.lineItems
      && r.value.status == d.status && r.value.priority == d.priority
      && r.value.deliveryAddress == d.deliveryAddress
  {
    var rfqNumber :- ExpectStr("rfq_number", GetOr(data, "rfq_number", JStr("")));
    var customerEmail :- ExpectStr("customer_email", GetOr(d.customer, "email", JStr("")));
    var customerName :- ExpectOptStr("customer_name", Get(d.customer, "name"));
    var customerCompany :- ExpectOptStr("customer_company", Get(d.customer, "company"));
    var description :- ExpectOptStr("description", d.description);
    var currency :- ExpectStr("currency", GetOr(data, "currency", JStr("EUR")));
    Success(MedusaRfq(
      rfqNumber := rfqNumber,
      customerEmail := customerEmail,
      customerName := customerName,
      customerCompany := customerCompany,
      description := description,
      lineItems := d.lineItems,
      status := d.status,
      priority := d.priority,
      currency := currency,
      estimatedValue := Get(data, "estimated_value"),
      deliveryAddress := d.deliveryAddress,
      aiConfidenceScore := Get(data, "ai_confidence_score"),
      aiAnalysis := Some(AiAnalysisOf(data)),
      externalId := ExternalIdOf(data),
      externalSource := "email"))
  }

  /** `transform_email_to_medusa`. */
  function TransformEmailToMedusa(data: Fields): (r: Result<MedusaRfq, PyError>)
    ensures r.Success? ==>
      && r.value.externalId == ExternalIdOf(data)
      && r.value.externalSource == "email"
      && r.value.syncStatus == "synced"
      && r.value.aiAnalysis == Some(AiAnalysisOf(data))
      && r.value.customerId.None? && r.value.companyId.None?
      && r.value.requirements.None? && r.value.attachments.None?
      && Success(r.value.status) == MedusaStatusOf(data)
      && Success(r.value.priority) == MedusaPriorityOf(data)
      && Success(r.value.deliveryAddress) == DeliveryAddressOf(data)
      && IterationItems(RawLineItemsOf(data)).Success?
      && TransformLineItems(IterationItems(RawLineItemsOf(data)).value) == Success(r.value.lineItems)
  {
    var d :- DeriveFields(data);
    BuildRecord(data, d)
  }

  /** The line items of a transformed RFQ are the payload's, in order, one for one, and
      the payload's line items were all dicts. */
  lemma TransformKeepsLineItems(data: Fields)
    requires TransformEmailToMedusa(data).Success?
    ensures IterationItems(RawLineItemsOf(data)).Success?
    ensures var items := IterationItems(RawLineItemsOf(data)).value;
      var m := TransformEmailToMedusa(data).value;
      && AllDicts(items)
      && |m.lineItems| == |items|
      && forall k :: 0 <= k < |items| ==> m.lineItems[k] == TransformLineItem(items[k].fields)
  {
  }

  /** A payload that validates, with string-typed values where the record wants strings,
      always transforms; its record carries the payload's RFQ number and customer email. */
  lemma {:induction false} TransformOfSyncable(data: Fields)
    requires IsSyncable(data)
    requires GetOr(data, "rfq_number", JStr("")).JStr?
    requires GetOr(CustomerOf(data).fields, "email", JStr("")).JStr?
    requires Get(CustomerOf(data).fields, "name").JStr? || Get(CustomerOf(data).fields, "name").JNull?
    requires Get(CustomerOf(data).fields, "company").JStr? || Get(CustomerOf(data).fields, "company").JNull?
    requires Get(data, "description").JStr? || Get(data, "description").JNull?
    requires Get(data, "title").JStr? || Get(data, "title").JNull?
    requires forall k :: 0 <= k < |RawLineItemsOf(data).items| ==>
      GetOr(RawLineItemsOf(data).items[k].fields, "description", JStr("")).JStr?
    requires !GetOr(data, "status", JStr("received")).JArr? && !GetOr(data, "status", JStr("received")).JObj?
    requires !GetOr(data, "priority", JStr("medium")).JArr? && !GetOr(data, "priority", JStr("medium")).JObj?
    requires !Truthy(GetOr(data, "delivery", JObj([]))) || GetOr(data, "delivery", JObj([])).JObj?
    requires GetOr(data, "currency", JStr("EUR")).JStr?
    ensures TransformEmailToMedusa(data).Success?
    ensures TransformEmailToMedusa(data).value.rfqNumber == GetOr(data, "rfq_number", JStr("")).s
    ensures TransformEmailToMedusa(data).value.customerEmail == GetOr(CustomerOf(data).fields, "email", JStr("")).s
  {
    var items := RawLineItemsOf(data).items;
    assert IterationItems(RawLineItemsOf(data)) == Success(items);
    assert AllDicts(items);
    DescriptionIsOptionalStr(data, items);
    var d := DeriveFields(data);
    assert d.Success?;
    assert BuildRecord(data, d.value).Success?;
  }

  /** With string-or-None description and title and string item descriptions, the derived
      description is a string or None, as the record requires. */
  lemma DescriptionIsOptionalStr(data: Fields, items: seq<Json>)
    requires AllDicts(items)
    requires Get(data, "description").JStr? || Get(data, "description").JNull?
    requires Get(data, "title").JStr? || Get(data, "title").JNull?
    requires forall k :: 0 <= k < |items| ==> GetOr(items[k].fields, "description", JStr("")).JStr?
    ensures DescriptionOf(data, items).Success?
    ensures DescriptionOf(data, items).value.JStr? || DescriptionOf(data, items).value.JNull?
  {
    var firsts := ItemDescriptions(items)[..Min(3, |items|)];
    assert forall k :: 0 <= k < |firsts| ==> firsts[k].JStr?;
    assert JoinStrs("; ", firsts).Success?;
  }

  // ---------------------------------------------------------------------------
  // backend -> email

  /** The email-service status of a backend RFQ: `status` (default "received") through
      the reverse table, with "validated" for anything the table does not know. */
  function EmailStatusOf(data: Fields): Result<string, PyError> {
    TableGet(MedusaToEmailStatus, GetOr(data, "status", JStr("received")), "validated")
  }

  lemma EmailStatusMapping(data: Fields)
    ensures Lookup(data, "status").None? ==> EmailStatusOf(data) == Success("received")
    ensures forall s :: Lookup(data, "status") == Some(JStr(s)) ==>
      EmailStatusOf(data) == Success(if s in MedusaToEmailStatus then MedusaToEmailStatus[s] else "validated")
    ensures EmailStatusOf(data).Success? ==> EmailStatusOf(data).value in EmailToMedusaStatus
  {
    assert "received" in MedusaToEmailStatus && "validated" in EmailToMedusaStatus;
    assert forall s :: s in MedusaToEmailStatus ==> MedusaToEmailStatus[s] in EmailToMedusaStatus;
  }

  const EmailUpdateKeys: seq<string> :=
    ["status", "priority", "assigned_to", "internal_notes", "medusa_rfq_id", "medusa_synced_at"]

  /** `transform_medusa_to_email`; the sync instant is a parameter. */
  function TransformMedusaToEmail(data: Fields, syncedAt: Timestamp): (r: Result<Json, PyError>)
    ensures r.Success? <==> EmailStatusOf(data).Success?
    ensures r.Success? ==> r.value.JObj?
  {
    var status :- EmailStatusOf(data);
    Success(JObj([
      ("status", JStr(status)),
      ("priority", GetOr(data, "priority", JStr("medium"))),
      ("assigned_to", Get(data, "assigned_to")),
      ("internal_notes", Get(data, "internal_notes")),
      ("medusa_rfq_id", Get(data, "id")),
      ("medusa_synced_at", JStr(syncedAt))
    ]))
  }

  lemma EmailUpdateEntry(data: Fields, syncedAt: Timestamp, i: nat)
    requires EmailStatusOf(data).Success? && i < |EmailUpdateKeys|
    ensures var fs := TransformMedusaToEmail(data, syncedAt).value.fields;
      && Keys(fs) == EmailUpdateKeys && DistinctKeys(fs)
      && Lookup(fs, EmailUpdateKeys[i]) == Some(fs[i].1)
  {
    var fs := TransformMedusaToEmail(data, syncedAt).value.fields;
    assert Keys(fs) == ["status", "priority", "assigned_to", "internal_notes", "medusa_rfq_id", "medusa_synced_at"];
    LookupDistinct(fs);
    assert Keys(fs)[i] == EmailUpdateKeys[i];
  }

  /** The update for the email service has exactly its six keys: the mapped status, the
      priority (default "medium"), the backend id and the sync instant among them. */
  lemma MedusaToEmailFields(data: Fields, syncedAt: Timestamp)
    requires TransformMedusaToEmail(data, syncedAt).Success?
    ensures var fs := TransformMedusaToEmail(data, syncedAt).value.fields;
      && Keys(fs) == EmailUpdateKeys
      && Lookup(fs, "status") == Some(JStr(EmailStatusOf(data).value))
      && Lookup(fs, "priority") == Some(GetOr(data, "priority", JStr("medium")))
      && Lookup(fs, "medusa_rfq_id") == Some(Get(data, "id"))
      && Lookup(fs, "medusa_synced_at") == Some(JStr(syncedAt))
  {
    EmailUpdateEntry(data, syncedAt, 0);
    EmailUpdateEntry(data, syncedAt, 1);
    EmailUpdateEntry(data, syncedAt, 4);
    EmailUpdateEntry(data, syncedAt, 5);
  }

  /** A backend RFQ's status survives the trip to the email vocabulary and back. */
  lemma {:induction false} MedusaStatusSurvivesRoundTrip(rfq: Fields, syncedAt: Timestamp)
    requires TransformEmailToMedusa(rfq).Success?
    ensures var m := TransformEmailToMedusa(rfq).value;
      var back := TransformMedusaToEmail([("status", JStr(m.status))], syncedAt);
      && back.Success?
      && MedusaStatusOf([("status", Lookup(back.value.fields, "status").value)]) == Success(m.status)
  {
    var m := TransformEmailToMedusa(rfq).value;
    StatusMapping(rfq);
    StatusRoundTrip(m.status);
    var data := [("status", JStr(m.status))];
    assert Lookup(data, "status") == Some(JStr(m.status));
    EmailStatusMapping(data);
    MedusaToEmailFields(data, syncedAt);
  }

  // ---------------------------------------------------------------------------
  // Validation

  const MissingRfqNumber: string := "Missing rfq_number"
  const MissingCustomerEmail: string := "Missing customer email"
  const NoLineItems: string := "No line items found"

  function LineItemError(line: nat): string {
    "Line item " + NatToDecimal(line) + " missing description"
  }

  /** The per-item errors from item `offset + 1` on: one per item without a truthy
      description, in order; the first item that is not a dict raises. */
  function ItemErrors(items: seq<Json>, offset: nat): (r: Result<seq<string>, PyError>)
    ensures r.Success? <==> AllDicts(items)
    decreases |items|
  {
    if items == [] then Success([])
    else if !items[0].JObj? then Failure(AttributeError(TypeName(items[0]), "get"))
    else
      assert forall k :: 1 <= k < |items| ==> items[k] == items[1..][k - 1];
      Prepend(ItemCheck(items[0].fields, offset + 1), ItemErrors(items[1..], offset + 1))
  }

  /** The error, if any, for the line item numbered `line` (1-based). */
  function ItemCheck(item: Fields, line: nat): seq<string> {
    if Truthy(Get(item, "description")) then [] else [LineItemError(line)]
  }

  function Prepend(prefix: seq<string>, r: Result<seq<string>, PyError>): (p: Result<seq<string>, PyError>)
    ensures p.Success? <==> r.Success?
  {
    match r
    case Success(es) => Success(prefix + es)
    case Failure(e) => Failure(e)
  }

  /** The errors that do not concern single items, in their fixed order. */
  function HeaderErrors(data: Fields): seq<string>
    requires CustomerOf(data).JObj?
  {
    (if Truthy(Get(data, "rfq_number")) then [] else [MissingRfqNumber])
    + (if Truthy(Get(CustomerOf(data).fields, "email")) then [] else [MissingCustomerEmail])
    + (if Truthy(RawLineItemsOf(data)) then [] else [NoLineItems])
  }

  /** What `validate_for_sync` computes: the ordered error list, or the exception it raises. */
  function ValidationErrors(data: Fields): Result<seq<string>, PyError> {
    var customer := CustomerOf(data);
    if !customer.JObj? then Failure(AttributeError(TypeName(customer), "get"))
    else
      var items :- IterationItems(RawLineItemsOf(data));
      Prepend(HeaderErrors(data), ItemErrors(items, 0))
  }

  /** Every item is a dict with a truthy description. */
  predicate AllDescribed(items: seq<Json>) {
    forall k :: 0 <= k < |items| ==> items[k].JObj? && Truthy(Get(items[k].fields, "description"))
  }

  /** The independent statement of what a syncable RFQ is: a truthy rfq_number, a customer
      dict with a truthy email, and a non-empty list of dicts, each with a truthy description. */
  predicate IsSyncable(data: Fields) {
    && Truthy(Get(data, "rfq_number"))
    && CustomerOf(data).JObj?
    && Truthy(Get(CustomerOf(data).fields, "email"))
    && RawLineItemsOf(data).JArr? && |RawLineItemsOf(data).items| > 0
    && AllDescribed(RawLineItemsOf(data).items)
  }

  lemma {:induction false} ItemErrorsEmptyIff(items: seq<Json>, offset: nat)
    ensures ItemErrors(items, offset) == Success([]) <==> AllDescribed(items)
    decreases |items|
  {
    if items != [] {
      ItemErrorsEmptyIff(items[1..], offset + 1);
      var tail := ItemErrors(items[1..], offset + 1);
      if !items[0].JObj? {
        assert !AllDescribed(items);
      } else if !Truthy(Get(items[0].fields, "description")) {
        assert ItemErrors(items, offset) != Success([]) by {
          if tail.Success? {
            assert |ItemErrors(items, offset).value| >= 1;
          }
        }
        assert !AllDescribed(items);
      } else {
        assert ItemErrors(items, offset) == tail by {
          assert ItemCheck(items[0].fields, offset + 1) == [];
          if tail.Success? {
            assert [] + tail.value == tail.value;
          }
        }
        if AllDescribed(items[1..]) {
          forall k | 0 <= k < |items|
            ensures items[k].JObj? && Truthy(Get(items[k].fields, "description"))
          {
            if k > 0 {
              assert items[k] == items[1..][k - 1];
            }
          }
        } else {
          var j :| 0 <= j < |items[1..]| && !(items[1..][j].JObj? && Truthy(Get(items[1..][j].fields, "description")));
          assert items[1..][j] == items[j + 1];
        }
      }
    }
  }

  /** Item errors name exactly the items without a truthy description, 1-based. */
  lemma {:induction false} ItemErrorsExact(items: seq<Json>, offset: nat)
    requires AllDicts(items)
    ensures forall k :: 0 <= k < |items| ==>
      (LineItemError(offset + k + 1) in ItemErrors(items, offset).value <==> !Truthy(Get(items[k].fields, "description")))
    decreases |items|
  {
    if items != [] {
      assert forall k :: 1 <= k < |items| ==> items[k] == items[1..][k - 1];
      ItemErrorsExact(items[1..], offset + 1);
      ItemErrorsSkip(items[1..], offset + 1);
      var head := ItemCheck(items[0].fields, offset + 1);
      var rest := ItemErrors(items[1..], offset + 1).value;
      assert ItemErrors(items, offset).value == head + rest;
      forall k | 0 <= k < |items|
        ensures LineItemError(offset + k + 1) in ItemErrors(items, offset).value <==> !Truthy(Get(items[k].fields, "description"))
      {
        if k > 0 {
          assert items[1..][k - 1] == items[k];
          assert LineItemError(offset + 1 + (k - 1) + 1) == LineItemError(offset + k + 1);
          if LineItemError(offset + k + 1) in head {
            LineItemErrorInjective(offset + k + 1, offset + 1);
          }
        }
      }
    }
  }

  /** Every message the item checks produce names one of the items' lines. */
  lemma {:induction false} ItemErrorsLines(items: seq<Json>, offset: nat)
    requires AllDicts(items)
    ensures forall m :: m in ItemErrors(items, offset).value ==>
      exists line :: offset < line <= offset + |items| && m == LineItemError(line)
    decreases |items|
  {
    if items != [] {
      assert forall k :: 1 <= k < |items| ==> items[k] == items[1..][k - 1];
      ItemErrorsLines(items[1..], offset + 1);
      assert ItemErrors(items, offset).value == ItemCheck(items[0].fields, offset + 1) + ItemErrors(items[1..], offset + 1).value;
    }
  }

  /** No message names the line before the first item checked. */
  lemma ItemErrorsSkip(items: seq<Json>, offset: nat)
    requires AllDicts(items)
    ensures LineItemError(offset) !in ItemErrors(items, offset).value
  {
    ItemErrorsLines(items, offset);
    if LineItemError(offset) in ItemErrors(items, offset).value {
      var line :| offset < line <= offset + |items| && LineItemError(offset) == LineItemError(line);
      LineItemErrorInjective(line, offset);
    }
  }

  lemma LineItemErrorInjective(a: nat, b: nat)
    requires LineItemError(a) == LineItemError(b)
    ensures a == b
  {
    var sa, sb := NatToDecimal(a), NatToDecimal(b);
    assert |sa| == |sb|;
    assert sa == LineItemError(a)[10..10 + |sa|];
    assert sb == LineItemError(b)[10..10 + |sb|];
    DecimalInjective(a, b);
  }

  /** validation passes exactly for syncable RFQs. */
  lemma ValidIffSyncable(data: Fields)
    ensures ValidationErrors(data) == Success([]) <==> IsSyncable(data)
  {
    var customer := CustomerOf(data);
    var li := RawLineItemsOf(data);
    if customer.JObj? && IterationItems(li).Success? {
      var items := IterationItems(li).value;
      ItemErrorsEmptyIff(items, 0);
      if !li.JArr? && |items| > 0 {
        assert !items[0].JObj?;
        assert !AllDescribed(items);
      }
    }
  }

  /** The error list starts with the whole-RFQ errors in their fixed order, then the item errors. */
  lemma ValidationErrorsOrder(data: Fields)
    requires ValidationErrors(data).Success?
    ensures CustomerOf(data).JObj?
    ensures var es := ValidationErrors(data).value;
      var h := HeaderErrors(data);
      && |h| <= |es| && es[..|h|] == h
      && (MissingRfqNumber in h <==> !Truthy(Get(data, "rfq_number")))
      && (!Truthy(Get(data, "rfq_number")) ==> es[0] == MissingRfqNumber)
      && (MissingCustomerEmail in h <==> !Truthy(Get(CustomerOf(data).fields, "email")))
      && (NoLineItems in h <==> !Truthy(RawLineItemsOf(data)))
  {
  }

  /** The loop's step: the checks from item `i` on are item `i`'s check, then those from `i + 1`. */
  lemma ItemErrorsStep(items: seq<Json>, i: nat)
    requires i < |items| && items[i].JObj?
    ensures ItemErrors(items[i..], i) == Prepend(ItemCheck(items[i].fields, i + 1), ItemErrors(items[i + 1..], i + 1))
  {
    assert items[i..][1..] == items[i + 1..];
  }

  /** `validate_for_sync`: builds the error list by appending, one check after another and one
      line item after another; is_valid is exactly "no errors". */
  method ValidateForSync(data: Fields) returns (r: Result<(bool, seq<string>), PyError>)
    ensures r.Success? <==> ValidationErrors(data).Success?
    ensures r.Success? ==> r.value.1 == ValidationErrors(data).value && r.value.0 == (r.value.1 == [])
    ensures r.Failure? ==> r.error == ValidationErrors(data).error
  {
    var errors: seq<string> := [];
    if !Truthy(Get(data, "rfq_number")) {
      errors := errors + [MissingRfqNumber];
    }
    var customer := GetOr(data, "customer", JObj([]));
    if !customer.JObj? {
      return Failure(AttributeError(TypeName(customer), "get"));
    }
    if !Truthy(Get(customer.fields, "email")) {
      errors := errors + [MissingCustomerEmail];
    }
    var lineItems := GetOr(data, "line_items", JArr([]));
    if !Truthy(lineItems) {
      errors := errors + [NoLineItems];
    }
    assert errors == HeaderErrors(data);
    var iter := IterationItems(lineItems);
    if iter.Failure? {
      return Failure(iter.error);
    }
    var items := iter.value;
    ghost var target := Prepend(HeaderErrors(data), ItemErrors(items, 0));
    assert ValidationErrors(data) == target;
    assert items[0..] == items;
    var i := 0;
    while i < |items|
      invariant 0 <= i <= |items|
      invariant target == Prepend(errors, ItemErrors(items[i..], i))
    {
      var item := items[i];
      if !item.JObj? {
        return Failure(AttributeError(TypeName(item), "get"));
      }
      ItemErrorsStep(items, i);
      PrependTwice(errors, ItemCheck(item.fields, i + 1), ItemErrors(items[i + 1..], i + 1));
      if !Truthy(Get(item.fields, "description")) {
        errors := errors + [LineItemError(i + 1)];
      } else {
        assert errors + ItemCheck(item.fields, i + 1) == errors;
      }
      i := i + 1;
    }
    return Success((|errors| == 0, errors));
  }

  lemma PrependTwice(a: seq<string>, b: seq<string>, r: Result<seq<string>, PyError>)
    ensures Prepend(a, Prepend(b, r)) == Prepend(a + b, r)
  {
    if r.Success? {
      assert a + (b + r.value) == (a + b) + r.value;
    }
  }
}
