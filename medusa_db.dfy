/**
 * The commerce backend's database as the sync service touches it: the `rfq` table as a
 * map from primary key to row, and the client's three statements (the idempotency
 * lookup by external id, the insert, the status update) over a connection that is
 * either open or not.
 */
module MedusaDb {
  import opened Wrappers
  import opened Python
  import opened Events

  /** A row of the `rfq` table with the columns the insert writes. JSON columns hold the
      value `json.dumps` was given. */
  datatype Row = Row(
    id: string,
    rfqNumber: string,
    customerId: Option<string>,
    companyId: Option<string>,
    customerEmail: string,
    customerCompany: Option<string>,
    customerName: Option<string>,
    description: Option<string>,
    lineItems: seq<Json>,
    status: string,
    priority: string,
    estimatedValue: Json,
    currency: string,
    requirements: Option<Json>,
    deliveryAddress: Option<Json>,
    attachments: Option<Json>,
    aiConfidenceScore: Json,
    aiAnalysis: Option<Json>,
    externalId: string,
    externalSource: string,
    syncStatus: string,
    syncedAt: Timestamp,
    createdAt: Timestamp,
    updatedAt: Timestamp)

  /** The five columns the idempotency lookup selects. */
  datatype Summary = Summary(id: string, rfqNumber: string, status: string, externalId: string, syncStatus: string)

  const IdPrefix: string := "rfq_"
  const DuplicateKey: string := "duplicate key value violates unique constraint \"rfq_pkey\""

  /** `json.dumps(v) if v else None`: an absent or falsy JSON column is stored as NULL. */
  function NullIfFalsy(v: Option<Json>): (r: Option<Json>)
    ensures r.Some? <==> v.Some? && Truthy(v.value)
    ensures r.Some? ==> r == v
  {
    if v.Some? && Truthy(v.value) then v else None
  }

  /** A backend id: "rfq_" and the first 24 hex digits of a fresh uuid4. */
  predicate IsIdSuffix(hex: string) {
    |hex| == 24 && forall k :: 0 <= k < |hex| ==> IsLowerHex(hex[k])
  }

  function RfqId(hex: string): (id: string)
    ensures |id| == |hex| + 4 && id[..4] == IdPrefix && id[4..] == hex
  {
    IdPrefix + hex
  }

  /** The row the insert writes for `rfq` under `id`; the three timestamps are one instant. */
  function RowOf(rfq: MedusaRfq, id: string, now: Timestamp): (row: Row)
    ensures row.id == id && row.externalId == rfq.externalId && row.externalSource == rfq.externalSource
    ensures row.syncStatus == "synced" && row.status == rfq.status && row.rfqNumber == rfq.rfqNumber
    ensures row.requirements == NullIfFalsy(rfq.requirements) && row.deliveryAddress == NullIfFalsy(rfq.deliveryAddress)
    ensures row.attachments == NullIfFalsy(rfq.attachments) && row.aiAnalysis == NullIfFalsy(rfq.aiAnalysis)
  {
    Row(id := id,
        rfqNumber := rfq.rfqNumber,
        customerId := rfq.customerId,
        companyId := rfq.companyId,
        customerEmail := rfq.customerEmail,
        customerCompany := rfq.customerCompany,
        customerName := rfq.customerName,
        description := rfq.description,
        lineItems := rfq.lineItems,
        status := rfq.status,
        priority := rfq.priority,
        estimatedValue := rfq.estimatedValue,
        currency := rfq.currency,
        requirements := NullIfFalsy(rfq.requirements),
        deliveryAddress := NullIfFalsy(rfq.deliveryAddress),
        attachments := NullIfFalsy(rfq.attachments),
        aiConfidenceScore := rfq.aiConfidenceScore,
        aiAnalysis := NullIfFalsy(rfq.aiAnalysis),
        externalId := rfq.externalId,
        externalSource := rfq.externalSource,
        syncStatus := "synced",
        syncedAt := now,
        createdAt := now,
        updatedAt := now)
  }

  function SummaryOf(row: Row): Summary {
    Summary(row.id, row.rfqNumber, row.status, row.externalId, row.syncStatus)
  }

  /** Rows are stored under their own id. */
  predicate WellKeyed(rows: map<string, Row>) {
    forall id :: id in rows ==> rows[id].id == id
  }

  /** `SELECT ... WHERE external_id = $1 LIMIT 1` has no ORDER BY: any matching row may
      come back, and none comes back only when none matches. */
  predicate IsFindAnswer(rows: map<string, Row>, externalId: string, answer: Option<Summary>) {
    match answer
    case None => forall id :: id in rows ==> rows[id].externalId != externalId
    case Some(s) => exists id :: id in rows && rows[id].externalId == externalId && s == SummaryOf(rows[id])
  }

  /** The statements need an open pool: `self._pool` is None otherwise. */
  const NoPool: PyError := AttributeError("NoneType", "acquire")

  function CreateResult(rows: map<string, Row>, connected: bool, hex: string, fault: Option<string>): (r: Result<string, PyError>)
    ensures r.Success? <==> connected && fault.None? && RfqId(hex) !in rows
    ensures r.Success? ==> r.value == RfqId(hex)
  {
    if !connected then Failure(NoPool)
    else if fault.Some? then Failure(Infra(fault.value))
    else if RfqId(hex) in rows then Failure(Infra(DuplicateKey))
    else Success(RfqId(hex))
  }

  function CreateState(rows: map<string, Row>, rfq: MedusaRfq, connected: bool, hex: string, now: Timestamp, fault: Option<string>): map<string, Row> {
    if CreateResult(rows, connected, hex, fault).Success? then rows[RfqId(hex) := RowOf(rfq, RfqId(hex), now)] else rows
  }

  function UpdateState(rows: map<string, Row>, connected: bool, id: string, status: string, now: Timestamp, fault: Option<string>): (r: map<string, Row>)
    ensures r.Keys == rows.Keys
    ensures forall k :: k in rows && k != id ==> r[k] == rows[k]
    ensures connected && fault.None? && id in rows ==> r[id] == rows[id].(status := status, updatedAt := now)
    ensures !(connected && fault.None?) ==> r == rows
  {
    if connected && fault.None? && id in rows then rows[id := rows[id].(status := status, updatedAt := now)] else rows
  }

  /** After an insert, the lookup by the inserted external id cannot come back empty, and
      whatever it returns has that external id. */
  lemma FindAfterCreate(rows: map<string, Row>, rfq: MedusaRfq, connected: bool, hex: string, now: Timestamp, answer: Option<Summary>)
    requires CreateResult(rows, connected, hex, None).Success?
    requires IsFindAnswer(CreateState(rows, rfq, connected, hex, now, None), rfq.externalId, answer)
    ensures answer.Some? && answer.value.externalId == rfq.externalId
  {
    var rows' := CreateState(rows, rfq, connected, hex, now, None);
    assert RfqId(hex) in rows' && rows'[RfqId(hex)].externalId == rfq.externalId;
  }

  /** An insert keeps every row it found and keys the new one by its id. */
  lemma CreateKeepsRows(rows: map<string, Row>, rfq: MedusaRfq, connected: bool, hex: string, now: Timestamp, fault: Option<string>)
    requires WellKeyed(rows)
    ensures var rows' := CreateState(rows, rfq, connected, hex, now, fault);
      && WellKeyed(rows')
      && (forall k :: k in rows ==> k in rows' && rows'[k] == rows[k])
      && |rows'.Keys| <= |rows.Keys| + 1
  {
    var rows' := CreateState(rows, rfq, connected, hex, now, fault);
    if CreateResult(rows, connected, hex, fault).Success? {
      assert rows'.Keys == rows.Keys + {RfqId(hex)};
    }
  }

  /** A status update changes neither a row's external id nor which rows exist, so the
      lookup by any external id comes back empty after it exactly when it did before. */
  lemma UpdateKeepsLookups(rows: map<string, Row>, connected: bool, id: string, status: string, now: Timestamp, fault: Option<string>, externalId: string)
    ensures IsFindAnswer(UpdateState(rows, connected, id, status, now, fault), externalId, None)
      <==> IsFindAnswer(rows, externalId, None)
  {
    var rows' := UpdateState(rows, connected, id, status, now, fault);
    assert forall k :: k in rows ==> rows'[k].externalId == rows[k].externalId;
  }

  class MedusaDbClient {
    var connected: bool
    var rows: map<string, Row>

    /** A client without a pool, over an existing table. */
    constructor(table: map<string, Row>)
      ensures !connected && rows == table
    {
      connected := false;
      rows := table;
    }

    /** `connect`: a no-op when the pool exists; creating the pool can fail. */
    method Connect(fault: Option<string>) returns (r: Result<(), PyError>)
      modifies this
      ensures old(connected) ==> r == Success(()) && connected
      ensures !old(connected) ==> r == FaultOutcome(fault) && connected == fault.None?
      ensures rows == old(rows)
    {
      if connected {
        return Success(());
      }
      if fault.Some? {
        return Failure(Infra(fault.value));
      }
      connected := true;
      return Success(());
    }

    /** `disconnect`: a no-op without a pool; otherwise it closes the pool, and only when
        closing succeeds is the pool dropped. A failing close raises and keeps it. */
    method Disconnect(fault: Option<string>) returns (r: Result<(), PyError>)
      modifies this
      ensures r == (if old(connected) then FaultOutcome(fault) else Success(()))
      ensures connected == (old(connected) && fault.Some?)
      ensures rows == old(rows)
    {
      if !connected {
        return Success(());
      }
      if fault.Some? {
        return Failure(Infra(fault.value));
      }
      connected := false;
      return Success(());
    }

    /** `find_rfq_by_external_id` */
    method FindRfqByExternalId(externalId: string, fault: Option<string>) returns (r: Result<Option<Summary>, PyError>)
      ensures !connected ==> r == Failure(NoPool)
      ensures connected && fault.Some? ==> r == Failure(Infra(fault.value))
      ensures connected && fault.None? ==> r.Success? && IsFindAnswer(rows, externalId, r.value)
    {
      if !connected {
        return Failure(NoPool);
      }
      if fault.Some? {
        return Failure(Infra(fault.value));
      }
      var matching := set id | id in rows && rows[id].externalId == externalId;
      if matching == {} {
        forall k | k in rows
          ensures rows[k].externalId != externalId
        {
          assert k !in matching;
        }
        return Success(None);
      }
      var id :| id in matching;
      return Success(Some(SummaryOf(rows[id])));
    }

    /** `create_rfq`: the new id is "rfq_" and `hex`, the 24 hex digits uuid4 provides. */
    method CreateRfq(rfq: MedusaRfq, hex: string, now: Timestamp, fault: Option<string>) returns (r: Result<string, PyError>)
      requires IsIdSuffix(hex)
      modifies this
      ensures r == CreateResult(old(rows), connected, hex, fault)
      ensures rows == CreateState(old(rows), rfq, connected, hex, now, fault)
      ensures connected == old(connected)
    {
      if !connected {
        return Failure(NoPool);
      }
      if fault.Some? {
        return Failure(Infra(fault.value));
      }
      var id := IdPrefix + hex;
      if id in rows {
        return Failure(Infra(DuplicateKey));
      }
      rows := rows[id := RowOf(rfq, id, now)];
      return Success(id);
    }

    /** `update_rfq_status`: an id with no row updates nothing. */
    method UpdateRfqStatus(id: string, status: string, now: Timestamp, fault: Option<string>) returns (r: Result<(), PyError>)
      modifies this
      ensures r == (if !connected then Failure(NoPool) else FaultOutcome(fault))
      ensures rows == UpdateState(old(rows), connected, id, status, now, fault)
      ensures connected == old(connected)
    {
      if !connected {
        return Failure(NoPool);
      }
      if fault.Some? {
        return Failure(Infra(fault.value));
      }
      if id in rows {
        rows := rows[id := rows[id].(status := status, updatedAt := now)];
      }
      return Success(());
    }
  }
}
