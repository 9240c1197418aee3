/**
 The durable idempotency store: two tables written together, one transaction per call, with the
 unique keys the schema declares; and the plain dictionary it must behave like.
 */
module OrderStore {
  import opened Common

  datatype OrderStatus =
    | CREATED | SUBMITTED | ACCEPTED | PARTIALLY_FILLED | FILLED | CANCELLED | REJECTED
    | UNKNOWN_REQUIRES_RECONCILIATION

  datatype ReconciliationState = NOT_REQUIRED | REQUIRED | RECONCILED | BLOCKING_DUPLICATES

  datatype BrokerName = ZERODHA | ALPACA

  datatype OrderType = MARKET | LIMIT

  datatype Intent = Intent(
    market: Market,
    broker: BrokerName,
    symbol: string,
    side: OrderSide,
    quantity: int,
    orderType: OrderType,
    limitPrice: Option<real>,
    stopLoss: Option<real>,
    riskDecisionId: Option<string>,
    idempotencyKey: string
  )

  datatype Record = Record(
    id: string,
    intent: Intent,
    status: OrderStatus,
    reconciliationState: ReconciliationState,
    brokerOrderId: Option<string>,
    brokerResponse: string,
    finalReconciliation: string
  )

  function NewRecord(id: string, intent: Intent): Record {
    Record(id, intent, CREATED, REQUIRED, None, "", "")
  }

  /** A row of the orders table, filed under its id. */
  datatype OrderRow = OrderRow(
    idempotencyKey: string,
    intent: Intent,
    brokerOrderId: Option<string>,
    status: OrderStatus,
    reconciliationState: ReconciliationState,
    brokerResponse: string,
    finalReconciliation: string
  )

  /** A row of the idempotency table, filed under its key. */
  datatype KeyRow = KeyRow(
    orderRecordId: string,
    brokerOrderId: Option<string>,
    status: OrderStatus,
    reconciliationState: ReconciliationState,
    blocksDuplicates: bool,
    payload: Record
  )

  datatype Db = Db(orders: map<string, OrderRow>, keys: map<string, KeyRow>)

  const DUPLICATE := "order_idempotency_key_already_exists"

  function OrderFrom(record: Record): OrderRow {
    OrderRow(record.intent.idempotencyKey, record.intent, record.brokerOrderId, record.status,
             record.reconciliationState, record.brokerResponse, record.finalReconciliation)
  }

  function ApplyRecord(row: OrderRow, record: Record): OrderRow {
    row.(brokerOrderId := record.brokerOrderId,
         status := record.status,
         reconciliationState := record.reconciliationState,
         brokerResponse := record.brokerResponse,
         finalReconciliation := record.finalReconciliation)
  }

  function KeyFrom(record: Record): KeyRow {
    KeyRow(record.id, record.brokerOrderId, record.status, record.reconciliationState, true, record)
  }

  predicate KeyTaken(orders: map<string, OrderRow>, key: string) {
    exists id | id in orders :: orders[id].idempotencyKey == key
  }

  function Get(db: Db, key: string): Option<Record> {
    if key in db.keys then Some(db.keys[key].payload) else None
  }

  /** Both inserts or neither: any duplicate key rolls the transaction back. */
  function Reserve(db: Db, key: string, record: Record): Result<Db> {
    if record.id in db.orders || KeyTaken(db.orders, record.intent.idempotencyKey) || key in db.keys then
      Raised(DUPLICATE)
    else Ok(Db(db.orders[record.id := OrderFrom(record)], db.keys[key := KeyFrom(record)]))
  }

  function Upsert(db: Db, key: string, record: Record): Result<Db> {
    if record.id !in db.orders && KeyTaken(db.orders, record.intent.idempotencyKey) then Raised(DUPLICATE) else
    var row := if record.id in db.orders then ApplyRecord(db.orders[record.id], record) else OrderFrom(record);
    Ok(Db(db.orders[record.id := row], db.keys[key := KeyFrom(record)]))
  }

  // ---------- agreement of the two tables ----------

  ghost predicate KeyRowAgrees(db: Db, key: string)
    requires key in db.keys
  {
    var row := db.keys[key];
    && row == KeyFrom(row.payload)
    && row.payload.intent.idempotencyKey == key
    && row.payload.id in db.orders
    && db.orders[row.payload.id] == OrderFrom(row.payload)
  }

  /** Each key row has exactly one order row, equal column by column, and each order row has its key row. */
  ghost predicate Agrees(db: Db) {
    && (forall k :: k in db.keys ==> KeyRowAgrees(db, k))
    && (forall id :: id in db.orders ==>
          var k := db.orders[id].idempotencyKey;
          k in db.keys && db.keys[k].orderRecordId == id)
  }

  /** What a caller of the store can see: the record last written under each key. */
  function Records(db: Db): map<string, Record> {
    map k | k in db.keys :: db.keys[k].payload
  }

  lemma ReserveKeepsAgreement(db: Db, record: Record)
    requires Agrees(db) && Reserve(db, record.intent.idempotencyKey, record).Ok?
    ensures Agrees(Reserve(db, record.intent.idempotencyKey, record).value)
  {
    var db' := Reserve(db, record.intent.idempotencyKey, record).value;
    forall k | k in db'.keys
      ensures KeyRowAgrees(db', k)
    {
      assert k in db.keys ==> KeyRowAgrees(db, k);
    }
  }

  lemma TakenExactly(db: Db, key: string)
    requires Agrees(db)
    ensures KeyTaken(db.orders, key) <==> key in db.keys
  {
    if key in db.keys {
      assert KeyRowAgrees(db, key);
    }
  }

  /** Under agreement, a reservation is refused exactly for a key already held or an id already used. */
  lemma ReserveRefinesDictionary(db: Db, record: Record)
    requires Agrees(db)
    ensures var key := record.intent.idempotencyKey;
            var r := Reserve(db, key, record);
            && (r.Raised? <==> key in Records(db) || record.id in db.orders)
            && (r.Ok? ==> Records(r.value) == Records(db)[key := record])
            && (r.Ok? ==> Agrees(r.value))
  {
    var key := record.intent.idempotencyKey;
    TakenExactly(db, key);
    hide Agrees, KeyTaken, OrderFrom;
    if Reserve(db, key, record).Ok? {
      ReserveKeepsAgreement(db, record);
    }
  }

  /** Whenever an upsert goes through, callers see exactly the record written. */
  lemma UpsertRefinesDictionary(db: Db, key: string, record: Record)
    ensures var r := Upsert(db, key, record);
            && (r.Ok? ==> Records(r.value) == Records(db)[key := record])
            && (r.Raised? <==> record.id !in db.orders && KeyTaken(db.orders, record.intent.idempotencyKey))
  {
  }

  lemma OwnRowUpdated(db: Db, record: Record)
    requires record.id in db.orders
    requires db.orders[record.id].idempotencyKey == record.intent.idempotencyKey &&
             db.orders[record.id].intent == record.intent
    ensures ApplyRecord(db.orders[record.id], record) == OrderFrom(record)
  {
  }

  /** The owner of a key can always write it, and the tables stay in agreement. */
  lemma OwnerUpsert(db: Db, record: Record)
    requires Agrees(db)
    requires Get(db, record.intent.idempotencyKey).Some?
    requires var held := Get(db, record.intent.idempotencyKey).value;
             held.id == record.id && held.intent == record.intent
    ensures var r := Upsert(db, record.intent.idempotencyKey, record);
            && r.Ok? && Agrees(r.value)
            && Records(r.value) == Records(db)[record.intent.idempotencyKey := record]
            && r.value.orders.Keys == db.orders.Keys
  {
    var key := record.intent.idempotencyKey;
    assert KeyRowAgrees(db, key);
    OwnRowUpdated(db, record);
    hide KeyTaken, OrderFrom, ApplyRecord;
    var db' := Upsert(db, key, record).value;
    forall k | k in db'.keys
      ensures KeyRowAgrees(db', k)
    {
      if k != key {
        assert KeyRowAgrees(db, k);
      }
    }
  }

  /** Someone else's upsert under a taken key is refused. */
  lemma StrangerUpsertRaises(db: Db, record: Record)
    requires Agrees(db) && record.intent.idempotencyKey in db.keys && record.id !in db.orders
    ensures Upsert(db, record.intent.idempotencyKey, record).Raised?
  {
    assert KeyRowAgrees(db, record.intent.idempotencyKey);
    var id := db.keys[record.intent.idempotencyKey].payload.id;
    assert db.orders[id].idempotencyKey == record.intent.idempotencyKey;
  }

  // ---------- the stores as objects ----------

  class OrderIdempotencyStore {
    var orders: map<string, OrderRow>
    var keys: map<string, KeyRow>

    constructor ()
      ensures Contents() == Db(map[], map[])
    {
      orders, keys := map[], map[];
    }

    function Contents(): Db
      reads this
    {
      Db(orders, keys)
    }

    method Find(key: string) returns (record: Option<Record>)
      ensures record == Get(Contents(), key)
    {
      if key !in keys {
        return None;
      }
      return Some(keys[key].payload);
    }

    method Exists(key: string) returns (found: bool)
      ensures found <==> key in Records(Contents())
    {
      var record := Find(key);
      found := record.Some?;
    }

    method ReserveKey(key: string, record: Record) returns (r: Result<()>)
      modifies this
      ensures var expected := old(Reserve(Contents(), key, record));
              if expected.Ok? then r.Ok? && Contents() == expected.value
              else r == Raised(expected.error) && Contents() == old(Contents())
    {
      var before := orders;
      if record.id in orders || KeyTaken(orders, record.intent.idempotencyKey) {
        return Raised(DUPLICATE);
      }
      orders := orders[record.id := OrderFrom(record)];
      if key in keys {
        orders := before;  // the transaction rolls back
        return Raised(DUPLICATE);
      }
      keys := keys[key := KeyFrom(record)];
      return Ok(());
    }

    method UpsertRecord(key: string, record: Record) returns (r: Result<()>)
      modifies this
      ensures var expected := old(Upsert(Contents(), key, record));
              if expected.Ok? then r.Ok? && Contents() == expected.value
              else r == Raised(expected.error) && Contents() == old(Contents())
    {
      if record.id !in orders {
        if KeyTaken(orders, record.intent.idempotencyKey) {
          return Raised(DUPLICATE);
        }
        orders := orders[record.id := OrderFrom(record)];
      } else {
        orders := orders[record.id := ApplyRecord(orders[record.id], record)];
      }
      keys := keys[key := KeyFrom(record)];
      return Ok(());
    }
  }

  class InMemoryOrderIdempotencyStore {
    var records: map<string, Record>

    constructor ()
      ensures records == map[]
    {
      records := map[];
    }

    method Find(key: string) returns (record: Option<Record>)
      ensures record == if key in records then Some(records[key]) else None
    {
      record := if key in records then Some(records[key]) else None;
    }

    method ReserveKey(key: string, record: Record) returns (r: Result<()>)
      modifies this
      ensures if key in old(records) then r == Raised(DUPLICATE) && records == old(records)
              else r.Ok? && records == old(records)[key := record]
    {
      if key in records {
        return Raised(DUPLICATE);
      }
      records := records[key := record];
      return Ok(());
    }

    method UpsertRecord(key: string, record: Record)
      modifies this
      ensures records == old(records)[key := record]
    {
      records := records[key := record];
    }
  }
}
