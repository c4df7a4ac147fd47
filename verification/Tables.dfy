/** The four tables and the statements the repository sends to them, as functions on values.
    A statement that violates a constraint leaves the tables as they were. */
module Tables {
  import opened Common
  import opened Payments

  const PAGE_SIZE := 100

  datatype Order = Order(userId: string, amount: int, currency: string, status: OrderStatus)

  datatype Payment = Payment(
    orderId: Uuid,
    gateway: string,
    paymentMethod: PaymentMethod,
    checkoutUrl: string,
    status: PaymentStatus,
    createdAt: nat)

  datatype Transaction = Transaction(
    paymentId: Uuid,
    gateway: string,
    gatewayTxnId: string,
    eventId: string,
    status: PaymentStatus,
    raw: Event)

  datatype Settlement = Settlement(paymentId: Uuid, gateway: string, reference: string, amount: int)

  datatype Tables = Tables(
    orders: map<Uuid, Order>,
    payments: map<Uuid, Payment>,
    transactions: seq<Transaction>,
    settlements: seq<Settlement>)

  datatype DbError = UniqueViolation | ForeignKeyViolation

  const EMPTY := Tables(map[], map[], [], [])

  // ----- statements -----

  /** The order id is a fresh UUID. */
  function CreateOrder(db: Tables, id: Uuid, userId: string, amount: int, currency: string): Tables
    requires id !in db.orders
  {
    db.(orders := db.orders[id := Order(userId, amount, currency, OrderPending)])
  }

  /** The payment id is a fresh UUID; the row refers to an existing order. */
  function CreatePayment(db: Tables, id: Uuid, orderId: Uuid, gateway: string,
                         paymentMethod: PaymentMethod, checkoutUrl: string, now: nat)
    : Result<Tables, DbError>
    requires id !in db.payments
  {
    if orderId !in db.orders then Err(ForeignKeyViolation)
    else
      Ok(db.(payments := db.payments[id := Payment(orderId, gateway, paymentMethod, checkoutUrl, Pending, now)]))
  }

  /** Two independent updates in one transaction; an update that finds no row changes nothing. */
  function MarkPaymentSuccess(db: Tables, paymentId: Uuid, orderId: Uuid): Tables {
    var payments :=
      if paymentId in db.payments
      then db.payments[paymentId := db.payments[paymentId].(status := Success)]
      else db.payments;
    var orders :=
      if orderId in db.orders
      then db.orders[orderId := db.orders[orderId].(status := Paid)]
      else db.orders;
    db.(payments := payments, orders := orders)
  }

  predicate HasEvent(rows: seq<Transaction>, gateway: string, eventId: string) {
    exists i :: 0 <= i < |rows| && rows[i].gateway == gateway && rows[i].eventId == eventId
  }

  predicate HasGatewayTxn(rows: seq<Transaction>, gateway: string, gatewayTxnId: string) {
    exists i :: 0 <= i < |rows| && rows[i].gateway == gateway && rows[i].gatewayTxnId == gatewayTxnId
  }

  function RowOf(e: Event): Transaction {
    Transaction(e.paymentId, e.gateway, e.gatewayTxnId, e.eventId, e.status, e)
  }

  /** A conflict on (gateway, event id) is skipped before any other constraint is looked at. */
  function LogTransaction(db: Tables, e: Event): Result<Tables, DbError> {
    if HasEvent(db.transactions, e.gateway, e.eventId) then Ok(db)
    else if HasGatewayTxn(db.transactions, e.gateway, e.gatewayTxnId) then Err(UniqueViolation)
    else if e.paymentId !in db.payments then Err(ForeignKeyViolation)
    else Ok(db.(transactions := db.transactions + [RowOf(e)]))
  }

  function SettlementReference(paymentId: Uuid): string {
    "settle-" + paymentId
  }

  predicate HasReference(rows: seq<Settlement>, reference: string) {
    exists i :: 0 <= i < |rows| && rows[i].reference == reference
  }

  function InsertSettlement(db: Tables, paymentId: Uuid, gateway: string, amount: int): Result<Tables, DbError> {
    var reference := SettlementReference(paymentId);
    if HasReference(db.settlements, reference) then Ok(db)
    else if paymentId !in db.payments then Err(ForeignKeyViolation)
    else Ok(db.(settlements := db.settlements + [Settlement(paymentId, gateway, reference, amount)]))
  }

  // ----- queries -----

  predicate IsPending(db: Tables, p: Uuid) {
    p in db.payments && db.payments[p].status == Pending
  }

  /** What SELECT ... WHERE status = 'PENDING' ORDER BY created_at ASC LIMIT 100 may return:
      rows with equal creation times come in any order. */
  ghost predicate IsPendingPage(db: Tables, page: seq<(Uuid, Uuid, string)>) {
    && |page| <= PAGE_SIZE
    && (forall i :: 0 <= i < |page| ==>
          && IsPending(db, page[i].0)
          && page[i].1 == db.payments[page[i].0].orderId
          && page[i].2 == db.payments[page[i].0].gateway)
    && (forall i, j :: 0 <= i < j < |page| ==>
          && page[i].0 != page[j].0
          && db.payments[page[i].0].createdAt <= db.payments[page[j].0].createdAt)
    && (forall q :: IsPending(db, q) && (forall i :: 0 <= i < |page| ==> page[i].0 != q) ==>
          && |page| == PAGE_SIZE
          && (forall i :: 0 <= i < |page| ==> db.payments[page[i].0].createdAt <= db.payments[q].createdAt))
  }

  // ----- constraints and agreement -----

  /** The declared constraints of the four tables. */
  ghost predicate Constraints(db: Tables) {
    && (forall p :: p in db.payments ==> db.payments[p].orderId in db.orders)
    && (forall i :: 0 <= i < |db.transactions| ==> db.transactions[i].paymentId in db.payments)
    && (forall i, j :: 0 <= i < j < |db.transactions| && db.transactions[i].gateway == db.transactions[j].gateway ==>
          && db.transactions[i].eventId != db.transactions[j].eventId
          && db.transactions[i].gatewayTxnId != db.transactions[j].gatewayTxnId)
    && (forall i :: 0 <= i < |db.settlements| ==> db.settlements[i].paymentId in db.payments)
    && (forall i, j :: 0 <= i < j < |db.settlements| ==>
          db.settlements[i].reference != db.settlements[j].reference)
  }

  predicate IsSuccess(db: Tables, p: Uuid) {
    p in db.payments && db.payments[p].status == Success
  }

  predicate IsPaid(db: Tables, o: Uuid) {
    o in db.orders && db.orders[o].status == Paid
  }

  ghost predicate HasSuccess(db: Tables, o: Uuid) {
    exists p :: IsSuccess(db, p) && db.payments[p].orderId == o
  }

  /** An order is PAID exactly when one of its payments is SUCCESS. */
  ghost predicate Agreement(db: Tables) {
    forall o :: o in db.orders ==> (IsPaid(db, o) <==> HasSuccess(db, o))
  }

  /** Exactly when marking keeps the agreement: a payment that exists must belong to the order given or
      to one already paid, and an order that exists must own the payment or be paid already. */
  predicate MarkAgrees(db: Tables, paymentId: Uuid, orderId: Uuid) {
    && (paymentId in db.payments ==>
          var own := db.payments[paymentId].orderId;
          own == orderId || IsPaid(db, own))
    && (orderId in db.orders ==>
          || IsPaid(db, orderId)
          || (paymentId in db.payments && db.payments[paymentId].orderId == orderId))
  }

  lemma MarkKeepsAgreement(db: Tables, paymentId: Uuid, orderId: Uuid)
    requires Constraints(db) && Agreement(db)
    ensures Agreement(MarkPaymentSuccess(db, paymentId, orderId)) <==> MarkAgrees(db, paymentId, orderId)
  {
    var after := MarkPaymentSuccess(db, paymentId, orderId);
    forall o | o in db.orders
      ensures HasSuccess(after, o) <==>
              HasSuccess(db, o) || (paymentId in db.payments && db.payments[paymentId].orderId == o)
    {
      if HasSuccess(db, o) {
        var p :| IsSuccess(db, p) && db.payments[p].orderId == o;
        assert IsSuccess(after, p);
      }
      if paymentId in db.payments && db.payments[paymentId].orderId == o {
        assert IsSuccess(after, paymentId);
      }
    }
    if Agreement(after) {
      if paymentId in db.payments {
        var own := db.payments[paymentId].orderId;
        assert IsPaid(after, own);
      }
      if orderId in db.orders {
        assert IsPaid(after, orderId);
      }
    }
  }

  /** Every statement of the repository keeps the declared constraints. */
  lemma StatementsKeepConstraints(db: Tables, e: Event, paymentId: Uuid, orderId: Uuid, gateway: string, amount: int)
    requires Constraints(db)
    ensures Constraints(MarkPaymentSuccess(db, paymentId, orderId))
    ensures LogTransaction(db, e).Ok? ==> Constraints(LogTransaction(db, e).value)
    ensures InsertSettlement(db, paymentId, gateway, amount).Ok? ==>
              Constraints(InsertSettlement(db, paymentId, gateway, amount).value)
    ensures forall userId, currency :: orderId !in db.orders ==>
              Constraints(CreateOrder(db, orderId, userId, amount, currency))
    ensures forall how, url, now :: paymentId !in db.payments ==>
              var created := CreatePayment(db, paymentId, orderId, gateway, how, url, now);
              created.Ok? ==> Constraints(created.value)
  {
  }

  // ----- how the tables may change -----

  ghost predicate PaymentAdvances(a: Payment, b: Payment) {
    && b.orderId == a.orderId && b.gateway == a.gateway && b.createdAt == a.createdAt
    && (b.status == a.status || b.status == Success)
  }

  ghost predicate OrderAdvances(a: Order, b: Order) {
    b.status == a.status || b.status == Paid
  }

  /** No row is lost, statuses only move to SUCCESS and PAID, and the logs only grow. */
  ghost predicate Grows(a: Tables, b: Tables) {
    && (forall p :: p in a.payments ==> p in b.payments && PaymentAdvances(a.payments[p], b.payments[p]))
    && (forall o :: o in a.orders ==> o in b.orders && OrderAdvances(a.orders[o], b.orders[o]))
    && a.transactions <= b.transactions
    && a.settlements <= b.settlements
  }

  lemma GrowsTransitively(a: Tables, b: Tables, c: Tables)
    requires Grows(a, b) && Grows(b, c)
    ensures Grows(a, c)
  {
  }

  ghost predicate Logged(db: Tables, e: Event) {
    RowOf(e) in db.transactions
  }

  /** What a published confirmation promises. */
  ghost predicate Confirmed(db: Tables, e: Event) {
    Logged(db, e) && IsSuccess(db, e.paymentId) && IsPaid(db, e.orderId)
  }
}
