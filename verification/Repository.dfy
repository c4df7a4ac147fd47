/** The repository object: four tables, each method one statement or one transaction on them. */
module Repository {
  import opened Common
  import opened Payments
  import T = Tables

  class Repo {
    var orders: map<Uuid, T.Order>
    var payments: map<Uuid, T.Payment>
    var transactions: seq<T.Transaction>
    var settlements: seq<T.Settlement>

    function Contents(): T.Tables
      reads this
    {
      T.Tables(orders, payments, transactions, settlements)
    }

    constructor ()
      ensures Contents() == T.EMPTY
    {
      orders, payments, transactions, settlements := map[], map[], [], [];
    }

    method CreateOrder(id: Uuid, userId: string, amount: int, currency: string)
      requires id !in orders
      modifies this
      ensures Contents() == T.CreateOrder(old(Contents()), id, userId, amount, currency)
      ensures orders == old(orders)[id := T.Order(userId, amount, currency, OrderPending)]
      ensures payments == old(payments) && transactions == old(transactions) && settlements == old(settlements)
    {
      orders := orders[id := T.Order(userId, amount, currency, OrderPending)];
    }

    method CreatePayment(id: Uuid, orderId: Uuid, gateway: string, paymentMethod: PaymentMethod, checkoutUrl: string,
                         now: nat)
      returns (r: Result<Uuid, T.DbError>)
      requires id !in payments
      modifies this
      ensures match T.CreatePayment(old(Contents()), id, orderId, gateway, paymentMethod, checkoutUrl, now)
              case Ok(after) => r == Ok(id) && Contents() == after
              case Err(error) => r == Err(error) && Contents() == old(Contents())
      ensures orders == old(orders) && transactions == old(transactions) && settlements == old(settlements)
      ensures r.Ok? <==> orderId in old(orders)
      ensures payments == if orderId in old(orders)
                          then old(payments)[id := T.Payment(orderId, gateway, paymentMethod, checkoutUrl, Pending, now)]
                          else old(payments)
    {
      if orderId !in orders {
        return Err(T.ForeignKeyViolation);
      }
      payments := payments[id := T.Payment(orderId, gateway, paymentMethod, checkoutUrl, Pending, now)];
      return Ok(id);
    }

    method MarkPaymentSuccess(paymentId: Uuid, orderId: Uuid)
      modifies this
      ensures Contents() == T.MarkPaymentSuccess(old(Contents()), paymentId, orderId)
      ensures transactions == old(transactions) && settlements == old(settlements)
      ensures payments.Keys == old(payments).Keys && orders.Keys == old(orders).Keys
      ensures forall p :: p in payments ==>
                payments[p] == if p == paymentId then old(payments)[p].(status := Success) else old(payments)[p]
      ensures forall o :: o in orders ==> orders[o] == if o == orderId then old(orders)[o].(status := Paid) else old(orders)[o]
    {
      if paymentId in payments {
        payments := payments[paymentId := payments[paymentId].(status := Success)];
      }
      if orderId in orders {
        orders := orders[orderId := orders[orderId].(status := Paid)];
      }
    }

    method LogTransaction(e: Event) returns (r: Result<(), T.DbError>)
      modifies this
      ensures match T.LogTransaction(old(Contents()), e)
              case Ok(after) => r == Ok(()) && Contents() == after
              case Err(error) => r == Err(error) && Contents() == old(Contents())
      ensures orders == old(orders) && payments == old(payments) && settlements == old(settlements)
      ensures var rows := old(transactions);
              var seen := exists i :: 0 <= i < |rows| && rows[i].gateway == e.gateway && rows[i].eventId == e.eventId;
              var clash := exists i :: 0 <= i < |rows| && rows[i].gateway == e.gateway && rows[i].gatewayTxnId == e.gatewayTxnId;
              && r == (if seen then Ok(()) else if clash then Err(T.UniqueViolation)
                       else if e.paymentId !in payments then Err(T.ForeignKeyViolation) else Ok(()))
              && transactions == (if seen || r.Err? then old(transactions)
                                  else old(transactions)
                                       + [T.Transaction(e.paymentId, e.gateway, e.gatewayTxnId, e.eventId, e.status, e)])
    {
      if T.HasEvent(transactions, e.gateway, e.eventId) {
        return Ok(());
      }
      if T.HasGatewayTxn(transactions, e.gateway, e.gatewayTxnId) {
        return Err(T.UniqueViolation);
      }
      if e.paymentId !in payments {
        return Err(T.ForeignKeyViolation);
      }
      transactions := transactions + [T.RowOf(e)];
      return Ok(());
    }

    method InsertSettlement(paymentId: Uuid, gateway: string, amount: int) returns (r: Result<(), T.DbError>)
      modifies this
      ensures match T.InsertSettlement(old(Contents()), paymentId, gateway, amount)
              case Ok(after) => r == Ok(()) && Contents() == after
              case Err(error) => r == Err(error) && Contents() == old(Contents())
      ensures orders == old(orders) && payments == old(payments) && transactions == old(transactions)
      ensures var used := exists i :: 0 <= i < |old(settlements)| && old(settlements)[i].reference == "settle-" + paymentId;
              && r == (if used || paymentId in payments then Ok(()) else Err(T.ForeignKeyViolation))
              && settlements == (if used || r.Err? then old(settlements)
                                 else old(settlements) + [T.Settlement(paymentId, gateway, "settle-" + paymentId, amount)])
    {
      var reference := T.SettlementReference(paymentId);
      if T.HasReference(settlements, reference) {
        return Ok(());
      }
      if paymentId !in payments {
        return Err(T.ForeignKeyViolation);
      }
      settlements := settlements + [T.Settlement(paymentId, gateway, reference, amount)];
      return Ok(());
    }

    /** The rows the query may return: it takes an oldest pending payment at a time, up to the limit. */
    method PendingPayments() returns (page: seq<(Uuid, Uuid, string)>)
      ensures T.IsPendingPage(Contents(), page)
      ensures |page| <= 100
      ensures forall i :: 0 <= i < |page| ==>
                && page[i].0 in payments && payments[page[i].0].status == Pending
                && page[i].1 == payments[page[i].0].orderId && page[i].2 == payments[page[i].0].gateway
      ensures forall i, j :: 0 <= i < j < |page| ==>
                page[i].0 != page[j].0 && payments[page[i].0].createdAt <= payments[page[j].0].createdAt
      ensures forall q :: q in payments && payments[q].status == Pending && (forall i :: 0 <= i < |page| ==> page[i].0 != q) ==>
                && |page| == 100
                && (forall i :: 0 <= i < |page| ==> payments[page[i].0].createdAt <= payments[q].createdAt)
    {
      page := [];
      var left := set p | p in payments && payments[p].status == Pending;
      while left != {} && |page| < T.PAGE_SIZE
        invariant Gathered(Contents(), page, left)
        decreases left
      {
        OldestExists(payments, left);
        var p :| p in left && forall q :: q in left ==> payments[p].createdAt <= payments[q].createdAt;
        GatherOne(Contents(), page, left, p);
        page := page + [(p, payments[p].orderId, payments[p].gateway)];
        left := left - {p};
      }
      GatheredIsPage(Contents(), page, left);
    }
  }

  ghost predicate Names(page: seq<(Uuid, Uuid, string)>, p: Uuid) {
    exists i :: 0 <= i < |page| && page[i].0 == p
  }

  /** A page taken so far, oldest first, and the pending payments not yet on it. */
  ghost predicate Gathered(db: T.Tables, page: seq<(Uuid, Uuid, string)>, left: set<Uuid>) {
    && |page| <= T.PAGE_SIZE
    && (forall q :: T.IsPending(db, q) <==> q in left || (Names(page, q) && T.IsPending(db, q)))
    && (forall i :: 0 <= i < |page| ==>
          && T.IsPending(db, page[i].0) && page[i].0 !in left
          && page[i].1 == db.payments[page[i].0].orderId && page[i].2 == db.payments[page[i].0].gateway)
    && (forall i, j :: 0 <= i < j < |page| ==>
          page[i].0 != page[j].0 && db.payments[page[i].0].createdAt <= db.payments[page[j].0].createdAt)
    && (forall i, q :: 0 <= i < |page| && q in left ==> db.payments[page[i].0].createdAt <= db.payments[q].createdAt)
  }

  lemma GatherOne(db: T.Tables, page: seq<(Uuid, Uuid, string)>, left: set<Uuid>, p: Uuid)
    requires Gathered(db, page, left) && |page| < T.PAGE_SIZE
    requires p in left && forall q :: q in left ==> db.payments[p].createdAt <= db.payments[q].createdAt
    ensures Gathered(db, page + [(p, db.payments[p].orderId, db.payments[p].gateway)], left - {p})
  {
    var after := page + [(p, db.payments[p].orderId, db.payments[p].gateway)];
    forall q
      ensures Names(after, q) <==> Names(page, q) || q == p
    {
      if i :| 0 <= i < |page| && page[i].0 == q {
        assert after[i].0 == q;
      }
      assert after[|page|].0 == p;
    }
  }

  lemma GatheredIsPage(db: T.Tables, page: seq<(Uuid, Uuid, string)>, left: set<Uuid>)
    requires Gathered(db, page, left) && (left == {} || |page| == T.PAGE_SIZE)
    ensures T.IsPendingPage(db, page)
  {
    forall q | T.IsPending(db, q) && (forall i :: 0 <= i < |page| ==> page[i].0 != q)
      ensures q in left
    {
      assert !Names(page, q);
    }
  }

  lemma {:induction false} OldestExists(payments: map<Uuid, T.Payment>, among: set<Uuid>)
    requires among != {} && among <= payments.Keys
    ensures exists p :: p in among && forall q :: q in among ==> payments[p].createdAt <= payments[q].createdAt
    decreases among
  {
    var x :| x in among;
    var rest := among - {x};
    assert forall q :: q in among ==> q == x || q in rest;
    if rest == {} {
      assert forall q :: q in among ==> payments[x].createdAt <= payments[q].createdAt;
    } else {
      OldestExists(payments, rest);
      var p :| p in rest && forall q :: q in rest ==> payments[p].createdAt <= payments[q].createdAt;
      var oldest := if payments[x].createdAt <= payments[p].createdAt then x else p;
      assert oldest in among && forall q :: q in among ==> payments[oldest].createdAt <= payments[q].createdAt;
    }
  }
}
