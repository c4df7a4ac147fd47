/** What holds in every reachable state of the webhook pipeline, whatever fails and whenever processes
    restart, as long as events carry consistent identities. */
module PipelineSafety {
  import opened Common
  import opened Faults
  import opened Payments
  import opened WebhookQueue
  import opened Pipeline
  import T = Tables

  /** The events gateways ever send, and the order each payment id belongs to. */
  datatype World = World(events: set<Event>, owner: Uuid -> Uuid)

  /** Event identity: one (gateway, event id) names one event. Pairing: the order an event names is the
      order of the payment it names. */
  ghost predicate Consistent(world: World) {
    && (forall a, b :: a in world.events && b in world.events && a.gateway == b.gateway && a.eventId == b.eventId
          ==> a == b)
    && (forall e :: e in world.events ==> e.orderId == world.owner(e.paymentId))
  }

  ghost predicate Admits(world: World, a: Action) {
    match a
    case CreatePayment(paymentId, order, _, _, _) => order == world.owner(paymentId)
    case Enqueue(Webhook(e)) => e in world.events
    case _ => true
  }

  ghost predicate AdmitsRun(world: World, run: seq<Action>) {
    forall i :: 0 <= i < |run| ==> Admits(world, run[i])
  }

  // ----- the invariant -----

  ghost predicate SafeTables(world: World, db: T.Tables) {
    && T.Constraints(db)
    && T.Agreement(db)
    && (forall p :: p in db.payments ==> db.payments[p].orderId == world.owner(p) && !db.payments[p].status.Failed?)
    && (forall o :: o in db.orders ==> !db.orders[o].status.OrderFailed?)
    && (forall i :: 0 <= i < |db.transactions| ==>
          db.transactions[i] == T.RowOf(db.transactions[i].raw) && db.transactions[i].raw in world.events)
    && (forall i :: 0 <= i < |db.settlements| ==>
          && db.settlements[i].reference == T.SettlementReference(db.settlements[i].paymentId)
          && T.IsSuccess(db, db.settlements[i].paymentId))
  }

  ghost predicate SafeWorker(world: World, db: T.Tables, worker: Worker) {
    && (forall i :: 0 <= i < |worker.batch| && worker.batch[i].1.Webhook? ==> worker.batch[i].1.event in world.events)
    && (!worker.pc.Idle? ==> worker.batch != [] && worker.pc.event in world.events)
    && (worker.pc.Marking? ==> T.Logged(db, worker.pc.event))
    && (worker.pc.Publishing? ==> T.Confirmed(db, worker.pc.event))
  }

  ghost predicate SafeReconciler(db: T.Tables, rec: Reconciler) {
    && (forall i :: 0 <= i < |rec.todo| ==>
          rec.todo[i].0 in db.payments && db.payments[rec.todo[i].0].orderId == rec.todo[i].1)
    && (rec.marked ==> rec.todo != [] && T.IsSuccess(db, rec.todo[0].0))
  }

  ghost predicate SafeConfirmed(st: Store) {
    forall i :: 0 <= i < |st.confirmed| ==> T.Confirmed(st.db, st.confirmed[i])
  }

  ghost predicate Safe(world: World, s: State) {
    && SafeTables(world, s.store.db)
    && SafeConfirmed(s.store)
    && (forall i :: 0 <= i < |s.stream| && s.stream[i].Webhook? ==> s.stream[i].event in world.events)
    && (forall w :: 0 <= w < |s.workers| ==> SafeWorker(world, s.store.db, s.workers[w]))
    && (forall r :: 0 <= r < |s.reconcilers| ==> SafeReconciler(s.store.db, s.reconcilers[r]))
  }

  // ----- facts that survive growth -----

  lemma ConfirmedSurvives(a: T.Tables, b: T.Tables, e: Event)
    requires T.Grows(a, b)
    ensures T.Logged(a, e) ==> T.Logged(b, e)
    ensures T.Confirmed(a, e) ==> T.Confirmed(b, e)
  {
    if T.Logged(a, e) {
      var i :| 0 <= i < |a.transactions| && a.transactions[i] == T.RowOf(e);
      assert b.transactions[i] == T.RowOf(e);
    }
  }

  lemma WorkerSurvives(world: World, a: T.Tables, b: T.Tables, worker: Worker)
    requires T.Grows(a, b) && SafeWorker(world, a, worker)
    ensures SafeWorker(world, b, worker)
  {
    if !worker.pc.Idle? {
      ConfirmedSurvives(a, b, worker.pc.event);
    }
  }

  lemma OthersSurvive(world: World, s: State, a: T.Tables, confirmed: seq<Event>)
    requires Safe(world, s) && T.Grows(s.store.db, a) && confirmed == s.store.confirmed
    ensures forall w :: 0 <= w < |s.workers| ==> SafeWorker(world, a, s.workers[w])
    ensures forall r :: 0 <= r < |s.reconcilers| ==> SafeReconciler(a, s.reconcilers[r])
    ensures forall i :: 0 <= i < |confirmed| ==> T.Confirmed(a, confirmed[i])
  {
    forall w | 0 <= w < |s.workers|
      ensures SafeWorker(world, a, s.workers[w])
    {
      WorkerSurvives(world, s.store.db, a, s.workers[w]);
    }
    forall i | 0 <= i < |confirmed|
      ensures T.Confirmed(a, confirmed[i])
    {
      ConfirmedSurvives(s.store.db, a, confirmed[i]);
    }
  }

  // ----- each statement keeps the tables safe -----

  /** A new order is pending and owns no payment. */
  lemma OrderIsSafe(world: World, db: T.Tables, id: Uuid, userId: string, amount: int, currency: string)
    requires SafeTables(world, db) && id !in db.orders
    ensures SafeTables(world, T.CreateOrder(db, id, userId, amount, currency))
  {
    var after := T.CreateOrder(db, id, userId, amount, currency);
    forall o | o in after.orders
      ensures T.IsPaid(after, o) <==> T.HasSuccess(after, o)
    {
      if p :| T.IsSuccess(after, p) && after.payments[p].orderId == o {
        assert T.IsSuccess(db, p) && o in db.orders;
      }
      if p :| o in db.orders && T.IsSuccess(db, p) && db.payments[p].orderId == o {
        assert T.IsSuccess(after, p);
      }
    }
  }

  /** A new payment is pending. */
  lemma PaymentIsSafe(world: World, db: T.Tables, id: Uuid, order: Uuid, gateway: string,
                      paymentMethod: PaymentMethod, checkoutUrl: string, now: nat)
    requires SafeTables(world, db) && id !in db.payments && order == world.owner(id)
    requires T.CreatePayment(db, id, order, gateway, paymentMethod, checkoutUrl, now).Ok?
    ensures SafeTables(world, T.CreatePayment(db, id, order, gateway, paymentMethod, checkoutUrl, now).value)
  {
    var after := T.CreatePayment(db, id, order, gateway, paymentMethod, checkoutUrl, now).value;
    forall o | o in after.orders
      ensures T.IsPaid(after, o) <==> T.HasSuccess(after, o)
    {
      if p :| T.IsSuccess(after, p) && after.payments[p].orderId == o {
        assert T.IsSuccess(db, p);
      }
      if p :| T.IsSuccess(db, p) && db.payments[p].orderId == o {
        assert T.IsSuccess(after, p);
      }
    }
  }

  lemma CreationIsSafe(world: World, s: State, a: Action)
    requires Safe(world, s) && Enabled(s, a) && Admits(world, a)
    requires a.CreateOrder? || a.CreatePayment?
    ensures SafeTables(world, Apply(s, a).store.db)
  {
    match a
    case CreateOrder(id, userId, amount, currency) =>
      OrderIsSafe(world, s.store.db, id, userId, amount, currency);
    case CreatePayment(id, order, gateway, paymentMethod, checkoutUrl) =>
      if order in s.store.db.orders {
        PaymentIsSafe(world, s.store.db, id, order, gateway, paymentMethod, checkoutUrl, s.store.now);
      }
    case _ =>
  }

  lemma MarkIsSafe(world: World, db: T.Tables, paymentId: Uuid, orderId: Uuid)
    requires SafeTables(world, db)
    requires paymentId in db.payments && db.payments[paymentId].orderId == orderId
    ensures SafeTables(world, T.MarkPaymentSuccess(db, paymentId, orderId))
    ensures T.IsSuccess(T.MarkPaymentSuccess(db, paymentId, orderId), paymentId)
    ensures T.IsPaid(T.MarkPaymentSuccess(db, paymentId, orderId), orderId)
  {
    T.MarkKeepsAgreement(db, paymentId, orderId);
  }

  lemma LogIsSafe(world: World, db: T.Tables, e: Event)
    requires Consistent(world) && SafeTables(world, db) && e in world.events
    requires T.LogTransaction(db, e).Ok?
    ensures SafeTables(world, T.LogTransaction(db, e).value)
    ensures T.Logged(T.LogTransaction(db, e).value, e)
  {
    var after := T.LogTransaction(db, e).value;
    if T.HasEvent(db.transactions, e.gateway, e.eventId) {
      var i :| 0 <= i < |db.transactions| && db.transactions[i].gateway == e.gateway && db.transactions[i].eventId == e.eventId;
      assert db.transactions[i].raw == e;
      assert db.transactions[i] == T.RowOf(e);
    } else {
      assert after.transactions[|db.transactions|] == T.RowOf(e);
      SameStatuses(db, after);
    }
  }

  lemma SameStatuses(a: T.Tables, b: T.Tables)
    requires a.orders == b.orders && a.payments == b.payments
    ensures T.Agreement(a) <==> T.Agreement(b)
  {
    forall o | o in a.orders
      ensures T.HasSuccess(a, o) <==> T.HasSuccess(b, o)
      ensures T.IsPaid(a, o) <==> T.IsPaid(b, o)
    {
      if p :| T.IsSuccess(a, p) && a.payments[p].orderId == o {
        assert T.IsSuccess(b, p);
      }
      if p :| T.IsSuccess(b, p) && b.payments[p].orderId == o {
        assert T.IsSuccess(a, p);
      }
    }
  }

  lemma SettleIsSafe(world: World, db: T.Tables, paymentId: Uuid, gateway: string, amount: int)
    requires SafeTables(world, db) && T.IsSuccess(db, paymentId)
    requires T.InsertSettlement(db, paymentId, gateway, amount).Ok?
    ensures SafeTables(world, T.InsertSettlement(db, paymentId, gateway, amount).value)
  {
    SameStatuses(db, T.InsertSettlement(db, paymentId, gateway, amount).value);
  }

  // ----- each step keeps the invariant -----

  lemma MarkingIsSafe(world: World, db: T.Tables, e: Event)
    requires Consistent(world) && SafeTables(world, db) && e in world.events && T.Logged(db, e)
    ensures SafeTables(world, T.MarkPaymentSuccess(db, e.paymentId, e.orderId))
    ensures T.Confirmed(T.MarkPaymentSuccess(db, e.paymentId, e.orderId), e)
  {
    var i :| 0 <= i < |db.transactions| && db.transactions[i] == T.RowOf(e);
    MarkIsSafe(world, db, e.paymentId, e.orderId);
  }

  /** After the call the tables are safe, and the handler knows what its next step relies on. */
  lemma CallIsSafe(world: World, st: Store, pc: Pc, outcome: Outcome)
    requires Consistent(world) && SafeTables(world, st.db)
    requires !pc.Idle? && pc.event in world.events
    requires pc.Marking? ==> T.Logged(st.db, pc.event)
    requires pc.Publishing? ==> T.Confirmed(st.db, pc.event)
    ensures var (after, next) := Perform(st, pc, outcome);
            && SafeTables(world, after.db)
            && (!next.Idle? ==> next.event == pc.event)
            && (next.Marking? ==> T.Logged(after.db, next.event))
            && (next.Publishing? ==> T.Confirmed(after.db, next.event))
            && (after.confirmed == st.confirmed
                || (after.confirmed == st.confirmed + [pc.event] && T.Confirmed(after.db, pc.event)))
  {
    var e := pc.event;
    if pc.Logging? && T.LogTransaction(st.db, e).Ok? {
      LogIsSafe(world, st.db, e);
    } else if pc.Marking? {
      MarkingIsSafe(world, st.db, e);
    }
  }

  lemma PerformIsSafe(world: World, s: State, w: nat, outcome: Outcome)
    requires Consistent(world) && Safe(world, s) && Enabled(s, Work(w, outcome))
    ensures Safe(world, Apply(s, Work(w, outcome)))
  {
    var worker := s.workers[w];
    var (after, pc) := Perform(s.store, worker.pc, outcome);
    CallIsSafe(world, s.store, worker.pc, outcome);
    PerformGrows(s.store, worker.pc, outcome);
    OthersSurvive(world, s, after.db, s.store.confirmed);
    assert SafeWorker(world, after.db, worker.(pc := Idle));
    assert SafeWorker(world, after.db, Proceed(worker, pc));
  }

  lemma RoundIsSafe(world: World, st: Store, rec: Reconciler, outcome: Outcome)
    requires SafeTables(world, st.db) && SafeReconciler(st.db, rec) && rec.todo != []
    ensures var (after, next) := PerformRound(st, rec, outcome);
            SafeTables(world, after.db) && SafeReconciler(after.db, next) && after.confirmed == st.confirmed
  {
    var (paymentId, orderId, gateway) := rec.todo[0];
    if !outcome.Lost? {
      if !rec.marked {
        MarkIsSafe(world, st.db, paymentId, orderId);
      } else if T.InsertSettlement(st.db, paymentId, gateway, SETTLEMENT_AMOUNT).Ok? {
        SettleIsSafe(world, st.db, paymentId, gateway, SETTLEMENT_AMOUNT);
      }
    }
  }

  lemma ReadIsSafe(world: World, s: State, w: nat)
    requires Safe(world, s) && Enabled(s, Read(w))
    ensures SafeWorker(world, s.store.db, Apply(s, Read(w)).workers[w])
  {
    var cursor := s.workers[w].cursor;
    var hi := WindowEnd(s.stream, cursor, BATCH);
    var batch := Deliverable(s.stream, cursor, hi);
    forall i | 0 <= i < |batch| && batch[i].1.Webhook?
      ensures batch[i].1.event in world.events
    {
      assert InWindow(s.stream, batch[i], cursor, hi);
    }
  }

  lemma StepIsSafe(world: World, s: State, a: Action)
    requires Consistent(world) && Safe(world, s) && Enabled(s, a) && Admits(world, a)
    ensures Safe(world, Apply(s, a))
  {
    StepGrows(s, a);
    var db := Apply(s, a).store.db;
    if !a.Work? {
      OthersSurvive(world, s, db, s.store.confirmed);
    }
    match a
    case CreateOrder(_, _, _, _) => CreationIsSafe(world, s, a);
    case CreatePayment(_, _, _, _, _) => CreationIsSafe(world, s, a);
    case Enqueue(_) =>
    case Tick(_) =>
    case Read(w) => ReadIsSafe(world, s, w);
    case Take(_) =>
    case Work(w, outcome) =>
      PerformIsSafe(world, s, w, outcome);
    case Crash(_) =>
    case Select(_, _) =>
    case Reconcile(r, outcome) =>
      RoundIsSafe(world, s.store, s.reconcilers[r], outcome);
    case Abandon(_) =>
  }

  lemma {:induction false} RunIsSafe(world: World, s: State, run: seq<Action>)
    requires Consistent(world) && Safe(world, s) && IsRun(s, run) && AdmitsRun(world, run)
    ensures Safe(world, After(s, run))
    decreases |run|
  {
    if run != [] {
      StepIsSafe(world, s, run[0]);
      RunIsSafe(world, Apply(s, run[0]), run[1..]);
    }
  }

  // ----- the main results -----

  /** In every reachable state, every message published as confirmed has its transaction row, its payment
      is SUCCESS and its order is PAID. A run may be prolonged at will, so this stays true for ever. */
  lemma ConfirmationSafety(world: World, now: nat, workers: nat, reconcilers: nat, run: seq<Action>)
    requires Consistent(world) && IsRun(Initial(now, workers, reconcilers), run) && AdmitsRun(world, run)
    ensures var st := After(Initial(now, workers, reconcilers), run).store;
            forall e :: e in st.confirmed ==>
              && T.RowOf(e) in st.db.transactions
              && T.IsSuccess(st.db, e.paymentId)
              && T.IsPaid(st.db, e.orderId)
  {
    RunIsSafe(world, Initial(now, workers, reconcilers), run);
    var st := After(Initial(now, workers, reconcilers), run).store;
    forall e | e in st.confirmed
      ensures T.Confirmed(st.db, e)
    {
      var i :| 0 <= i < |st.confirmed| && st.confirmed[i] == e;
    }
  }

  /** In every reachable state an order is PAID exactly when one of its payments is SUCCESS. */
  lemma PaidExactlyWhenSuccess(world: World, now: nat, workers: nat, reconcilers: nat, run: seq<Action>)
    requires Consistent(world) && IsRun(Initial(now, workers, reconcilers), run) && AdmitsRun(world, run)
    ensures var db := After(Initial(now, workers, reconcilers), run).store.db;
            forall o :: o in db.orders ==>
              (db.orders[o].status == Paid <==>
               exists p :: p in db.payments && db.payments[p].orderId == o && db.payments[p].status == Success)
  {
    RunIsSafe(world, Initial(now, workers, reconcilers), run);
    var db := After(Initial(now, workers, reconcilers), run).store.db;
    forall o | o in db.orders
      ensures db.orders[o].status == Paid <==>
              exists p :: p in db.payments && db.payments[p].orderId == o && db.payments[p].status == Success
    {
      assert T.IsPaid(db, o) <==> T.HasSuccess(db, o);
      if p :| p in db.payments && db.payments[p].orderId == o && db.payments[p].status == Success {
        assert T.IsSuccess(db, p);
      }
    }
  }

  /** Every payment has at most one settlement, whose reference names that payment alone, and a settled
      payment is SUCCESS. */
  lemma SettlementsAreUnique(world: World, now: nat, workers: nat, reconcilers: nat, run: seq<Action>)
    requires Consistent(world) && IsRun(Initial(now, workers, reconcilers), run) && AdmitsRun(world, run)
    ensures var db := After(Initial(now, workers, reconcilers), run).store.db;
            && (forall i, j :: 0 <= i < j < |db.settlements| ==>
                  db.settlements[i].paymentId != db.settlements[j].paymentId)
            && (forall i :: 0 <= i < |db.settlements| ==>
                  && T.IsSuccess(db, db.settlements[i].paymentId)
                  && (forall p :: T.SettlementReference(p) == db.settlements[i].reference <==>
                        p == db.settlements[i].paymentId))
  {
    RunIsSafe(world, Initial(now, workers, reconcilers), run);
    var db := After(Initial(now, workers, reconcilers), run).store.db;
    forall i | 0 <= i < |db.settlements|
      ensures forall p :: T.SettlementReference(p) == db.settlements[i].reference <==>
                p == db.settlements[i].paymentId
    {
      forall p | T.SettlementReference(p) == db.settlements[i].reference
        ensures p == db.settlements[i].paymentId
      {
        assert p == T.SettlementReference(p)[|"settle-"|..];
        assert db.settlements[i].paymentId == T.SettlementReference(db.settlements[i].paymentId)[|"settle-"|..];
      }
    }
  }
}
