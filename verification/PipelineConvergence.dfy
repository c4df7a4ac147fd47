/** Without failures the outcome depends on the set of events delivered only: not on their order, on
    duplicates, on batches, on replays after a restart, on key expiry, or on the number of workers. */
module PipelineConvergence {
  import opened Common
  import opened Faults
  import opened Payments
  import opened Idempotency
  import opened Text
  import opened WebhookQueue
  import opened Pipeline
  import opened PipelineSafety
  import opened PipelineCursor
  import T = Tables

  /** Beside consistent identities: gateway names are colon-free, and no two events share a gateway
      transaction id. */
  ghost predicate Orderly(world: World) {
    && Consistent(world)
    && (forall e :: e in world.events ==> ColonFree(e.gateway))
    && (forall a, b ::
          a in world.events && b in world.events && a.gateway == b.gateway && a.gatewayTxnId == b.gatewayTxnId
          ==> a == b)
  }

  /** No call fails, workers restart between events, reconcilers rest, and a gateway reports on a payment
      that exists. */
  ghost predicate Calm(world: World, s: State, a: Action) {
    && Admits(world, a)
    && match a
       case Enqueue(Webhook(e)) => e.paymentId in s.store.db.payments
       case Work(_, outcome) => outcome.Done?
       case Crash(w) => w < |s.workers| && s.workers[w].pc.Idle?
       case Select(_, _) => false
       case _ => true
  }

  ghost predicate CalmRun(world: World, s: State, run: seq<Action>)
    requires IsRun(s, run)
    decreases |run|
  {
    run == [] || (Calm(world, s, run[0]) && CalmRun(world, Apply(s, run[0]), run[1..]))
  }

  // ----- the invariant -----

  ghost predicate Delivered(s: State, e: Event) {
    Webhook(e) in s.stream
  }

  ghost function DeliveredEvents(s: State): iset<Event> {
    iset e | Delivered(s, e)
  }

  /** All that handling `e` is to do to the tables has been done. */
  ghost predicate Processed(db: T.Tables, e: Event) {
    T.Logged(db, e) && (e.status.Success? ==> T.IsSuccess(db, e.paymentId) && T.IsPaid(db, e.orderId))
  }

  predicate PastTheGate(pc: Pc) {
    pc.ExpiringKey? || pc.Logging? || pc.Marking? || pc.Publishing?
  }

  ghost predicate InFlight(s: State, e: Event) {
    exists w :: 0 <= w < |s.workers| && PastTheGate(s.workers[w].pc) && s.workers[w].pc.event == e
  }

  ghost predicate Settled(s: State, e: Event) {
    Processed(s.store.db, e) || InFlight(s, e)
  }

  /** What the worker has handed out, less an event still before the gate. */
  function Passed(worker: Worker): seq<Numbered> {
    if worker.pc.SettingKey? && worker.handed != [] then worker.handed[..|worker.handed| - 1] else worker.handed
  }

  ghost predicate CalmWorker(s: State, worker: Worker) {
    && (forall i :: 0 <= i < |worker.batch| && worker.batch[i].1.Webhook? ==> Delivered(s, worker.batch[i].1.event))
    && (!worker.pc.Idle? ==>
          && Delivered(s, worker.pc.event)
          && worker.handed != [] && worker.handed[|worker.handed| - 1].1 == Webhook(worker.pc.event))
    && (worker.pc.Marking? || worker.pc.Publishing? ==> worker.pc.event.status.Success?)
    && (forall i :: 0 <= i < |Passed(worker)| && Passed(worker)[i].1.Webhook? ==> Settled(s, Passed(worker)[i].1.event))
  }

  ghost predicate KeysAreKept(world: World, s: State) {
    forall e :: e in world.events && KeyOf(e) in s.store.keys ==> Settled(s, e)
  }

  /** Everything in the tables comes from a delivered event. */
  ghost predicate Sourced(s: State) {
    && (forall e :: Delivered(s, e) ==> e.paymentId in s.store.db.payments)
    && (forall i :: 0 <= i < |s.store.db.transactions| ==> Delivered(s, s.store.db.transactions[i].raw))
    && (forall p :: T.IsSuccess(s.store.db, p) ==>
          exists e :: Delivered(s, e) && e.status.Success? && e.paymentId == p)
  }

  ghost predicate CalmState(world: World, s: State) {
    && Safe(world, s)
    && Sourced(s)
    && KeysAreKept(world, s)
    && (forall w :: 0 <= w < |s.workers| ==> CalmWorker(s, s.workers[w]))
    && (forall r :: 0 <= r < |s.reconcilers| ==> s.reconcilers[r].todo == [])
  }

  // ----- one call of the handler -----

  lemma NoTransactionConflict(world: World, db: T.Tables, e: Event)
    requires Orderly(world) && SafeTables(world, db) && e in world.events && e.paymentId in db.payments
    ensures T.LogTransaction(db, e).Ok?
  {
    if T.HasGatewayTxn(db.transactions, e.gateway, e.gatewayTxnId) {
      var i :| 0 <= i < |db.transactions| && db.transactions[i].gateway == e.gateway
        && db.transactions[i].gatewayTxnId == e.gatewayTxnId;
      assert db.transactions[i].raw == e;
      assert T.HasEvent(db.transactions, e.gateway, e.eventId);
    }
  }

  /** A handler past the gate either stays past it with its event or has processed the event. */
  lemma CallSettles(world: World, st: Store, pc: Pc)
    requires Orderly(world) && SafeTables(world, st.db)
    requires PastTheGate(pc) && pc.event in world.events && pc.event.paymentId in st.db.payments
    requires pc.Marking? ==> T.Logged(st.db, pc.event)
    requires pc.Publishing? ==> T.Confirmed(st.db, pc.event)
    ensures var (after, next) := Perform(st, pc, Done);
            if next.Idle? then Processed(after.db, pc.event) else PastTheGate(next) && next.event == pc.event
  {
    if pc.Logging? {
      NoTransactionConflict(world, st.db, pc.event);
      LogIsSafe(world, st.db, pc.event);
    }
  }

  /** Tables change for the event in hand only, and only in ways the event accounts for. */
  lemma CallIsSourced(st: Store, pc: Pc)
    requires !pc.Idle?
    ensures var after := Perform(st, pc, Done).0;
            && (forall i :: 0 <= i < |after.db.transactions| ==>
                  || (i < |st.db.transactions| && after.db.transactions[i] == st.db.transactions[i])
                  || after.db.transactions[i].raw == pc.event)
            && (forall p :: T.IsSuccess(after.db, p) ==>
                  T.IsSuccess(st.db, p) || (pc.Marking? && p == pc.event.paymentId))
  {
  }

  // ----- what stays settled -----

  lemma ProcessedSurvives(a: T.Tables, b: T.Tables, e: Event)
    requires T.Grows(a, b) && Processed(a, e)
    ensures Processed(b, e)
  {
    ConfirmedSurvives(a, b, e);
  }

  /** The event in a handler's hands stays settled while the handler moves on. */
  lemma HandlerSettles(world: World, s: State, w: nat)
    requires Orderly(world) && CalmState(world, s) && Enabled(s, Work(w, Done)) && PastTheGate(s.workers[w].pc)
    ensures Settled(Apply(s, Work(w, Done)), s.workers[w].pc.event)
  {
    var after := Apply(s, Work(w, Done));
    CallSettles(world, s.store, s.workers[w].pc);
    if !Processed(after.store.db, s.workers[w].pc.event) {
      assert PastTheGate(after.workers[w].pc) && after.workers[w].pc.event == s.workers[w].pc.event;
    }
  }

  /** A handler past the gate moves only by a call of its own. */
  lemma HandlerWaits(world: World, s: State, a: Action, w: nat)
    requires Enabled(s, a) && Calm(world, s, a) && a != Work(w, Done)
    requires w < |s.workers| && PastTheGate(s.workers[w].pc)
    ensures w < |Apply(s, a).workers| && Apply(s, a).workers[w] == s.workers[w]
  {
  }

  lemma SettledSurvives(world: World, s: State, a: Action, e: Event)
    requires Orderly(world) && CalmState(world, s) && Enabled(s, a) && Calm(world, s, a)
    requires Settled(s, e)
    ensures Settled(Apply(s, a), e)
  {
    StepGrows(s, a);
    if Processed(s.store.db, e) {
      ProcessedSurvives(s.store.db, Apply(s, a).store.db, e);
    } else {
      var w :| 0 <= w < |s.workers| && PastTheGate(s.workers[w].pc) && s.workers[w].pc.event == e;
      if a == Work(w, Done) {
        HandlerSettles(world, s, w);
      } else {
        HandlerWaits(world, s, a, w);
      }
    }
  }

  /** A worker the step does not touch stays calm. */
  lemma BystanderStaysCalm(world: World, s: State, a: Action, worker: Worker)
    requires Orderly(world) && CalmState(world, s) && Enabled(s, a) && Calm(world, s, a)
    requires CalmWorker(s, worker)
    ensures CalmWorker(Apply(s, a), worker)
  {
    StepGrows(s, a);
    forall i | 0 <= i < |Passed(worker)| && Passed(worker)[i].1.Webhook?
      ensures Settled(Apply(s, a), Passed(worker)[i].1.event)
    {
      SettledSurvives(world, s, a, Passed(worker)[i].1.event);
    }
  }

  // ----- each step keeps the invariant -----

  lemma TakeStaysCalm(world: World, s: State, w: nat)
    requires Orderly(world) && CalmState(world, s) && Enabled(s, Take(w))
    ensures CalmWorker(Apply(s, Take(w)), Apply(s, Take(w)).workers[w])
  {
    var worker, after := s.workers[w], Apply(s, Take(w));
    BystanderStaysCalm(world, s, Take(w), worker);
    assert Passed(worker) == worker.handed;
    var moved := after.workers[w];
    if moved.pc.SettingKey? {
      assert Passed(moved) == worker.handed;
    } else {
      assert Passed(moved) == worker.handed + [worker.batch[0]];
    }
  }

  /** Calling SETNX either starts the flight of the event or finds it settled. */
  lemma GateSettles(world: World, s: State, w: nat)
    requires Orderly(world) && CalmState(world, s) && Enabled(s, Work(w, Done)) && s.workers[w].pc.SettingKey?
    ensures Settled(Apply(s, Work(w, Done)), s.workers[w].pc.event)
  {
    var e, after := s.workers[w].pc.event, Apply(s, Work(w, Done));
    if KeyOf(e) in s.store.keys {
      SettledSurvives(world, s, Work(w, Done), e);
    } else {
      assert PastTheGate(after.workers[w].pc) && after.workers[w].pc.event == e;
    }
  }

  /** A call moves a worker on with its event, or ends the handling. */
  lemma WorkMoves(s: State, w: nat)
    requires Enabled(s, Work(w, Done)) && CalmWorker(s, s.workers[w])
    ensures var worker, moved := s.workers[w], Apply(s, Work(w, Done)).workers[w];
            && (moved.batch == worker.batch || moved.batch == worker.batch[1..])
            && moved.handed == worker.handed
            && (moved.pc.Idle? || (PastTheGate(moved.pc) && moved.pc.event == worker.pc.event))
            && (moved.pc.Marking? || moved.pc.Publishing? ==> worker.pc.event.status.Success?)
  {
  }

  /** After a call all that the worker has handed out is settled: the event in hand is past the gate. */
  lemma HandedIsSettled(world: World, s: State, w: nat, i: nat)
    requires Orderly(world) && CalmState(world, s) && Enabled(s, Work(w, Done))
    requires i < |s.workers[w].handed| && s.workers[w].handed[i].1.Webhook?
    ensures Settled(Apply(s, Work(w, Done)), s.workers[w].handed[i].1.event)
  {
    var worker := s.workers[w];
    if i < |Passed(worker)| {
      assert Passed(worker)[i] == worker.handed[i];
      SettledSurvives(world, s, Work(w, Done), worker.handed[i].1.event);
    } else {
      GateSettles(world, s, w);
    }
  }

  lemma WorkStaysCalm(world: World, s: State, w: nat)
    requires Orderly(world) && CalmState(world, s) && Enabled(s, Work(w, Done))
    ensures CalmWorker(Apply(s, Work(w, Done)), Apply(s, Work(w, Done)).workers[w])
  {
    var worker, after := s.workers[w], Apply(s, Work(w, Done));
    var moved := after.workers[w];
    WorkMoves(s, w);
    assert after.stream == s.stream;
    assert Passed(moved) == worker.handed;
    forall i | 0 <= i < |worker.handed| && worker.handed[i].1.Webhook?
      ensures Settled(after, worker.handed[i].1.event)
    {
      HandedIsSettled(world, s, w, i);
    }
  }

  lemma WorkersStayCalm(world: World, s: State, a: Action)
    requires Orderly(world) && CalmState(world, s) && Enabled(s, a) && Calm(world, s, a)
    ensures forall w :: 0 <= w < |s.workers| ==> CalmWorker(Apply(s, a), Apply(s, a).workers[w])
  {
    forall w | 0 <= w < |s.workers|
      ensures CalmWorker(Apply(s, a), Apply(s, a).workers[w])
    {
      if a == Take(w) {
        TakeStaysCalm(world, s, w);
      } else if a == Work(w, Done) {
        WorkStaysCalm(world, s, w);
      } else if a == Read(w) {
        ReadStaysCalm(world, s, w);
      } else if a == Crash(w) {
      } else {
        assert Apply(s, a).workers[w] == s.workers[w];
        BystanderStaysCalm(world, s, a, s.workers[w]);
      }
    }
  }

  lemma ReadStaysCalm(world: World, s: State, w: nat)
    requires Orderly(world) && CalmState(world, s) && Enabled(s, Read(w))
    ensures CalmWorker(Apply(s, Read(w)), Apply(s, Read(w)).workers[w])
  {
    var worker, after := s.workers[w], Apply(s, Read(w));
    var hi := WindowEnd(s.stream, worker.cursor, BATCH);
    var batch := Deliverable(s.stream, worker.cursor, hi);
    BystanderStaysCalm(world, s, Read(w), worker);
    assert Passed(after.workers[w]) == Passed(worker);
    forall i | 0 <= i < |batch| && batch[i].1.Webhook?
      ensures Delivered(after, batch[i].1.event)
    {
      assert InWindow(s.stream, batch[i], worker.cursor, hi);
    }
  }

  lemma KeysStayKept(world: World, s: State, a: Action)
    requires Orderly(world) && CalmState(world, s) && Enabled(s, a) && Calm(world, s, a)
    ensures KeysAreKept(world, Apply(s, a))
  {
    var after := Apply(s, a);
    forall e | e in world.events && KeyOf(e) in after.store.keys
      ensures Settled(after, e)
    {
      if KeyOf(e) in s.store.keys {
        SettledSurvives(world, s, a, e);
      } else {
        var pc := s.workers[a.w].pc;
        KeyIsInjective(e.gateway, e.eventId, pc.event.gateway, pc.event.eventId);
        assert PastTheGate(after.workers[a.w].pc) && after.workers[a.w].pc.event == e;
      }
    }
  }

  lemma StaysSourced(world: World, s: State, a: Action)
    requires Orderly(world) && CalmState(world, s) && Enabled(s, a) && Calm(world, s, a)
    ensures Sourced(Apply(s, a))
  {
    StepGrows(s, a);
    var after := Apply(s, a);
    if a.Work? {
      CallIsSourced(s.store, s.workers[a.w].pc);
    }
    forall p | T.IsSuccess(after.store.db, p)
      ensures exists e :: Delivered(after, e) && e.status.Success? && e.paymentId == p
    {
      var e;
      if T.IsSuccess(s.store.db, p) {
        e :| Delivered(s, e) && e.status.Success? && e.paymentId == p;
      } else {
        e := s.workers[a.w].pc.event;
      }
      assert Delivered(after, e);
    }
  }

  lemma StepStaysCalm(world: World, s: State, a: Action)
    requires Orderly(world) && CalmState(world, s) && Enabled(s, a) && Calm(world, s, a)
    ensures CalmState(world, Apply(s, a))
  {
    StepIsSafe(world, s, a);
    StaysSourced(world, s, a);
    KeysStayKept(world, s, a);
    WorkersStayCalm(world, s, a);
  }

  lemma {:induction false} RunStaysCalm(world: World, s: State, run: seq<Action>)
    requires Orderly(world) && CalmState(world, s) && IsRun(s, run) && CalmRun(world, s, run)
    ensures CalmState(world, After(s, run))
    decreases |run|
  {
    if run != [] {
      StepStaysCalm(world, s, run[0]);
      RunStaysCalm(world, Apply(s, run[0]), run[1..]);
    }
  }

  // ----- the outcome -----

  /** All entries after the cursor lack a payload. */
  ghost predicate NothingLeft(stream: seq<Entry>, cursor: nat) {
    cursor <= |stream| && Deliverable(stream, cursor, |stream|) == []
  }

  /** No event is being handled, and some worker has nothing left to read. */
  ghost predicate Drained(s: State) {
    && (forall w :: 0 <= w < |s.workers| ==> s.workers[w].pc.Idle?)
    && (exists w :: 0 <= w < |s.workers| && NothingLeft(s.stream, s.workers[w].cursor))
  }

  /** A worker that has nothing left to read has handed out every entry that has a payload. */
  lemma AllHandedOut(stream: seq<Entry>, cursor: nat, k: nat) returns (i: nat)
    requires NothingLeft(stream, cursor) && k < |stream| && !stream[k].Bare?
    ensures i < |Deliverable(stream, 0, cursor)| && Deliverable(stream, 0, cursor)[i] == (k + 1, stream[k])
  {
    DeliverableSplits(stream, 0, cursor, |stream|);
    i := DeliverableFinds(stream, 0, |stream|, k);
  }

  lemma AllProcessed(world: World, s: State, e: Event)
    requires CalmState(world, s) && AllAligned(s) && Drained(s) && Delivered(s, e)
    ensures Processed(s.store.db, e)
  {
    var w :| 0 <= w < |s.workers| && NothingLeft(s.stream, s.workers[w].cursor);
    var worker := s.workers[w];
    var k :| 0 <= k < |s.stream| && s.stream[k] == Webhook(e);
    assert Aligned(s.stream, worker) && CalmWorker(s, worker);
    var i := AllHandedOut(s.stream, worker.cursor, k);
    assert Passed(worker)[i].1 == Webhook(e);
    assert !InFlight(s, e);
  }

  ghost predicate SuccessFor(events: iset<Event>, paymentId: Uuid) {
    exists e :: e in events && e.status.Success? && e.paymentId == paymentId
  }

  ghost predicate SuccessOn(events: iset<Event>, orderId: Uuid) {
    exists e :: e in events && e.status.Success? && e.orderId == orderId
  }

  ghost predicate LoggedFrom(events: iset<Event>, row: T.Transaction) {
    exists e :: e in events && row == T.RowOf(e)
  }

  /** The tables say of each payment, order and event what the set of delivered events says, and log no
      event twice. */
  ghost predicate Reflects(db: T.Tables, events: iset<Event>) {
    && (forall p :: p in db.payments ==> db.payments[p].status == if SuccessFor(events, p) then Success else Pending)
    && (forall o :: o in db.orders ==> db.orders[o].status == if SuccessOn(events, o) then Paid else OrderPending)
    && (forall row :: row in db.transactions <==> LoggedFrom(events, row))
    && (forall i, j :: 0 <= i < j < |db.transactions| ==> db.transactions[i] != db.transactions[j])
  }

  lemma PaymentsReflect(world: World, s: State, p: Uuid)
    requires CalmState(world, s) && AllAligned(s) && Drained(s) && p in s.store.db.payments
    ensures s.store.db.payments[p].status == if SuccessFor(DeliveredEvents(s), p) then Success else Pending
  {
    var events := DeliveredEvents(s);
    if T.IsSuccess(s.store.db, p) {
      var e :| Delivered(s, e) && e.status.Success? && e.paymentId == p;
      assert e in events;
    }
    if e :| e in events && e.status.Success? && e.paymentId == p {
      AllProcessed(world, s, e);
    }
  }

  lemma OrdersReflect(world: World, s: State, o: Uuid)
    requires Consistent(world) && CalmState(world, s) && AllAligned(s) && Drained(s) && o in s.store.db.orders
    ensures s.store.db.orders[o].status == if SuccessOn(DeliveredEvents(s), o) then Paid else OrderPending
  {
    var db, events := s.store.db, DeliveredEvents(s);
    if T.IsPaid(db, o) {
      var p :| T.IsSuccess(db, p) && db.payments[p].orderId == o;
      var e :| Delivered(s, e) && e.status.Success? && e.paymentId == p;
      var k :| 0 <= k < |s.stream| && s.stream[k] == Webhook(e);
      assert e in events && e.orderId == o;
    }
    if e :| e in events && e.status.Success? && e.orderId == o {
      AllProcessed(world, s, e);
    }
  }

  lemma RowsReflect(world: World, s: State, row: T.Transaction)
    requires CalmState(world, s) && AllAligned(s) && Drained(s)
    ensures row in s.store.db.transactions <==> LoggedFrom(DeliveredEvents(s), row)
  {
    var db, events := s.store.db, DeliveredEvents(s);
    if row in db.transactions {
      var i :| 0 <= i < |db.transactions| && db.transactions[i] == row;
      assert row.raw in events;
    }
    if e :| e in events && row == T.RowOf(e) {
      AllProcessed(world, s, e);
    }
  }

  lemma DrainedReflects(world: World, s: State)
    requires Consistent(world) && CalmState(world, s) && AllAligned(s) && Drained(s)
    ensures Reflects(s.store.db, DeliveredEvents(s))
  {
    forall p | p in s.store.db.payments { PaymentsReflect(world, s, p); }
    forall o | o in s.store.db.orders { OrdersReflect(world, s, o); }
    forall row { RowsReflect(world, s, row); }
  }

  lemma InitialIsCalm(world: World, now: nat, workers: nat, reconcilers: nat)
    ensures CalmState(world, Initial(now, workers, reconcilers))
    ensures AllAligned(Initial(now, workers, reconcilers))
  {
    var s := Initial(now, workers, reconcilers);
    assert Deliverable(s.stream, 0, 0) == [];
    assert Safe(world, s);
    assert Sourced(s);
  }

  /** The outcome of a failure-free run that has been worked off. */
  lemma OutcomeIsDelivered(world: World, now: nat, workers: nat, reconcilers: nat, run: seq<Action>)
    requires Orderly(world)
    requires IsRun(Initial(now, workers, reconcilers), run) && CalmRun(world, Initial(now, workers, reconcilers), run)
    requires Drained(After(Initial(now, workers, reconcilers), run))
    ensures var s := After(Initial(now, workers, reconcilers), run);
            Reflects(s.store.db, DeliveredEvents(s))
  {
    var s0 := Initial(now, workers, reconcilers);
    InitialIsCalm(world, now, workers, reconcilers);
    RunIsAligned(s0, run);
    RunStaysCalm(world, s0, run);
    DrainedReflects(world, After(s0, run));
  }

  /** Convergence: two failure-free runs that have worked off the same set of events agree on the status of
      every payment and order they both know and on the rows logged, however differently they delivered
      the events, let keys expire, restarted and shared the work. */
  lemma Convergence(world: World, n1: nat, w1: nat, r1: nat, run1: seq<Action>, n2: nat, w2: nat, r2: nat, run2: seq<Action>)
    requires Orderly(world)
    requires IsRun(Initial(n1, w1, r1), run1) && CalmRun(world, Initial(n1, w1, r1), run1)
    requires IsRun(Initial(n2, w2, r2), run2) && CalmRun(world, Initial(n2, w2, r2), run2)
    requires Drained(After(Initial(n1, w1, r1), run1)) && Drained(After(Initial(n2, w2, r2), run2))
    requires forall e :: Delivered(After(Initial(n1, w1, r1), run1), e) <==> Delivered(After(Initial(n2, w2, r2), run2), e)
    ensures var a := After(Initial(n1, w1, r1), run1).store.db;
            var b := After(Initial(n2, w2, r2), run2).store.db;
            && (forall p :: p in a.payments && p in b.payments ==> a.payments[p].status == b.payments[p].status)
            && (forall o :: o in a.orders && o in b.orders ==> a.orders[o].status == b.orders[o].status)
            && (forall row :: row in a.transactions <==> row in b.transactions)
            && |a.transactions| == |b.transactions|
  {
    OutcomeIsDelivered(world, n1, w1, r1, run1);
    OutcomeIsDelivered(world, n2, w2, r2, run2);
    var s1, s2 := After(Initial(n1, w1, r1), run1), After(Initial(n2, w2, r2), run2);
    assert DeliveredEvents(s1) == DeliveredEvents(s2);
    DistinctSize(s1.store.db.transactions);
    DistinctSize(s2.store.db.transactions);
    assert Elements(s1.store.db.transactions) == Elements(s2.store.db.transactions);
  }
}
