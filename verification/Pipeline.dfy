/** The webhook pipeline as a step machine: API requests, any number of workers and reconcilers, and time.
    A worker stops at every await; the outcome of each awaited call is the environment's choice. */
module Pipeline {
  import opened Common
  import opened Faults
  import opened Payments
  import opened Idempotency
  import opened WebhookQueue
  import T = Tables

  const BATCH: nat := 50

  const SETTLEMENT_AMOUNT := 100

  /** Where handle_event stands: the call it is about to make. */
  datatype Pc =
    | Idle
    | SettingKey(event: Event)
    | ExpiringKey(event: Event)
    | Logging(event: Event)
    | Marking(event: Event)
    | Publishing(event: Event)

  /** The event in hand is the head of the batch. `handed` lists what this incarnation of the worker has
      handed to handle_event so far. */
  datatype Worker = Worker(cursor: nat, batch: seq<Numbered>, pc: Pc, handed: seq<Numbered>)

  const FRESH_WORKER := Worker(0, [], Idle, [])

  /** The rest of the page of one round; `marked` when the head has been marked but not settled. */
  datatype Reconciler = Reconciler(todo: seq<(Uuid, Uuid, string)>, marked: bool)

  const RESTING := Reconciler([], false)

  /** A key that was set by a successful SETNX, and when. */
  datatype Mark = Mark(key: string, time: nat)

  /** What all processes share, with the history of marks and confirmations. */
  datatype Store = Store(now: nat, keys: Keys, db: T.Tables, marks: seq<Mark>, confirmed: seq<Event>)

  datatype State = State(store: Store, stream: seq<Entry>, workers: seq<Worker>, reconcilers: seq<Reconciler>)

  datatype Action =
    | CreateOrder(orderId: Uuid, userId: string, amount: int, currency: string)
    | CreatePayment(paymentId: Uuid, order: Uuid, gateway: string, paymentMethod: PaymentMethod, checkoutUrl: string)
    | Enqueue(entry: Entry)
    | Tick(elapsed: nat)
    | Read(w: nat)
    | Take(w: nat)
    | Work(w: nat, outcome: Outcome)
    | Crash(w: nat)
    | Select(r: nat, page: seq<(Uuid, Uuid, string)>)
    | Reconcile(r: nat, outcome: Outcome)
    | Abandon(r: nat)

  function KeyOf(e: Event): string {
    IdempotencyKey(e.gateway, e.eventId)
  }

  /** One awaited call of handle_event: its effect on the store and where the handler goes next. Any error
      ends the handling of the event. */
  function Perform(st: Store, pc: Pc, outcome: Outcome): (Store, Pc)
    requires !pc.Idle?
  {
    var e := pc.event;
    if outcome.Lost? then (st, Idle)
    else match pc
      case SettingKey(_) =>
        var wasSet := !Live(st.keys, KeyOf(e), st.now);
        var after := st.(keys := SetIfAbsent(st.keys, KeyOf(e), st.now),
                         marks := if wasSet then st.marks + [Mark(KeyOf(e), st.now)] else st.marks);
        (after, if outcome.Done? && wasSet then ExpiringKey(e) else Idle)
      case ExpiringKey(_) =>
        var after := st.(keys := SetExpiry(st.keys, KeyOf(e), TTL_SECONDS, st.now));
        (after, if outcome.Done? then Logging(e) else Idle)
      case Logging(_) =>
        var result := T.LogTransaction(st.db, e);
        if result.Err? then (st, Idle)
        else (st.(db := result.value), if outcome.Done? && e.status.Success? then Marking(e) else Idle)
      case Marking(_) =>
        var after := st.(db := T.MarkPaymentSuccess(st.db, e.paymentId, e.orderId));
        (after, if outcome.Done? then Publishing(e) else Idle)
      case Publishing(_) =>
        (st.(confirmed := st.confirmed + [e]), Idle)
  }

  /** The head of the batch has been handled, with or without error: the cursor moves to its id. */
  function Finish(worker: Worker): Worker
    requires worker.batch != []
  {
    worker.(cursor := worker.batch[0].0, batch := worker.batch[1..], pc := Idle)
  }

  function Proceed(worker: Worker, pc: Pc): Worker
    requires worker.batch != []
  {
    if pc.Idle? then Finish(worker) else worker.(pc := pc)
  }

  /** One awaited call of reconcile_once. Any error ends the round. */
  function PerformRound(st: Store, rec: Reconciler, outcome: Outcome): (Store, Reconciler)
    requires rec.todo != []
  {
    var (paymentId, orderId, gateway) := rec.todo[0];
    if outcome.Lost? then (st, RESTING)
    else if !rec.marked then
      (st.(db := T.MarkPaymentSuccess(st.db, paymentId, orderId)),
       if outcome.Done? then rec.(marked := true) else RESTING)
    else
      var result := T.InsertSettlement(st.db, paymentId, gateway, SETTLEMENT_AMOUNT);
      if result.Err? then (st, RESTING)
      else (st.(db := result.value), if outcome.Done? then Reconciler(rec.todo[1..], false) else RESTING)
  }

  ghost predicate Enabled(s: State, a: Action) {
    match a
    case CreateOrder(orderId, _, _, _) => orderId !in s.store.db.orders
    case CreatePayment(paymentId, _, _, _, _) => paymentId !in s.store.db.payments
    case Enqueue(_) => true
    case Tick(_) => true
    case Read(w) =>
      w < |s.workers| && s.workers[w].pc.Idle? && s.workers[w].batch == [] && s.workers[w].cursor <= |s.stream|
    case Take(w) => w < |s.workers| && s.workers[w].pc.Idle? && s.workers[w].batch != []
    case Work(w, _) => w < |s.workers| && !s.workers[w].pc.Idle? && s.workers[w].batch != []
    case Crash(w) => w < |s.workers|
    case Select(r, page) => r < |s.reconcilers| && s.reconcilers[r].todo == [] && T.IsPendingPage(s.store.db, page)
    case Reconcile(r, _) => r < |s.reconcilers| && s.reconcilers[r].todo != []
    case Abandon(r) => r < |s.reconcilers|
  }

  ghost function Apply(s: State, a: Action): State
    requires Enabled(s, a)
  {
    match a
    case CreateOrder(orderId, userId, amount, currency) =>
      s.(store := s.store.(db := T.CreateOrder(s.store.db, orderId, userId, amount, currency)))
    case CreatePayment(paymentId, order, gateway, paymentMethod, checkoutUrl) =>
      var result := T.CreatePayment(s.store.db, paymentId, order, gateway, paymentMethod, checkoutUrl, s.store.now);
      if result.Err? then s else s.(store := s.store.(db := result.value))
    case Enqueue(entry) =>
      s.(stream := s.stream + [entry])
    case Tick(elapsed) =>
      s.(store := s.store.(now := s.store.now + elapsed))
    case Read(w) =>
      var worker := s.workers[w];
      s.(workers := s.workers[w := worker.(batch := ReadAfter(s.stream, worker.cursor, BATCH))])
    case Take(w) =>
      var worker := s.workers[w].(handed := s.workers[w].handed + [s.workers[w].batch[0]]);
      var entry := worker.batch[0].1;
      s.(workers := s.workers[w := Proceed(worker, if entry.Webhook? then SettingKey(entry.event) else Idle)])
    case Work(w, outcome) =>
      var (store, pc) := Perform(s.store, s.workers[w].pc, outcome);
      s.(store := store, workers := s.workers[w := Proceed(s.workers[w], pc)])
    case Crash(w) =>
      s.(workers := s.workers[w := FRESH_WORKER])
    case Select(r, page) =>
      s.(reconcilers := s.reconcilers[r := Reconciler(page, false)])
    case Reconcile(r, outcome) =>
      var (store, rec) := PerformRound(s.store, s.reconcilers[r], outcome);
      s.(store := store, reconcilers := s.reconcilers[r := rec])
    case Abandon(r) =>
      s.(reconcilers := s.reconcilers[r := RESTING])
  }

  ghost predicate IsRun(s: State, run: seq<Action>)
    decreases |run|
  {
    run == [] || (Enabled(s, run[0]) && IsRun(Apply(s, run[0]), run[1..]))
  }

  ghost function After(s: State, run: seq<Action>): State
    requires IsRun(s, run)
    decreases |run|
  {
    if run == [] then s else After(Apply(s, run[0]), run[1..])
  }

  /** Everything empty, every worker at "0-0". */
  function Initial(now: nat, workers: nat, reconcilers: nat): State {
    State(Store(now, map[], T.EMPTY, [], []), [], seq(workers, _ => FRESH_WORKER), seq(reconcilers, _ => RESTING))
  }

  /** Runs compose. */
  lemma {:induction false} RunsCompose(s: State, first: seq<Action>, second: seq<Action>)
    requires IsRun(s, first) && IsRun(After(s, first), second)
    ensures IsRun(s, first + second)
    ensures After(s, first + second) == After(After(s, first), second)
    decreases |first|
  {
    if first == [] {
      assert first + second == second;
    } else {
      RunsCompose(Apply(s, first[0]), first[1..], second);
      assert (first + second)[1..] == first[1..] + second;
    }
  }

  /** One more enabled step prolongs a run. */
  lemma RunExtends(s: State, run: seq<Action>, a: Action)
    requires IsRun(s, run) && Enabled(After(s, run), a)
    ensures IsRun(s, run + [a])
    ensures After(s, run + [a]) == Apply(After(s, run), a)
  {
    TraceIsRun([After(s, run), Apply(After(s, run), a)], [a]);
    RunsCompose(s, run, [a]);
  }

  /** The states a run goes through, written out. */
  ghost predicate Traces(states: seq<State>, run: seq<Action>) {
    && |states| == |run| + 1
    && (forall i :: 0 <= i < |run| ==> Enabled(states[i], run[i]) && states[i + 1] == Apply(states[i], run[i]))
  }

  lemma {:induction false} TraceIsRun(states: seq<State>, run: seq<Action>)
    requires Traces(states, run)
    ensures IsRun(states[0], run) && After(states[0], run) == states[|run|]
    decreases |run|
  {
    if run != [] {
      TraceIsRun(states[1..], run[1..]);
    }
  }

  // ----- every step only grows the tables -----

  lemma PerformGrows(st: Store, pc: Pc, outcome: Outcome)
    requires !pc.Idle?
    ensures T.Grows(st.db, Perform(st, pc, outcome).0.db)
    ensures st.confirmed <= Perform(st, pc, outcome).0.confirmed
    ensures st.now == Perform(st, pc, outcome).0.now
  {
  }

  lemma StepGrows(s: State, a: Action)
    requires Enabled(s, a)
    ensures T.Grows(s.store.db, Apply(s, a).store.db)
    ensures s.store.confirmed <= Apply(s, a).store.confirmed
    ensures s.stream <= Apply(s, a).stream
    ensures s.store.now <= Apply(s, a).store.now
  {
    if a.Work? {
      PerformGrows(s.store, s.workers[a.w].pc, a.outcome);
    }
  }

  /** Along every run payment and order statuses only move forward, no row disappears, and what was once
      confirmed, logged or settled stays so. */
  lemma {:induction false} RunGrows(s: State, run: seq<Action>)
    requires IsRun(s, run)
    ensures T.Grows(s.store.db, After(s, run).store.db)
    ensures s.store.confirmed <= After(s, run).store.confirmed
    ensures s.stream <= After(s, run).stream
    ensures s.store.now <= After(s, run).store.now
    decreases |run|
  {
    if run != [] {
      var next := Apply(s, run[0]);
      StepGrows(s, run[0]);
      RunGrows(next, run[1..]);
      T.GrowsTransitively(s.store.db, next.store.db, After(s, run).store.db);
    }
  }
}
