/** The worker process: the webhook processor and the reconciler, as they run against the stores. Each
    method's effect is a function of the stores before it, and each of these functions is a run of the
    step machine. */
module Worker {
  import opened Common
  import opened Faults
  import opened Payments
  import opened Idempotency
  import opened WebhookQueue
  import opened Repository
  import P = Pipeline
  import T = Tables

  /** The outcome of every call one event may need. */
  datatype Outcomes = Outcomes(setting: Outcome, expiring: Outcome, logging: Outcome, marking: Outcome, publishing: Outcome)

  function OutcomeAt(pc: P.Pc, os: Outcomes): Outcome
    requires !pc.Idle?
  {
    match pc
    case SettingKey(_) => os.setting
    case ExpiringKey(_) => os.expiring
    case Logging(_) => os.logging
    case Marking(_) => os.marking
    case Publishing(_) => os.publishing
  }

  function Rank(pc: P.Pc): nat {
    match pc
    case Idle => 0
    case Publishing(_) => 1
    case Marking(_) => 2
    case Logging(_) => 3
    case ExpiringKey(_) => 4
    case SettingKey(_) => 5
  }

  /** All remaining calls of handle_event, until one fails or none is left. */
  function Handle(st: P.Store, pc: P.Pc, os: Outcomes): P.Store
    decreases Rank(pc)
  {
    if pc.Idle? then st
    else
      var (after, next) := P.Perform(st, pc, OutcomeAt(pc, os));
      Handle(after, next, os)
  }

  /** Whether handle_event returns without error: no call fails and the row can be logged. */
  predicate Succeeds(st: P.Store, pc: P.Pc, os: Outcomes)
    decreases Rank(pc)
  {
    pc.Idle?
    || (&& OutcomeAt(pc, os).Done?
        && (pc.Logging? ==> T.LogTransaction(st.db, pc.event).Ok?)
        && var (after, next) := P.Perform(st, pc, OutcomeAt(pc, os));
        Succeeds(after, next, os))
  }

  /** A call with nothing after it decides what the handling comes to. */
  lemma LastCall(st: P.Store, pc: P.Pc, os: Outcomes)
    requires !pc.Idle? && P.Perform(st, pc, OutcomeAt(pc, os)).1.Idle?
    ensures Handle(st, pc, os) == P.Perform(st, pc, OutcomeAt(pc, os)).0
    ensures !OutcomeAt(pc, os).Done? ==> !Succeeds(st, pc, os)
    ensures OutcomeAt(pc, os).Done? && (pc.Logging? ==> T.LogTransaction(st.db, pc.event).Ok?) ==> Succeeds(st, pc, os)
  {
  }

  // ----- what the handling of an event comes to, outcome by outcome -----

  lemma {:induction false} PublishingIs(st: P.Store, e: Event, os: Outcomes)
    ensures Handle(st, P.Publishing(e), os) == if os.publishing.Lost? then st else st.(confirmed := st.confirmed + [e])
    ensures Succeeds(st, P.Publishing(e), os) <==> os.publishing.Done?
  {
    LastCall(st, P.Publishing(e), os);
  }

  lemma {:induction false} MarkingIs(st: P.Store, e: Event, os: Outcomes)
    ensures var marked := st.(db := T.MarkPaymentSuccess(st.db, e.paymentId, e.orderId));
            Handle(st, P.Marking(e), os) ==
              if os.marking.Lost? then st
              else if os.marking.Unacknowledged? || os.publishing.Lost? then marked
              else marked.(confirmed := st.confirmed + [e])
    ensures Succeeds(st, P.Marking(e), os) <==> os.marking.Done? && os.publishing.Done?
  {
    if os.marking.Done? {
      var marked := P.Perform(st, P.Marking(e), Done).0;
      PublishingIs(marked, e, os);
      assert Handle(st, P.Marking(e), os) == Handle(marked, P.Publishing(e), os);
      assert Succeeds(st, P.Marking(e), os) <==> Succeeds(marked, P.Publishing(e), os);
    } else {
      LastCall(st, P.Marking(e), os);
    }
  }

  lemma {:induction false} LoggingIs(st: P.Store, e: Event, os: Outcomes)
    ensures var result := T.LogTransaction(st.db, e);
            && (os.logging.Lost? || result.Err? ==>
                  Handle(st, P.Logging(e), os) == st && !Succeeds(st, P.Logging(e), os))
            && (!os.logging.Lost? && result.Ok? ==>
                  var logged := st.(db := result.value);
                  && Handle(st, P.Logging(e), os) ==
                       (if os.logging.Done? && e.status.Success? then Handle(logged, P.Marking(e), os) else logged)
                  && (Succeeds(st, P.Logging(e), os) <==>
                        os.logging.Done? && (e.status.Success? ==> Succeeds(logged, P.Marking(e), os))))
  {
    var result := T.LogTransaction(st.db, e);
    if os.logging.Done? && result.Ok? && e.status.Success? {
      var logged := P.Perform(st, P.Logging(e), Done).0;
      assert Handle(st, P.Logging(e), os) == Handle(logged, P.Marking(e), os);
      assert Succeeds(st, P.Logging(e), os) <==> Succeeds(logged, P.Marking(e), os);
    } else {
      LastCall(st, P.Logging(e), os);
    }
  }

  /** The gate, with the key, the clock and the time to live written out. */
  lemma {:induction false} GateIs(st: P.Store, e: Event, os: Outcomes)
    ensures var key := "idemp:webhook:" + e.gateway + ":" + e.eventId;
            var free := !(key in st.keys && (st.keys[key].Never? || st.now < st.keys[key].time));
            var after := Handle(st, P.SettingKey(e), os);
            && (os.setting.Lost? || !free ==> after == st)
            && (!os.setting.Lost? && free ==>
                  && after.keys == st.keys[key := if os.setting.Done? && !os.expiring.Lost? then At(st.now + 3_600_000) else Never]
                  && after.marks == st.marks + [P.Mark(key, st.now)])
            && (!os.setting.Lost? && free && !(os.setting.Done? && os.expiring.Done?) ==>
                  after.db == st.db && after.confirmed == st.confirmed)
            && (free && os.setting.Done? && os.expiring.Done? ==>
                  var passed := st.(keys := st.keys[key := At(st.now + 3_600_000)], marks := st.marks + [P.Mark(key, st.now)]);
                  after == Handle(passed, P.Logging(e), os)
                  && (Succeeds(st, P.SettingKey(e), os) <==> Succeeds(passed, P.Logging(e), os)))
            && (!(free && os.setting.Done? && os.expiring.Done?) ==>
                  (Succeeds(st, P.SettingKey(e), os) <==> !free && os.setting.Done?))
  {
    var key := P.KeyOf(e);
    if os.setting.Done? && !Live(st.keys, key, st.now) {
      var won := P.Perform(st, P.SettingKey(e), Done).0;
      assert Handle(st, P.SettingKey(e), os) == Handle(won, P.ExpiringKey(e), os);
      assert Succeeds(st, P.SettingKey(e), os) <==> Succeeds(won, P.ExpiringKey(e), os);
      assert won.keys[key := At(st.now + 3_600_000)] == st.keys[key := At(st.now + 3_600_000)];
      if os.expiring.Done? {
        var passed := P.Perform(won, P.ExpiringKey(e), Done).0;
        assert Handle(won, P.ExpiringKey(e), os) == Handle(passed, P.Logging(e), os);
        assert Succeeds(won, P.ExpiringKey(e), os) <==> Succeeds(passed, P.Logging(e), os);
        HandlingKeepsGate(passed, P.Logging(e), os);
      } else {
        LastCall(won, P.ExpiringKey(e), os);
      }
    } else {
      LastCall(st, P.SettingKey(e), os);
    }
  }

  lemma {:induction false} HandlingKeepsGate(st: P.Store, pc: P.Pc, os: Outcomes)
    requires pc.Logging? || pc.Marking? || pc.Publishing? || pc.Idle?
    ensures Handle(st, pc, os).keys == st.keys && Handle(st, pc, os).marks == st.marks
    decreases Rank(pc)
  {
    if !pc.Idle? {
      var (after, next) := P.Perform(st, pc, OutcomeAt(pc, os));
      HandlingKeepsGate(after, next, os);
    }
  }

  /** The tables and the confirmations after an event has been handled, for every combination of outcomes: each
      call is made exactly if all before it were acknowledged, and the payment is marked and the confirmation
      published for a SUCCESS only. */
  lemma {:induction false} HandlingIs(st: P.Store, e: Event, os: Outcomes)
    ensures var key := "idemp:webhook:" + e.gateway + ":" + e.eventId;
            var free := !(key in st.keys && (st.keys[key].Never? || st.now < st.keys[key].time));
            var result := T.LogTransaction(st.db, e);
            var after := Handle(st, P.SettingKey(e), os);
            var logs := free && os.setting.Done? && os.expiring.Done? && !os.logging.Lost? && result.Ok?;
            var marks := logs && os.logging.Done? && e.status == Success && !os.marking.Lost?;
            var publishes := marks && os.marking.Done? && !os.publishing.Lost?;
            && after.db == (if marks then T.MarkPaymentSuccess(result.value, e.paymentId, e.orderId)
                            else if logs then result.value else st.db)
            && after.confirmed == (if publishes then st.confirmed + [e] else st.confirmed)
            && (Succeeds(st, P.SettingKey(e), os) <==>
                  os.setting.Done? &&
                  (free ==> os.expiring.Done? && os.logging.Done? && result.Ok?
                            && (e.status == Success ==> os.marking.Done? && os.publishing.Done?)))
  {
    var key := "idemp:webhook:" + e.gateway + ":" + e.eventId;
    GateIs(st, e, os);
    var passed := st.(keys := st.keys[key := At(st.now + 3_600_000)], marks := st.marks + [P.Mark(key, st.now)]);
    LoggingIs(passed, e, os);
    if T.LogTransaction(st.db, e).Ok? {
      MarkingIs(passed.(db := T.LogTransaction(st.db, e).value), e, os);
    }
  }

  function HandleEntry(st: P.Store, entry: Entry, os: Outcomes): P.Store {
    if entry.Webhook? then Handle(st, P.SettingKey(entry.event), os) else st
  }

  function HandleAll(st: P.Store, batch: seq<Numbered>, faults: nat -> Outcomes): P.Store {
    if batch == [] then st
    else
      var last := |batch| - 1;
      HandleEntry(HandleAll(st, batch[..last], faults), batch[last].1, faults(last))
  }

  /** All remaining calls of a round, with outcomes numbered by what is left to do. */
  function Settle(st: P.Store, rec: P.Reconciler, faults: (nat, bool) -> Outcome): P.Store
    decreases |rec.todo|, !rec.marked
  {
    if rec.todo == [] then st
    else
      var (after, next) := P.PerformRound(st, rec, faults(|rec.todo|, rec.marked));
      Settle(after, next, faults)
  }

  /** Whether reconcile_once returns without error: no call fails and every settlement can be inserted. */
  predicate Completes(st: P.Store, rec: P.Reconciler, faults: (nat, bool) -> Outcome)
    decreases |rec.todo|, !rec.marked
  {
    rec.todo == []
    || (var outcome := faults(|rec.todo|, rec.marked);
        && outcome.Done?
        && (rec.marked ==> T.InsertSettlement(st.db, rec.todo[0].0, rec.todo[0].2, P.SETTLEMENT_AMOUNT).Ok?)
        && var (after, next) := P.PerformRound(st, rec, outcome);
        Completes(after, next, faults))
  }

  /** The payment at the head is marked first. */
  lemma MarkingInRound(st: P.Store, rec: P.Reconciler, faults: (nat, bool) -> Outcome)
    requires rec.todo != [] && !rec.marked
    ensures var outcome, marked := faults(|rec.todo|, false), st.(db := T.MarkPaymentSuccess(st.db, rec.todo[0].0, rec.todo[0].1));
            && (Settle(st, rec, faults) == match outcome
                 case Lost => st
                 case Unacknowledged => marked
                 case Done => Settle(marked, P.Reconciler(rec.todo, true), faults))
            && (Completes(st, rec, faults) <==> outcome.Done? && Completes(marked, P.Reconciler(rec.todo, true), faults))
  {
  }

  /** Then it is settled, and the round goes on with the rest. */
  lemma SettlingInRound(st: P.Store, rec: P.Reconciler, faults: (nat, bool) -> Outcome)
    requires rec.todo != [] && rec.marked
    ensures var outcome, rest := faults(|rec.todo|, true), P.Reconciler(rec.todo[1..], false);
            var inserted := T.InsertSettlement(st.db, rec.todo[0].0, rec.todo[0].2, 100);
            && Settle(st, rec, faults) == (
                 if outcome.Lost? || inserted.Err? then st
                 else if outcome.Unacknowledged? then st.(db := inserted.value)
                 else Settle(st.(db := inserted.value), rest, faults))
            && (Completes(st, rec, faults) <==>
                  outcome.Done? && inserted.Ok? && Completes(st.(db := inserted.value), rest, faults))
  {
  }

  /** How many of the first n reads succeed. */
  function Reads(reachable: nat -> bool, n: nat): nat {
    if n == 0 then 0 else Reads(reachable, n - 1) + if reachable(n - 1) then 1 else 0
  }

  lemma {:induction false} HandedOneMore(before: seq<Numbered>, stream: seq<Entry>, a: nat, b: nat, c: nat)
    requires a <= b <= c <= |stream|
    ensures before + Deliverable(stream, a, b) + Deliverable(stream, b, c) == before + Deliverable(stream, a, c)
  {
    DeliverableSplits(stream, a, b, c);
  }

  lemma {:induction false} EnoughReads(stream: seq<Entry>, c: nat, times: nat)
    requires c <= |stream|
    ensures times >= |stream| - c ==> (BareFrom(stream, CursorAfter(stream, c, 50, times)) <==> NoBlock(stream, c, 50))
  {
    if times >= |stream| - c {
      ReadsLeaveNothing(stream, c, 50, times);
    }
  }

  class RealtimePublisher {
    var published: seq<Event>

    constructor ()
      ensures published == []
    {
      published := [];
    }

    method PublishPaymentConfirmed(e: Event)
      modifies this
      ensures published == old(published) + [e]
    {
      published := published + [e];
    }
  }

  class WebhookWorker {
    const repo: Repo
    const idempotency: IdempotencyStore
    const realtime: RealtimePublisher
    const queue: Queue
    var lastId: nat
    ghost var marks: seq<P.Mark>
    ghost var handed: seq<Numbered>

    ghost function Snapshot(now: nat): P.Store
      reads this, repo, idempotency, realtime
    {
      P.Store(now, idempotency.keys, repo.Contents(), marks, realtime.published)
    }

    /** A worker that starts, starts from "0-0". */
    constructor (repo: Repo, idempotency: IdempotencyStore, realtime: RealtimePublisher, queue: Queue)
      ensures this.repo == repo && this.idempotency == idempotency && this.realtime == realtime && this.queue == queue
      ensures lastId == 0 && marks == [] && handed == []
    {
      this.repo, this.idempotency, this.realtime, this.queue := repo, idempotency, realtime, queue;
      lastId, marks, handed := 0, [], [];
    }

    /** mark_if_absent, with the win recorded. */
    method PassGate(e: Event, now: nat, os: Outcomes) returns (r: Result<bool, ()>)
      modifies this`marks, idempotency
      ensures var pc := if r == Ok(true) then P.Logging(e) else P.Idle;
              && Handle(Snapshot(now), pc, os) == Handle(old(Snapshot(now)), P.SettingKey(e), os)
              && (Succeeds(old(Snapshot(now)), P.SettingKey(e), os) <==> r.Ok? && Succeeds(Snapshot(now), pc, os))
    {
      var key := IdempotencyKey(e.gateway, e.eventId);
      if !os.setting.Lost? && !Live(idempotency.keys, key, now) {
        marks := marks + [P.Mark(key, now)];
      }
      r := idempotency.MarkIfAbsentCall(key, TTL_SECONDS, now, os.setting, os.expiring);
    }

    method HandleEvent(entry: Entry, now: nat, os: Outcomes) returns (r: Result<(), ()>)
      modifies this`marks, idempotency, repo, realtime
      ensures Snapshot(now) == HandleEntry(old(Snapshot(now)), entry, os)
      ensures !entry.Webhook? ==> r.Err? && Snapshot(now) == old(Snapshot(now))
      ensures r.Ok? <==> entry.Webhook? && Succeeds(old(Snapshot(now)), P.SettingKey(entry.event), os)
      ensures lastId == old(lastId)
    {
      if !entry.Webhook? {
        return Err(());
      }
      var e := entry.event;
      var shouldProcess := PassGate(e, now, os);
      if shouldProcess != Ok(true) {
        return if shouldProcess.Ok? then Ok(()) else Err(());
      }
      ghost var admitted := Snapshot(now);
      if os.logging.Lost? {
        return Err(());
      }
      var logged := repo.LogTransaction(e);
      if logged.Err? || os.logging.Unacknowledged? {
        return Err(());
      }
      if e.status.Success? {
        assert Handle(Snapshot(now), P.Marking(e), os) == HandleEntry(old(Snapshot(now)), entry, os)
          && (Succeeds(Snapshot(now), P.Marking(e), os) <==> Succeeds(old(Snapshot(now)), P.SettingKey(e), os));
        if !os.marking.Done? {
          LastCall(Snapshot(now), P.Marking(e), os);
        }
        if os.marking.Lost? {
          return Err(());
        }
        repo.MarkPaymentSuccess(e.paymentId, e.orderId);
        if os.marking.Unacknowledged? {
          return Err(());
        }
        assert Handle(Snapshot(now), P.Publishing(e), os) == HandleEntry(old(Snapshot(now)), entry, os)
          && (Succeeds(Snapshot(now), P.Publishing(e), os) <==> Succeeds(old(Snapshot(now)), P.SettingKey(e), os));
        LastCall(Snapshot(now), P.Publishing(e), os);
        if os.publishing.Lost? {
          return Err(());
        }
        realtime.PublishPaymentConfirmed(e);
        if os.publishing.Unacknowledged? {
          return Err(());
        }
      } else {
        LastCall(admitted, P.Logging(e), os);
      }
      return Ok(());
    }

    /** One turn of the loop: a batch is read and handled in order; errors do not hold the cursor back. When the
        read fails nothing is handled. */
    method Poll(reachable: bool, now: nat, faults: nat -> Outcomes)
      requires lastId <= |queue.stream|
      modifies this, idempotency, repo, realtime
      ensures var batch := if reachable then ReadAfter(queue.stream, old(lastId), P.BATCH) else [];
              && Snapshot(now) == HandleAll(old(Snapshot(now)), batch, faults)
              && lastId == (if batch == [] then old(lastId) else batch[|batch| - 1].0)
              && old(lastId) <= lastId <= |queue.stream|
      ensures lastId == if reachable then NextCursor(queue.stream, old(lastId), 50) else old(lastId)
      ensures old(lastId) <= lastId <= |queue.stream|
      ensures handed == old(handed) + Deliverable(queue.stream, old(lastId), lastId)
    {
      if !reachable {
        assert Deliverable(queue.stream, lastId, lastId) == [];
        return;
      }
      ReadReachesCursor(queue.stream, lastId, P.BATCH);
      var events := queue.ReadAfterCall(lastId, P.BATCH);
      HandleBatch(events, now, faults);
    }

    /** The entries of a batch, in order; an error does not stop it. */
    method HandleBatch(events: seq<Numbered>, now: nat, faults: nat -> Outcomes)
      modifies this, idempotency, repo, realtime
      ensures Snapshot(now) == HandleAll(old(Snapshot(now)), events, faults)
      ensures lastId == (if events == [] then old(lastId) else events[|events| - 1].0)
      ensures handed == old(handed) + events
    {
      for i := 0 to |events|
        invariant Snapshot(now) == HandleAll(old(Snapshot(now)), events[..i], faults)
        invariant lastId == if i == 0 then old(lastId) else events[i - 1].0
        invariant handed == old(handed) + events[..i]
      {
        assert events[..i + 1][..i] == events[..i];
        var _ := HandleEvent(events[i].1, now, faults(i));
        lastId, handed := events[i].0, handed + [events[i]];
      }
      assert events[..|events|] == events;
    }

    /** From `start`, after some reads, all entries up to the cursor have been handed out. */
    ghost predicate HasRead(stream: seq<Entry>, start: nat, before: seq<Numbered>, times: nat)
      reads this, queue
    {
      && queue.stream == stream && start <= lastId <= |stream| && lastId == CursorAfter(stream, start, 50, times)
      && handed == before + Deliverable(stream, start, lastId)
    }

    /** One turn, as far as the cursor and the entries handed out go. */
    method TakeTurn(reachable: bool, now: nat, faults: nat -> Outcomes, ghost stream: seq<Entry>, ghost start: nat,
                    ghost before: seq<Numbered>, ghost times: nat)
      requires HasRead(stream, start, before, times)
      modifies this, idempotency, repo, realtime
      ensures HasRead(stream, start, before, if reachable then times + 1 else times)
    {
      CursorAfterOneMore(stream, start, 50, times);
      ghost var c := lastId;
      Poll(reachable, now, faults);
      HandedOneMore(before, stream, start, c, lastId);
    }

    /** The loop of process_webhooks, for its first turns: turn after turn, whether or not a read fails. All
        entries with a payload up to the cursor are handed to the handler, in order, each once. If there have
        been as many reads as entries are waiting, nothing is left unread, unless a block of 50 entries without
        payload is in the way. */
    method ProcessWebhooks(turns: nat, reachable: nat -> bool, clock: nat -> nat, faults: nat -> (nat -> Outcomes))
      requires lastId <= |queue.stream|
      modifies this, idempotency, repo, realtime
      ensures old(lastId) <= lastId <= |queue.stream|
      ensures handed == old(handed) + Deliverable(queue.stream, old(lastId), lastId)
      ensures lastId == CursorAfter(queue.stream, old(lastId), 50, Reads(reachable, turns))
      ensures Reads(reachable, turns) >= |queue.stream| - old(lastId) ==>
                (BareFrom(queue.stream, lastId) <==> NoBlock(queue.stream, old(lastId), 50))
    {
      EnoughReads(queue.stream, lastId, Reads(reachable, turns));
      assert Deliverable(queue.stream, lastId, lastId) == [];
      TakeTurns(turns, reachable, clock, faults, queue.stream, lastId, handed);
    }

    /** The turns, one after the other. */
    method TakeTurns(turns: nat, reachable: nat -> bool, clock: nat -> nat, faults: nat -> (nat -> Outcomes),
                     ghost stream: seq<Entry>, ghost start: nat, ghost before: seq<Numbered>)
      requires HasRead(stream, start, before, 0)
      modifies this, idempotency, repo, realtime
      ensures HasRead(stream, start, before, Reads(reachable, turns))
    {
      for i := 0 to turns
        invariant HasRead(stream, start, before, Reads(reachable, i))
      {
        TakeTurn(reachable(i), clock(i), faults(i), stream, start, before, Reads(reachable, i));
      }
    }

    /** One payment is marked, then settled; `rest` is what the round has left after it. */
    method ReconcilePayment(row: (Uuid, Uuid, string), ghost rest: seq<(Uuid, Uuid, string)>, left: nat,
                            now: nat, faults: (nat, bool) -> Outcome)
      returns (r: Result<(), ()>)
      requires left == |rest| + 1
      modifies repo
      ensures Settle(old(Snapshot(now)), P.Reconciler([row] + rest, false), faults)
              == if r.Ok? then Settle(Snapshot(now), P.Reconciler(rest, false), faults) else Snapshot(now)
      ensures Completes(old(Snapshot(now)), P.Reconciler([row] + rest, false), faults)
              <==> r.Ok? && Completes(Snapshot(now), P.Reconciler(rest, false), faults)
    {
      assert ([row] + rest)[1..] == rest;
      MarkingInRound(Snapshot(now), P.Reconciler([row] + rest, false), faults);
      if faults(left, false).Lost? {
        return Err(());
      }
      repo.MarkPaymentSuccess(row.0, row.1);
      if faults(left, false).Unacknowledged? {
        return Err(());
      }
      SettlingInRound(Snapshot(now), P.Reconciler([row] + rest, true), faults);
      if faults(left, true).Lost? {
        return Err(());
      }
      var settled := repo.InsertSettlement(row.0, row.2, P.SETTLEMENT_AMOUNT);
      return if settled.Err? || faults(left, true).Unacknowledged? then Err(()) else Ok(());
    }

    /** The payments of a page in order, until one fails. */
    method ReconcilePage(pending: seq<(Uuid, Uuid, string)>, now: nat, faults: (nat, bool) -> Outcome)
      returns (r: Result<(), ()>)
      modifies repo
      ensures Snapshot(now) == Settle(old(Snapshot(now)), P.Reconciler(pending, false), faults)
      ensures r.Ok? <==> Completes(old(Snapshot(now)), P.Reconciler(pending, false), faults)
    {
      ghost var settled := Settle(Snapshot(now), P.Reconciler(pending, false), faults);
      ghost var completes := Completes(Snapshot(now), P.Reconciler(pending, false), faults);
      for i := 0 to |pending|
        invariant Settle(Snapshot(now), P.Reconciler(pending[i..], false), faults) == settled
        invariant Completes(Snapshot(now), P.Reconciler(pending[i..], false), faults) <==> completes
      {
        assert pending[i..] == [pending[i]] + pending[i + 1..];
        var done := ReconcilePayment(pending[i], pending[i + 1..], |pending| - i, now, faults);
        if done.Err? {
          return Err(());
        }
      }
      r := Ok(());
    }

    /** One round: each payment of the page is marked, then settled; the first error ends the round, and an
        error of the query ends it at once. */
    method ReconcileOnce(reachable: bool, now: nat, faults: (nat, bool) -> Outcome)
      returns (r: Result<(), ()>, ghost page: seq<(Uuid, Uuid, string)>)
      modifies repo
      ensures if reachable then T.IsPendingPage(old(repo.Contents()), page) else page == []
      ensures Snapshot(now) == Settle(old(Snapshot(now)), P.Reconciler(page, false), faults)
      ensures r.Ok? <==> reachable && Completes(old(Snapshot(now)), P.Reconciler(page, false), faults)
    {
      if !reachable {
        return Err(()), [];
      }
      var pending := repo.PendingPayments();
      page := pending;
      r := ReconcilePage(pending, now, faults);
    }
  }

  // ----- the methods are runs of the machine -----

  /** Handling an event is a run of the machine in which only this worker moves. */
  lemma {:induction false} HandleIsRun(s: P.State, w: nat, os: Outcomes) returns (run: seq<P.Action>)
    requires w < |s.workers| && s.workers[w].batch != [] && !s.workers[w].pc.Idle?
    ensures P.IsRun(s, run)
    ensures P.After(s, run) == s.(store := Handle(s.store, s.workers[w].pc, os),
                                  workers := s.workers[w := P.Finish(s.workers[w])])
    decreases Rank(s.workers[w].pc)
  {
    var a := P.Work(w, OutcomeAt(s.workers[w].pc, os));
    var next := P.Apply(s, a);
    if next.workers[w].pc.Idle? {
      run := [a];
      P.TraceIsRun([s, next], run);
    } else {
      var rest := HandleIsRun(next, w, os);
      run := [a] + rest;
    }
  }

  /** Taking one entry off the batch and handling it is a run of the machine. */
  lemma {:induction false} EntryIsRun(s: P.State, w: nat, os: Outcomes) returns (run: seq<P.Action>)
    requires w < |s.workers| && s.workers[w].pc.Idle? && s.workers[w].batch != []
    ensures P.IsRun(s, run)
    ensures var t := P.After(s, run);
            && t.store == HandleEntry(s.store, s.workers[w].batch[0].1, os)
            && t.stream == s.stream && w < |t.workers|
            && t.workers[w].pc.Idle?
            && t.workers[w].batch == s.workers[w].batch[1..]
            && t.workers[w].cursor == s.workers[w].batch[0].0
  {
    var taken := P.Apply(s, P.Take(w));
    run := [P.Take(w)];
    P.TraceIsRun([s, taken], run);
    if s.workers[w].batch[0].1.Webhook? {
      var rest := HandleIsRun(taken, w, os);
      P.RunsCompose(s, run, rest);
      run := run + rest;
    }
  }

  /** Taking and handling the first n entries of the batch is a run of the machine. */
  lemma {:induction false} BatchIsRun(s: P.State, w: nat, n: nat, faults: nat -> Outcomes) returns (run: seq<P.Action>)
    requires w < |s.workers| && s.workers[w].pc.Idle? && n <= |s.workers[w].batch|
    ensures P.IsRun(s, run)
    ensures var t := P.After(s, run);
            && t.store == HandleAll(s.store, s.workers[w].batch[..n], faults)
            && t.stream == s.stream && w < |t.workers|
            && t.workers[w].pc.Idle?
            && t.workers[w].batch == s.workers[w].batch[n..]
            && t.workers[w].cursor == (if n == 0 then s.workers[w].cursor else s.workers[w].batch[n - 1].0)
    decreases n
  {
    if n == 0 {
      run := [];
    } else {
      var before := BatchIsRun(s, w, n - 1, faults);
      var mid := P.After(s, before);
      assert mid.workers[w].batch[0] == s.workers[w].batch[n - 1];
      assert s.workers[w].batch[..n][..n - 1] == s.workers[w].batch[..n - 1];
      var rest := EntryIsRun(mid, w, faults(n - 1));
      P.RunsCompose(s, before, rest);
      run := before + rest;
    }
  }

  /** One turn of the loop is a run of the machine: read, then take and handle each entry. The store and the
      cursor end as Poll leaves them. */
  lemma {:induction false} PollIsRun(s: P.State, w: nat, faults: nat -> Outcomes) returns (run: seq<P.Action>)
    requires P.Enabled(s, P.Read(w))
    ensures P.IsRun(s, run)
    ensures var batch := ReadAfter(s.stream, s.workers[w].cursor, P.BATCH);
            var t := P.After(s, run);
            && t.store == HandleAll(s.store, batch, faults)
            && t.stream == s.stream && w < |t.workers|
            && t.workers[w].pc.Idle? && t.workers[w].batch == []
            && t.workers[w].cursor == (if batch == [] then s.workers[w].cursor else batch[|batch| - 1].0)
  {
    var batch := ReadAfter(s.stream, s.workers[w].cursor, P.BATCH);
    var read := P.Apply(s, P.Read(w));
    run := [P.Read(w)];
    P.TraceIsRun([s, read], run);
    assert batch[..|batch|] == batch;
    var rest := BatchIsRun(read, w, |batch|, faults);
    P.RunsCompose(s, run, rest);
    run := run + rest;
  }

  /** A round is a run of the machine in which only this reconciler moves. */
  lemma {:induction false} SettleIsRun(s: P.State, r: nat, faults: (nat, bool) -> Outcome) returns (run: seq<P.Action>)
    requires r < |s.reconcilers|
    ensures P.IsRun(s, run)
    ensures P.After(s, run).store == Settle(s.store, s.reconcilers[r], faults)
    decreases |s.reconcilers[r].todo|, !s.reconcilers[r].marked
  {
    var rec := s.reconcilers[r];
    if rec.todo == [] {
      run := [];
    } else {
      var a := P.Reconcile(r, faults(|rec.todo|, rec.marked));
      var rest := SettleIsRun(P.Apply(s, a), r, faults);
      run := [a] + rest;
    }
  }

  // ----- what a confirmation is worth without consistent event ids -----

  const NO_FAULTS := Outcomes(Done, Done, Done, Done, Done)

  /** A SUCCESS event that passes the gate and the log is published. The tables then bear it out exactly when
      its order exists and no other event was logged under its id before. */
  lemma {:induction false} ConfirmsExactlyWhen(st: P.Store, e: Event)
    requires T.Constraints(st.db) && e.status.Success? && !Live(st.keys, P.KeyOf(e), st.now)
    requires T.LogTransaction(st.db, e).Ok?
    ensures var after := Handle(st, P.SettingKey(e), NO_FAULTS);
            && after.confirmed == st.confirmed + [e]
            && (T.Confirmed(after.db, e) <==>
                  && e.orderId in st.db.orders
                  && (T.HasEvent(st.db.transactions, e.gateway, e.eventId) ==> T.RowOf(e) in st.db.transactions))
  {
    var passed := P.Perform(P.Perform(st, P.SettingKey(e), Done).0, P.ExpiringKey(e), Done).0;
    assert Handle(st, P.SettingKey(e), NO_FAULTS) == Handle(passed, P.Logging(e), NO_FAULTS);
    var logged := P.Perform(passed, P.Logging(e), Done).0;
    assert Handle(passed, P.Logging(e), NO_FAULTS) == Handle(logged, P.Marking(e), NO_FAULTS);
    var marked := P.Perform(logged, P.Marking(e), Done).0;
    LastCall(marked, P.Publishing(e), NO_FAULTS);
    if !T.HasEvent(st.db.transactions, e.gateway, e.eventId) {
      assert logged.db.transactions[|st.db.transactions|] == T.RowOf(e);
    }
  }

  const NEVER_FAILS: nat -> Outcomes := _ => NO_FAULTS

  /** The one worker is between events, at the end of the stream. */
  ghost predicate Waiting(s: P.State) {
    |s.workers| == 1 && s.workers[0].pc.Idle? && s.workers[0].batch == [] && s.workers[0].cursor == |s.stream|
  }

  /** An event is delivered to a waiting worker and handled without failure. */
  lemma {:induction false} DeliveredAndHandled(s: P.State, e: Event) returns (run: seq<P.Action>)
    requires Waiting(s)
    ensures P.IsRun(s, run) && Waiting(P.After(s, run))
    ensures P.After(s, run).store == Handle(s.store, P.SettingKey(e), NO_FAULTS)
  {
    var entry := Webhook(e);
    var n, queued := |s.stream|, P.Apply(s, P.Enqueue(entry));
    P.TraceIsRun([s, queued], [P.Enqueue(entry)]);
    assert Deliverable(queued.stream, n, n) == [];
    assert ReadAfter(queued.stream, n, P.BATCH) == [(n + 1, entry)];
    var polling := PollIsRun(queued, 0, NEVER_FAILS);
    OneInBatch(s.store, (n + 1, entry), NEVER_FAILS);
    StaysAlone(queued, polling);
    P.RunsCompose(s, [P.Enqueue(entry)], polling);
    run := [P.Enqueue(entry)] + polling;
  }

  lemma {:induction false} OneInBatch(st: P.Store, n: Numbered, faults: nat -> Outcomes)
    ensures HandleAll(st, [n], faults) == HandleEntry(st, n.1, faults(0))
  {
    assert [n][..0] == [];
    assert HandleAll(st, [], faults) == st;
  }

  lemma {:induction false} StaysAlone(s: P.State, run: seq<P.Action>)
    requires P.IsRun(s, run)
    ensures |P.After(s, run).workers| == |s.workers|
    decreases |run|
  {
    if run != [] {
      StaysAlone(P.Apply(s, run[0]), run[1..]);
    }
  }

  /** An order and a payment of it are created. */
  lemma {:induction false} OpenedPayment(start: nat, order: Uuid, payment: Uuid) returns (run: seq<P.Action>)
    ensures P.IsRun(P.Initial(start, 1, 0), run) && Waiting(P.After(P.Initial(start, 1, 0), run))
    ensures var st := P.After(P.Initial(start, 1, 0), run).store;
            && st.keys == map[] && st.db.transactions == [] && st.db.payments.Keys == {payment} && st.now == start
            && T.Constraints(st.db)
  {
    var s := P.Initial(start, 1, 0);
    var first, second := P.CreateOrder(order, "", 1, ""), P.CreatePayment(payment, order, "", Upi, "");
    var s1 := P.Apply(s, first);
    var s2 := P.Apply(s1, second);
    run := [first, second];
    P.TraceIsRun([s, s1, s2], run);
  }

  /** A first delivery passes the gate. */
  lemma {:induction false} PassedOnce(st: P.Store, e: Event)
    requires st.keys == map[]
    ensures var passed := P.Perform(P.Perform(st, P.SettingKey(e), Done).0, P.ExpiringKey(e), Done).0;
            && Handle(st, P.SettingKey(e), NO_FAULTS) == Handle(passed, P.Logging(e), NO_FAULTS)
            && passed.db == st.db && passed.now == st.now
            && P.KeyOf(e) in passed.keys && passed.keys[P.KeyOf(e)] == At(st.now + TTL)
  {
    var won := P.Perform(st, P.SettingKey(e), Done).0;
    assert Handle(st, P.SettingKey(e), NO_FAULTS) == Handle(won, P.ExpiringKey(e), NO_FAULTS);
  }

  lemma {:induction false} LoggedOnce(st: P.Store, e: Event)
    requires T.Constraints(st.db) && st.db.transactions == [] && e.paymentId in st.db.payments
    ensures var after := Handle(st, P.Logging(e), NO_FAULTS);
            T.Constraints(after.db) && after.keys == st.keys && after.db.transactions == [T.RowOf(e)]
  {
    var logged := P.Perform(st, P.Logging(e), Done).0;
    assert logged.db.transactions == [T.RowOf(e)];
    if e.status.Success? {
      assert Handle(st, P.Logging(e), NO_FAULTS) == Handle(logged, P.Marking(e), NO_FAULTS);
      LastCall(P.Perform(logged, P.Marking(e), Done).0, P.Publishing(e), NO_FAULTS);
    } else {
      LastCall(st, P.Logging(e), NO_FAULTS);
    }
  }

  /** Once handled, an event whose payment exists is logged and its key expires. */
  lemma {:induction false} HandledOnce(st: P.Store, e: Event)
    requires T.Constraints(st.db) && st.keys == map[] && st.db.transactions == [] && e.paymentId in st.db.payments
    ensures var after := Handle(st, P.SettingKey(e), NO_FAULTS);
            && T.Constraints(after.db)
            && T.HasEvent(after.db.transactions, e.gateway, e.eventId)
            && P.KeyOf(e) in after.keys && after.keys[P.KeyOf(e)] == At(st.now + TTL)
  {
    PassedOnce(st, e);
    LoggedOnce(P.Perform(P.Perform(st, P.SettingKey(e), Done).0, P.ExpiringKey(e), Done).0, e);
    var after := Handle(st, P.SettingKey(e), NO_FAULTS);
    assert after.db.transactions[0].gateway == e.gateway && after.db.transactions[0].eventId == e.eventId;
  }

  /** From the start, for any two events under one id, the second a SUCCESS for another payment: the first is
      handled, its key expires, and the second is then confirmed although its payment does not exist. */
  lemma {:induction false} ReusedEventId(start: nat, first: Event, second: Event) returns (run: seq<P.Action>)
    requires first.gateway == second.gateway && first.eventId == second.eventId
    requires second.status.Success? && second.paymentId != first.paymentId
    ensures P.IsRun(P.Initial(start, 1, 0), run)
    ensures var st := P.After(P.Initial(start, 1, 0), run).store;
            && st.now == start + TTL
            && second in st.confirmed && second.paymentId !in st.db.payments
  {
    var s0 := P.Initial(start, 1, 0);
    var opening := OpenedPayment(start, first.orderId, first.paymentId);
    var s1 := P.After(s0, opening);
    var handling := DeliveredAndHandled(s1, first);
    HandledOnce(s1.store, first);
    HandlingAddsNoPayment(s1.store, P.SettingKey(first), NO_FAULTS);
    var s2 := P.After(s1, handling);
    var s3 := P.Apply(s2, P.Tick(TTL));
    P.TraceIsRun([s2, s3], [P.Tick(TTL)]);
    var confirming := DeliveredAndHandled(s3, second);
    ConfirmsExactlyWhen(s3.store, second);
    HandlingAddsNoPayment(s3.store, P.SettingKey(second), NO_FAULTS);
    P.RunsCompose(s2, [P.Tick(TTL)], confirming);
    P.RunsCompose(s1, handling, [P.Tick(TTL)] + confirming);
    P.RunsCompose(s0, opening, handling + ([P.Tick(TTL)] + confirming));
    run := opening + (handling + ([P.Tick(TTL)] + confirming));
  }

  lemma {:induction false} HandlingAddsNoPayment(st: P.Store, pc: P.Pc, os: Outcomes)
    ensures Handle(st, pc, os).db.payments.Keys == st.db.payments.Keys
    ensures Handle(st, pc, os).now == st.now
    decreases Rank(pc)
  {
    if !pc.Idle? {
      var (after, next) := P.Perform(st, pc, OutcomeAt(pc, os));
      HandlingAddsNoPayment(after, next, os);
    }
  }

  // ----- what the reconciler does with a failed payment -----

  /** A FAILED webhook is logged and leaves its payment pending, so a later round marks it SUCCESS, its order
      PAID and settles it. */
  lemma {:induction false} FailedPaymentIsReconciled(st: P.Store, e: Event, faults: (nat, bool) -> Outcome)
    requires T.Constraints(st.db) && e.status.Failed? && T.IsPending(st.db, e.paymentId)
    requires st.db.payments[e.paymentId].orderId == e.orderId
    requires faults(1, false).Done? && faults(1, true).Done?
    ensures var handled := Handle(st, P.SettingKey(e), NO_FAULTS);
            && T.IsPending(handled.db, e.paymentId)
            && var row := (e.paymentId, e.orderId, st.db.payments[e.paymentId].gateway);
            var after := Settle(handled, P.Reconciler([row], false), faults);
            && T.IsSuccess(after.db, e.paymentId) && T.IsPaid(after.db, e.orderId)
            && T.HasReference(after.db.settlements, T.SettlementReference(e.paymentId))
  {
    var handled := Handle(st, P.SettingKey(e), NO_FAULTS);
    if Live(st.keys, P.KeyOf(e), st.now) {
      LastCall(st, P.SettingKey(e), NO_FAULTS);
    } else {
      var won := P.Perform(st, P.SettingKey(e), Done).0;
      assert handled == Handle(won, P.ExpiringKey(e), NO_FAULTS);
      var passed := P.Perform(won, P.ExpiringKey(e), Done).0;
      assert handled == Handle(passed, P.Logging(e), NO_FAULTS);
      LastCall(passed, P.Logging(e), NO_FAULTS);
    }
    assert handled.db.payments == st.db.payments && handled.db.orders == st.db.orders;
    var row := (e.paymentId, e.orderId, st.db.payments[e.paymentId].gateway);
    var marked := P.PerformRound(handled, P.Reconciler([row], false), Done).0;
    var settled := P.PerformRound(marked, P.Reconciler([row], true), Done);
    assert Settle(handled, P.Reconciler([row], false), faults) == Settle(settled.0, settled.1, faults);
    assert settled.1.todo == [];
    if !T.HasReference(marked.db.settlements, T.SettlementReference(e.paymentId)) {
      assert settled.0.db.settlements[|marked.db.settlements|].reference == T.SettlementReference(e.paymentId);
    }
  }
}
