/** How often one idempotency key can be won, and that confirmations never outnumber the wins. Nothing is
    assumed about the events, the failures or the number of workers. */
module PipelineMarks {
  import opened Common
  import opened Faults
  import opened Payments
  import opened Idempotency
  import opened WebhookQueue
  import opened Pipeline
  import T = Tables

  function Wins(marks: seq<Mark>, key: string): nat {
    if marks == [] then 0
    else Wins(marks[..|marks| - 1], key) + (if marks[|marks| - 1].key == key then 1 else 0)
  }

  function LastWin(marks: seq<Mark>, key: string): (t: nat)
    requires Wins(marks, key) > 0
  {
    var last := marks[|marks| - 1];
    if last.key == key then last.time else LastWin(marks[..|marks| - 1], key)
  }

  function Confirmations(confirmed: seq<Event>, key: string): nat {
    if confirmed == [] then 0
    else Confirmations(confirmed[..|confirmed| - 1], key) + (if KeyOf(confirmed[|confirmed| - 1]) == key then 1 else 0)
  }

  lemma WinsOfAppended(marks: seq<Mark>, m: Mark, key: string)
    ensures Wins(marks + [m], key) == Wins(marks, key) + (if m.key == key then 1 else 0)
    ensures Wins(marks + [m], key) > 0 ==>
              LastWin(marks + [m], key) == if m.key == key then m.time else LastWin(marks, key)
  {
    assert (marks + [m])[..|marks|] == marks;
  }

  lemma ConfirmationsOfAppended(confirmed: seq<Event>, e: Event, key: string)
    ensures Confirmations(confirmed + [e], key) == Confirmations(confirmed, key) + (if KeyOf(e) == key then 1 else 0)
  {
    assert (confirmed + [e])[..|confirmed|] == confirmed;
  }

  // ----- spacing of the wins of one key -----

  /** The earliest time of the n-th win when wins are a time to live apart. */
  function EarliestWin(start: nat, n: nat): nat {
    if n <= 1 then start else EarliestWin(start, n - 1) + TTL
  }

  lemma {:induction false} EarliestWinIs(start: nat, n: nat)
    requires n >= 1
    ensures EarliestWin(start, n) == start + (n - 1) * TTL
  {
    if n > 1 {
      EarliestWinIs(start, n - 1);
    }
  }

  /** The wins of a key are at least a time to live apart, and its entry outlives the last of them by one. */
  ghost predicate Spaced(st: Store, key: string, start: nat) {
    && start <= st.now
    && (Wins(st.marks, key) > 0 ==>
          var t := LastWin(st.marks, key);
          && EarliestWin(start, Wins(st.marks, key)) <= t <= st.now
          && key in st.keys
          && (st.keys[key].At? ==> t + TTL <= st.keys[key].time))
  }

  /** A key is won only when its entry has run out, which is a time to live after the last win. */
  lemma GateKeepsSpacing(st: Store, e: Event, outcome: Outcome, key: string, start: nat)
    requires Spaced(st, key, start)
    ensures Spaced(Perform(st, SettingKey(e), outcome).0, key, start)
  {
    WinsOfAppended(st.marks, Mark(KeyOf(e), st.now), key);
  }

  lemma PerformKeepsSpacing(st: Store, pc: Pc, outcome: Outcome, key: string, start: nat)
    requires !pc.Idle? && Spaced(st, key, start)
    ensures Spaced(Perform(st, pc, outcome).0, key, start)
  {
    if pc.SettingKey? {
      GateKeepsSpacing(st, pc.event, outcome, key, start);
    }
  }

  lemma StepKeepsSpacing(s: State, a: Action, key: string, start: nat)
    requires Enabled(s, a) && Spaced(s.store, key, start)
    ensures Spaced(Apply(s, a).store, key, start)
  {
    if a.Work? {
      PerformKeepsSpacing(s.store, s.workers[a.w].pc, a.outcome, key, start);
    }
  }

  lemma {:induction false} RunKeepsSpacing(s: State, run: seq<Action>, key: string, start: nat)
    requires IsRun(s, run) && Spaced(s.store, key, start)
    ensures Spaced(After(s, run).store, key, start)
    decreases |run|
  {
    if run != [] {
      StepKeepsSpacing(s, run[0], key, start);
      RunKeepsSpacing(Apply(s, run[0]), run[1..], key, start);
    }
  }

  // ----- confirmations against wins -----

  predicate Carries(pc: Pc, key: string) {
    (pc.ExpiringKey? || pc.Logging? || pc.Marking? || pc.Publishing?) && KeyOf(pc.event) == key
  }

  /** The workers between winning the key and finishing with it. */
  function Carriers(workers: seq<Worker>, key: string): set<nat> {
    set w: nat | w < |workers| && Carries(workers[w].pc, key)
  }

  /** Every confirmation, and every worker still on its way to one, has a win of its own. */
  ghost predicate Accounted(s: State, key: string) {
    Confirmations(s.store.confirmed, key) + |Carriers(s.workers, key)| <= Wins(s.store.marks, key)
  }

  lemma CarriersAfter(workers: seq<Worker>, w: nat, worker: Worker, key: string)
    requires w < |workers|
    ensures Carriers(workers[w := worker], key) ==
            Carriers(workers, key) - {w} + (if Carries(worker.pc, key) then {w} else {})
    ensures |Carriers(workers[w := worker], key)| ==
            |Carriers(workers, key)|
            - (if Carries(workers[w].pc, key) then 1 else 0) + (if Carries(worker.pc, key) then 1 else 0)
  {
    var before := Carriers(workers, key);
    assert Carriers(workers[w := worker], key) == before - {w} + (if Carries(worker.pc, key) then {w} else {});
    assert w in before <==> Carries(workers[w].pc, key);
  }

  /** A call that wins the key starts carrying it, and a confirmation ends that. */
  lemma PerformBalances(st: Store, pc: Pc, outcome: Outcome, key: string)
    requires !pc.Idle?
    ensures var (after, next) := Perform(st, pc, outcome);
            Confirmations(after.confirmed, key) + (if Carries(next, key) then 1 else 0) + Wins(st.marks, key)
            <= Confirmations(st.confirmed, key) + (if Carries(pc, key) then 1 else 0) + Wins(after.marks, key)
  {
    if pc.SettingKey? {
      WinsOfAppended(st.marks, Mark(KeyOf(pc.event), st.now), key);
    } else if pc.Publishing? {
      ConfirmationsOfAppended(st.confirmed, pc.event, key);
    }
  }

  lemma WorkIsAccounted(s: State, w: nat, outcome: Outcome, key: string)
    requires Enabled(s, Work(w, outcome)) && Accounted(s, key)
    ensures Accounted(Apply(s, Work(w, outcome)), key)
  {
    var next := Proceed(s.workers[w], Perform(s.store, s.workers[w].pc, outcome).1);
    PerformBalances(s.store, s.workers[w].pc, outcome, key);
    CarriersAfter(s.workers, w, next, key);
  }

  /** Read, Take and Crash leave the worker outside the carrying stages. */
  lemma MovingIsAccounted(s: State, w: nat, worker: Worker, key: string)
    requires w < |s.workers| && Accounted(s, key)
    requires worker.pc.Idle? || worker.pc.SettingKey?
    ensures Accounted(s.(workers := s.workers[w := worker]), key)
  {
    CarriersAfter(s.workers, w, worker, key);
  }

  lemma StepIsAccounted(s: State, a: Action, key: string)
    requires Enabled(s, a) && Accounted(s, key)
    ensures Accounted(Apply(s, a), key)
  {
    if a.Work? {
      WorkIsAccounted(s, a.w, a.outcome, key);
    } else if a.Read? || a.Take? || a.Crash? {
      MovingIsAccounted(s, a.w, Apply(s, a).workers[a.w], key);
    } else if a.Reconcile? {
      assert Apply(s, a).workers == s.workers;
    }
  }

  lemma {:induction false} RunIsAccounted(s: State, run: seq<Action>, key: string)
    requires IsRun(s, run) && Accounted(s, key)
    ensures Accounted(After(s, run), key)
    decreases |run|
  {
    if run != [] {
      StepIsAccounted(s, run[0], key);
      RunIsAccounted(Apply(s, run[0]), run[1..], key);
    }
  }

  // ----- the bound -----

  lemma FitsIn(n: nat, d: nat)
    requires n * TTL <= d
    ensures n <= d / TTL
  {
  }

  /** Over a run of D milliseconds from an empty key store, one key is won at most floor(D / TTL) + 1 times,
      and the confirmations of its events are at most as many. */
  lemma MarksAreBounded(start: nat, workers: nat, reconcilers: nat, run: seq<Action>, key: string)
    requires IsRun(Initial(start, workers, reconcilers), run)
    ensures var st := After(Initial(start, workers, reconcilers), run).store;
            && start <= st.now
            && Wins(st.marks, key) <= (st.now - start) / 3_600_000 + 1
            && Confirmations(st.confirmed, key) <= Wins(st.marks, key)
  {
    var s := Initial(start, workers, reconcilers);
    assert Carriers(s.workers, key) == {};
    RunKeepsSpacing(s, run, key, start);
    RunIsAccounted(s, run, key);
    var st := After(s, run).store;
    if Wins(st.marks, key) > 0 {
      var n := Wins(st.marks, key) - 1;
      EarliestWinIs(start, n + 1);
      FitsIn(n, st.now - start);
    }
  }

  // ----- when the id of a logged event passes the gate again -----

  /** Whoever has been past the gate with an event, and whatever was logged, has set the key, and won it. */
  ghost predicate Keyed(s: State) {
    && (forall i :: 0 <= i < |s.store.db.transactions| ==>
          && s.store.db.transactions[i] == T.RowOf(s.store.db.transactions[i].raw)
          && KeyOf(s.store.db.transactions[i].raw) in s.store.keys)
    && (forall w :: 0 <= w < |s.workers| && (s.workers[w].pc.ExpiringKey? || s.workers[w].pc.Logging?) ==>
          KeyOf(s.workers[w].pc.event) in s.store.keys)
    && (forall key :: key in s.store.keys ==> Wins(s.store.marks, key) > 0)
  }

  lemma CallStaysKeyed(st: Store, pc: Pc, outcome: Outcome)
    requires !pc.Idle?
    requires pc.ExpiringKey? || pc.Logging? ==> KeyOf(pc.event) in st.keys
    requires forall key :: key in st.keys ==> Wins(st.marks, key) > 0
    ensures var (after, next) := Perform(st, pc, outcome);
            && st.keys.Keys <= after.keys.Keys
            && (forall key :: key in after.keys ==> Wins(after.marks, key) > 0)
            && (next.ExpiringKey? || next.Logging? ==> KeyOf(next.event) in after.keys)
            && (after.db.transactions == st.db.transactions
                || (after.db.transactions == st.db.transactions + [T.RowOf(pc.event)] && KeyOf(pc.event) in after.keys))
  {
    if pc.SettingKey? {
      forall key { WinsOfAppended(st.marks, Mark(KeyOf(pc.event), st.now), key); }
    }
  }

  lemma WorkStaysKeyed(s: State, w: nat, outcome: Outcome)
    requires Enabled(s, Work(w, outcome)) && Keyed(s)
    ensures Keyed(Apply(s, Work(w, outcome)))
  {
    var after := Apply(s, Work(w, outcome));
    CallStaysKeyed(s.store, s.workers[w].pc, outcome);
    forall v | 0 <= v < |after.workers| && (after.workers[v].pc.ExpiringKey? || after.workers[v].pc.Logging?)
      ensures KeyOf(after.workers[v].pc.event) in after.store.keys
    {
      if v != w {
        assert after.workers[v] == s.workers[v];
      }
    }
    forall i | 0 <= i < |after.store.db.transactions|
      ensures after.store.db.transactions[i] == T.RowOf(after.store.db.transactions[i].raw)
      ensures KeyOf(after.store.db.transactions[i].raw) in after.store.keys
    {
      if i < |s.store.db.transactions| {
        assert after.store.db.transactions[i] == s.store.db.transactions[i];
      } else {
        assert after.store.db.transactions[i] == T.RowOf(s.workers[w].pc.event);
      }
    }
  }

  lemma StepStaysKeyed(s: State, a: Action)
    requires Enabled(s, a) && Keyed(s)
    ensures Keyed(Apply(s, a))
  {
    if a.Work? {
      WorkStaysKeyed(s, a.w, a.outcome);
    } else if a.Reconcile? {
      assert Apply(s, a).store.db.transactions == s.store.db.transactions;
    }
  }

  lemma {:induction false} RunStaysKeyed(s: State, run: seq<Action>)
    requires IsRun(s, run) && Keyed(s)
    ensures Keyed(After(s, run))
    decreases |run|
  {
    if run != [] {
      StepStaysKeyed(s, run[0]);
      RunStaysKeyed(Apply(s, run[0]), run[1..]);
    }
  }

  /** In every reachable state the gate is open for an event whose id was logged before only if a time to live
      has passed since the start, and the key's expiry with it. */
  lemma ReuseTakesTheTimeToLive(start: nat, workers: nat, reconcilers: nat, run: seq<Action>, e: Event)
    requires IsRun(Initial(start, workers, reconcilers), run)
    ensures var st := After(Initial(start, workers, reconcilers), run).store;
            T.HasEvent(st.db.transactions, e.gateway, e.eventId) && !Live(st.keys, KeyOf(e), st.now) ==>
              && KeyOf(e) in st.keys && st.keys[KeyOf(e)].At? && start + 3_600_000 <= st.keys[KeyOf(e)].time <= st.now
  {
    var s := Initial(start, workers, reconcilers);
    RunStaysKeyed(s, run);
    RunKeepsSpacing(s, run, KeyOf(e), start);
    var st := After(s, run).store;
    if i :| 0 <= i < |st.db.transactions| && st.db.transactions[i].gateway == e.gateway && st.db.transactions[i].eventId == e.eventId {
      assert KeyOf(st.db.transactions[i].raw) == KeyOf(e);
      StartBeforeEarliest(start, Wins(st.marks, KeyOf(e)));
    }
  }

  lemma {:induction false} StartBeforeEarliest(start: nat, n: nat)
    ensures start <= EarliestWin(start, n)
  {
    if n > 1 {
      StartBeforeEarliest(start, n - 1);
    }
  }

  // ----- the bound is attained -----

  /** One worker, at rest at the end of the stream, for which the key of `e` is free. */
  ghost predicate ReadyToWin(s: State, e: Event) {
    && |s.workers| == 1
    && s.workers[0].pc == Idle && s.workers[0].batch == [] && s.workers[0].cursor == |s.stream|
    && !Live(s.store.keys, KeyOf(e), s.store.now)
  }

  /** The event is delivered once more and reaches the gate. */
  function DeliveringRun(e: Event): seq<Action> {
    [Enqueue(Webhook(e)), Read(0), Take(0)]
  }

  /** It wins its key, and the call that logs it fails. */
  const WINNING_RUN: seq<Action> := [Work(0, Done), Work(0, Done), Work(0, Lost)]

  lemma ThreeSteps(s: State, s1: State, s2: State, s3: State, a: Action, b: Action, c: Action)
    requires Enabled(s, a) && s1 == Apply(s, a) && Enabled(s1, b) && s2 == Apply(s1, b) && Enabled(s2, c) && s3 == Apply(s2, c)
    ensures IsRun(s, [a, b, c]) && After(s, [a, b, c]) == s3
  {
    TraceIsRun([s, s1, s2, s3], [a, b, c]);
  }

  lemma DeliverOnce(s: State, e: Event)
    requires ReadyToWin(s, e)
    ensures IsRun(s, DeliveringRun(e))
    ensures var t := After(s, DeliveringRun(e));
            && t.store == s.store
            && |t.workers| == 1 && |t.stream| == |s.stream| + 1
            && t.workers[0].pc == SettingKey(e) && t.workers[0].batch == [(|t.stream|, Webhook(e))]
  {
    var run := DeliveringRun(e);
    var n := |s.stream|;
    var s1 := Apply(s, run[0]);
    assert Deliverable(s1.stream, n, n) == [];
    assert Deliverable(s1.stream, n, n + 1) == [(n + 1, Webhook(e))];
    var s2 := Apply(s1, run[1]);
    var s3 := Apply(s2, run[2]);
    ThreeSteps(s, s1, s2, s3, run[0], run[1], run[2]);
  }

  function StoreAfterWin(st: Store, e: Event): Store {
    Perform(Perform(st, SettingKey(e), Done).0, ExpiringKey(e), Done).0
  }

  /** SETNX wins a free key and EXPIRE gives it its time to live. */
  lemma WinningCalls(st: Store, e: Event)
    requires !Live(st.keys, KeyOf(e), st.now)
    ensures var kept := StoreAfterWin(st, e);
            && kept.now == st.now
            && KeyOf(e) in kept.keys && kept.keys[KeyOf(e)] == At(st.now + TTL)
            && Wins(kept.marks, KeyOf(e)) == Wins(st.marks, KeyOf(e)) + 1
  {
    WinsOfAppended(st.marks, Mark(KeyOf(e), st.now), KeyOf(e));
  }

  /** The one worker has made a call. */
  function Worked(s: State, store: Store, pc: Pc): State
    requires |s.workers| == 1 && s.workers[0].batch != []
  {
    s.(store := store, workers := [Proceed(s.workers[0], pc)])
  }

  lemma WorkedIs(s: State, outcome: Outcome)
    requires |s.workers| == 1 && s.workers[0].batch != [] && !s.workers[0].pc.Idle?
    ensures Enabled(s, Work(0, outcome))
    ensures var (store, pc) := Perform(s.store, s.workers[0].pc, outcome);
            Apply(s, Work(0, outcome)) == Worked(s, store, pc)
  {
  }

  lemma WinningRunEnds(s: State, e: Event)
    requires |s.workers| == 1 && !Live(s.store.keys, KeyOf(e), s.store.now)
    requires s.workers[0].pc == SettingKey(e) && s.workers[0].batch != []
    ensures IsRun(s, WINNING_RUN)
    ensures After(s, WINNING_RUN) == Worked(s, StoreAfterWin(s.store, e), Idle)
  {
    var won := Perform(s.store, SettingKey(e), Done).0;
    var kept := StoreAfterWin(s.store, e);
    WorkedIs(s, Done);
    var s1 := Worked(s, won, ExpiringKey(e));
    WorkedIs(s1, Done);
    var s2 := Worked(s1, kept, Logging(e));
    WorkedIs(s2, Lost);
    ThreeSteps(s, s1, s2, Worked(s2, kept, Idle), Work(0, Done), Work(0, Done), Work(0, Lost));
  }

  lemma WinOnce(s: State, e: Event, id: nat)
    requires |s.workers| == 1 && !Live(s.store.keys, KeyOf(e), s.store.now)
    requires s.workers[0].pc == SettingKey(e) && s.workers[0].batch == [(id, Webhook(e))] && id == |s.stream|
    ensures IsRun(s, WINNING_RUN)
    ensures var t := After(s, WINNING_RUN);
            && |t.workers| == 1
            && t.workers[0].pc == Idle && t.workers[0].batch == [] && t.workers[0].cursor == |t.stream|
            && t.store.now == s.store.now
            && KeyOf(e) in t.store.keys && t.store.keys[KeyOf(e)] == At(s.store.now + TTL)
            && Wins(t.store.marks, KeyOf(e)) == Wins(s.store.marks, KeyOf(e)) + 1
  {
    WinningRunEnds(s, e);
    WinningCalls(s.store, e);
  }

  lemma DeliverAndWin(s: State, e: Event) returns (run: seq<Action>)
    requires ReadyToWin(s, e)
    ensures IsRun(s, run)
    ensures var t := After(s, run);
            && ReadyToWin(t.(store := t.store.(now := s.store.now + TTL)), e)
            && t.store.now == s.store.now
            && Wins(t.store.marks, KeyOf(e)) == Wins(s.store.marks, KeyOf(e)) + 1
  {
    DeliverOnce(s, e);
    WinOnce(After(s, DeliveringRun(e)), e, |s.stream| + 1);
    RunsCompose(s, DeliveringRun(e), WINNING_RUN);
    run := DeliveringRun(e) + WINNING_RUN;
  }

  lemma InitialIsReady(e: Event, start: nat)
    ensures ReadyToWin(Initial(start, 1, 0), e)
    ensures Initial(start, 1, 0).store.marks == []
  {
  }

  /** Waiting for a time to live. */
  lemma WaitToWin(s: State, e: Event)
    requires ReadyToWin(s.(store := s.store.(now := s.store.now + TTL)), e)
    ensures Enabled(s, Tick(TTL)) && ReadyToWin(Apply(s, Tick(TTL)), e)
    ensures Apply(s, Tick(TTL)).store == s.store.(now := s.store.now + TTL)
  {
  }

  /** For every n there is a run of (n - 1) times to live in which one key is won n times. */
  lemma {:induction false} MarkBoundIsAttained(e: Event, start: nat, n: nat) returns (run: seq<Action>)
    requires n > 0
    ensures IsRun(Initial(start, 1, 0), run)
    ensures var st := After(Initial(start, 1, 0), run).store;
            st.now - start == (n - 1) * 3_600_000 && Wins(st.marks, KeyOf(e)) == n
    ensures var t := After(Initial(start, 1, 0), run);
            ReadyToWin(t.(store := t.store.(now := t.store.now + 3_600_000)), e)
  {
    var s := Initial(start, 1, 0);
    if n == 1 {
      InitialIsReady(e, start);
      run := DeliverAndWin(s, e);
    } else {
      var before := MarkBoundIsAttained(e, start, n - 1);
      WaitToWin(After(s, before), e);
      RunExtends(s, before, Tick(TTL));
      var waited := before + [Tick(TTL)];
      var more := DeliverAndWin(After(s, waited), e);
      RunsCompose(s, waited, more);
      run := waited + more;
    }
  }

  // ----- a key that never expires -----

  /** Worker w has won the key and is about to give it its time to live. */
  predicate Expiring(s: State, w: nat, key: string) {
    w < |s.workers| && s.workers[w].pc.ExpiringKey? && KeyOf(s.workers[w].pc.event) == key
  }

  /** The key was set, but nobody will give it a time to live any more. */
  ghost predicate Abandoned(s: State, key: string) {
    key in s.store.keys && s.store.keys[key].Never? && forall w :: !Expiring(s, w, key)
  }

  lemma OthersKeepExpiring(s: State, a: Action, w: nat, key: string)
    requires Enabled(s, a) && !((a.Work? || a.Crash?) && a.w == w)
    ensures Expiring(Apply(s, a), w, key) <==> Expiring(s, w, key)
  {
  }

  /** A call that is not the key's EXPIRE leaves a key without expiry as it is, and does not win it. */
  lemma CallKeepsAbandoned(st: Store, pc: Pc, outcome: Outcome, key: string)
    requires !pc.Idle? && key in st.keys && st.keys[key].Never? && !(pc.ExpiringKey? && KeyOf(pc.event) == key)
    ensures var (after, next) := Perform(st, pc, outcome);
            && key in after.keys && after.keys[key].Never?
            && Wins(after.marks, key) == Wins(st.marks, key)
            && !(next.ExpiringKey? && KeyOf(next.event) == key)
  {
    if pc.SettingKey? {
      WinsOfAppended(st.marks, Mark(KeyOf(pc.event), st.now), key);
    }
  }

  lemma WorkStaysAbandoned(s: State, w: nat, outcome: Outcome, key: string)
    requires Enabled(s, Work(w, outcome)) && Abandoned(s, key)
    ensures Abandoned(Apply(s, Work(w, outcome)), key)
    ensures Wins(Apply(s, Work(w, outcome)).store.marks, key) == Wins(s.store.marks, key)
  {
    assert !Expiring(s, w, key);
    CallKeepsAbandoned(s.store, s.workers[w].pc, outcome, key);
    forall v: nat | v != w { OthersKeepExpiring(s, Work(w, outcome), v, key); }
  }

  lemma StepStaysAbandoned(s: State, a: Action, key: string)
    requires Enabled(s, a) && Abandoned(s, key)
    ensures Abandoned(Apply(s, a), key)
    ensures Wins(Apply(s, a).store.marks, key) == Wins(s.store.marks, key)
  {
    if a.Work? {
      WorkStaysAbandoned(s, a.w, a.outcome, key);
    } else {
      forall w
        ensures Expiring(Apply(s, a), w, key) ==> Expiring(s, w, key)
      {
      }
    }
  }

  /** From then on, and however long the run, no delivery of an event with that key passes the gate again. */
  lemma {:induction false} AbandonedForEver(s: State, run: seq<Action>, key: string)
    requires IsRun(s, run) && Abandoned(s, key)
    ensures Abandoned(After(s, run), key)
    ensures Wins(After(s, run).store.marks, key) == Wins(s.store.marks, key)
    decreases |run|
  {
    if run != [] {
      StepStaysAbandoned(s, run[0], key);
      AbandonedForEver(Apply(s, run[0]), run[1..], key);
    }
  }

  /** A handler at work has its event at the head of the batch. */
  ghost predicate BusyHaveBatches(s: State) {
    forall w :: 0 <= w < |s.workers| && !s.workers[w].pc.Idle? ==> s.workers[w].batch != []
  }

  ghost predicate LiveAfter(s: State, run: seq<Action>, key: string)
    requires IsRun(s, run)
  {
    Live(After(s, run).store.keys, key, After(s, run).store.now)
  }

  /** Waiting frees a key that has an expiry. */
  lemma ExpiryRunsOut(s: State, key: string) returns (run: seq<Action>)
    requires key in s.store.keys ==> s.store.keys[key].At?
    ensures IsRun(s, run) && !LiveAfter(s, run, key)
  {
    var wait := if key in s.store.keys then s.store.keys[key].time else 0;
    var after := Apply(s, Tick(wait));
    run := [Tick(wait)];
    TraceIsRun([s, after], run);
  }

  /** Unless a key is abandoned it can become free again: whoever is about to give it its expiry does so, and
      the expiry runs out. */
  lemma FreedUnlessAbandoned(s: State, key: string) returns (run: seq<Action>)
    requires BusyHaveBatches(s) && !Abandoned(s, key)
    ensures IsRun(s, run) && !LiveAfter(s, run, key)
  {
    if key in s.store.keys && s.store.keys[key].Never? {
      var w: nat :| Expiring(s, w, key);
      var expired := Apply(s, Work(w, Done));
      TraceIsRun([s, expired], [Work(w, Done)]);
      var rest := ExpiryRunsOut(expired, key);
      RunsCompose(s, [Work(w, Done)], rest);
      run := [Work(w, Done)] + rest;
    } else {
      run := ExpiryRunsOut(s, key);
    }
  }

  ghost predicate LiveForEver(s: State, key: string) {
    forall run :: IsRun(s, run) ==> LiveAfter(s, run, key)
  }

  /** In every reachable state a key is abandoned exactly when no continuation ever frees it. */
  lemma AbandonedExactly(start: nat, workers: nat, reconcilers: nat, run: seq<Action>, key: string)
    requires IsRun(Initial(start, workers, reconcilers), run)
    ensures var s := After(Initial(start, workers, reconcilers), run);
            Abandoned(s, key) <==> LiveForEver(s, key)
  {
    var s := After(Initial(start, workers, reconcilers), run);
    RunKeepsBatches(Initial(start, workers, reconcilers), run);
    if Abandoned(s, key) {
      forall more | IsRun(s, more)
        ensures LiveAfter(s, more, key)
      {
        AbandonedForEver(s, more, key);
      }
    } else {
      var freeing := FreedUnlessAbandoned(s, key);
      assert IsRun(s, freeing) && !LiveAfter(s, freeing, key);
    }
  }

  lemma {:induction false} RunKeepsBatches(s: State, run: seq<Action>)
    requires IsRun(s, run) && BusyHaveBatches(s)
    ensures BusyHaveBatches(After(s, run))
    decreases |run|
  {
    if run != [] {
      RunKeepsBatches(Apply(s, run[0]), run[1..]);
    }
  }

  /** Exactly the steps that abandon a key: with no other worker about to give it its expiry, its SETNX takes
      effect without a reply, or between SETNX and EXPIRE its worker restarts or the EXPIRE is lost. */
  ghost predicate Abandons(s: State, a: Action, key: string) {
    && (a.Work? || a.Crash?) && a.w < |s.workers|
    && (forall v :: v != a.w ==> !Expiring(s, v, key))
    && if Expiring(s, a.w, key)
       then key in s.store.keys && s.store.keys[key].Never? && (a.Crash? || a.outcome.Lost?)
       else a.Work? && a.outcome.Unacknowledged? && s.workers[a.w].pc.SettingKey? && KeyOf(s.workers[a.w].pc.event) == key
            && !Live(s.store.keys, key, s.store.now)
  }

  lemma WorkAbandonsWhen(s: State, w: nat, outcome: Outcome, key: string)
    requires Enabled(s, Work(w, outcome)) && !Abandoned(s, key)
    ensures Abandoned(Apply(s, Work(w, outcome)), key) <==> Abandons(s, Work(w, outcome), key)
  {
    var a, after := Work(w, outcome), Apply(s, Work(w, outcome));
    forall v: nat | v != w { OthersKeepExpiring(s, a, v, key); }
    assert Expiring(after, w, key) <==> after.workers[w].pc.ExpiringKey? && KeyOf(after.workers[w].pc.event) == key;
  }

  lemma AbandonsWhen(s: State, a: Action, key: string)
    requires Enabled(s, a) && !Abandoned(s, key)
    ensures Abandoned(Apply(s, a), key) <==> Abandons(s, a, key)
  {
    var after := Apply(s, a);
    if a.Work? {
      WorkAbandonsWhen(s, a.w, a.outcome, key);
    } else if a.Crash? {
      forall v: nat | v != a.w { OthersKeepExpiring(s, a, v, key); }
      assert !Expiring(after, a.w, key);
    } else {
      forall v: nat { OthersKeepExpiring(s, a, v, key); }
      assert after.store.keys == s.store.keys;
    }
  }

  /** The three ways to end in it, after the event has been delivered. */
  predicate EndsAbandoned(last: seq<Action>) {
    last == [Work(0, Unacknowledged)] || last == [Work(0, Done), Work(0, Lost)] || last == [Work(0, Done), Crash(0)]
  }

  /** In the gate, each of them leads there. */
  lemma EndsInAbandoned(t: State, e: Event, last: seq<Action>)
    requires EndsAbandoned(last) && |t.workers| == 1 && t.workers[0].pc == SettingKey(e) && t.workers[0].batch != []
    requires !Live(t.store.keys, KeyOf(e), t.store.now)
    ensures IsRun(t, last) && Abandoned(After(t, last), KeyOf(e))
  {
    WorkedIs(t, last[0].outcome);
    var u := Apply(t, last[0]);
    if |last| == 1 {
      AbandonsWhen(t, last[0], KeyOf(e));
      TraceIsRun([t, u], last);
    } else {
      assert Expiring(u, 0, KeyOf(e)) && u.workers[0].batch != [];
      AbandonsWhen(u, last[1], KeyOf(e));
      TraceIsRun([t, u, Apply(u, last[1])], last);
    }
  }

  /** Each of them is reached: from the start the key of any event can be abandoned on its first delivery. */
  lemma AbandonedIsReached(e: Event, start: nat, last: seq<Action>)
    requires EndsAbandoned(last)
    ensures IsRun(Initial(start, 1, 0), DeliveringRun(e) + last)
    ensures Abandoned(After(Initial(start, 1, 0), DeliveringRun(e) + last), KeyOf(e))
  {
    var s := Initial(start, 1, 0);
    InitialIsReady(e, start);
    DeliverOnce(s, e);
    EndsInAbandoned(After(s, DeliveringRun(e)), e, last);
    RunsCompose(s, DeliveringRun(e), last);
  }
}
