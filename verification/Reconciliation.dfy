/** How long a pending payment can wait for the reconciler, which looks at the 100 oldest pending payments a
    round, while payments keep arriving and workers keep marking. */
module Reconciliation {
  import opened Common
  import opened Faults
  import opened Payments
  import opened Pipeline
  import T = Tables

  /** The pending payments older than p. */
  ghost function Ahead(db: T.Tables, p: Uuid): set<Uuid>
    requires p in db.payments
  {
    set q | q in db.payments && T.IsPending(db, q) && db.payments[q].createdAt < db.payments[p].createdAt
  }

  ghost function PendingSet(db: T.Tables): set<Uuid> {
    set q | q in db.payments && T.IsPending(db, q)
  }

  ghost predicate DistinctTimes(db: T.Tables) {
    forall p, q :: p in db.payments && q in db.payments && p != q ==> db.payments[p].createdAt != db.payments[q].createdAt
  }

  /** Rows only grow, and payments that were not there before are newer than all that were. */
  ghost predicate Follows(a: T.Tables, b: T.Tables) {
    && T.Grows(a, b)
    && (forall p, q :: p in a.payments && q in b.payments && q !in a.payments ==>
          a.payments[p].createdAt < b.payments[q].createdAt)
    && (DistinctTimes(a) ==> DistinctTimes(b))
  }

  /** No payment is created in the same instant as an earlier one. */
  ghost predicate Staggered(s: State, a: Action) {
    a.CreatePayment? ==> forall p :: p in s.store.db.payments ==> s.store.db.payments[p].createdAt < s.store.now
  }

  ghost predicate StaggeredRun(s: State, run: seq<Action>)
    requires IsRun(s, run)
    decreases |run|
  {
    run == [] || (Staggered(s, run[0]) && StaggeredRun(Apply(s, run[0]), run[1..]))
  }

  lemma StepFollows(s: State, a: Action)
    requires Enabled(s, a) && Staggered(s, a)
    ensures Follows(s.store.db, Apply(s, a).store.db)
  {
    StepGrows(s, a);
    if a.Work? {
      PerformAddsNoPayment(s.store, s.workers[a.w].pc, a.outcome);
    }
  }

  lemma PerformAddsNoPayment(st: Store, pc: Pc, outcome: Outcome)
    requires !pc.Idle?
    ensures Perform(st, pc, outcome).0.db.payments.Keys == st.db.payments.Keys
  {
  }

  lemma {:induction false} RunFollows(s: State, run: seq<Action>)
    requires IsRun(s, run) && StaggeredRun(s, run)
    ensures Follows(s.store.db, After(s, run).store.db)
    decreases |run|
  {
    if run != [] {
      StepFollows(s, run[0]);
      RunFollows(Apply(s, run[0]), run[1..]);
    }
  }

  // ----- one error-free round -----

  /** While the round lasts the reconciler's calls succeed and it is not restarted. */
  ghost predicate ErrorFree(r: nat, a: Action) {
    && (a.Reconcile? && a.r == r ==> a.outcome.Done?)
    && !(a.Abandon? && a.r == r)
    && !(a.Select? && a.r == r)
  }

  /** Of the page, what precedes the rest has been marked, and the rest names payments that exist. */
  ghost predicate Advancing(db: T.Tables, page: seq<(Uuid, Uuid, string)>, rec: Reconciler) {
    && |rec.todo| <= |page|
    && rec.todo == page[|page| - |rec.todo|..]
    && (forall i :: 0 <= i < |page| ==> page[i].0 in db.payments)
    && (forall i :: 0 <= i < |page| - |rec.todo| ==> T.IsSuccess(db, page[i].0))
  }

  lemma AdvancingSurvives(a: T.Tables, b: T.Tables, page: seq<(Uuid, Uuid, string)>, rec: Reconciler)
    requires T.Grows(a, b) && Advancing(a, page, rec)
    ensures Advancing(b, page, rec)
    ensures rec.todo != [] && T.IsSuccess(a, rec.todo[0].0) ==> T.IsSuccess(b, rec.todo[0].0)
  {
  }

  lemma CallAdvances(st: Store, rec: Reconciler, page: seq<(Uuid, Uuid, string)>)
    requires rec.todo != [] && Advancing(st.db, page, rec) && (rec.marked ==> T.IsSuccess(st.db, rec.todo[0].0))
    ensures var (after, next) := PerformRound(st, rec, Done);
            Advancing(after.db, page, next) && (next.marked ==> next.todo != [] && T.IsSuccess(after.db, next.todo[0].0))
  {
  }

  lemma StepAdvances(s: State, a: Action, r: nat, page: seq<(Uuid, Uuid, string)>)
    requires Enabled(s, a) && r < |s.reconcilers| && ErrorFree(r, a)
    requires Advancing(s.store.db, page, s.reconcilers[r])
    requires s.reconcilers[r].marked ==> s.reconcilers[r].todo != [] && T.IsSuccess(s.store.db, s.reconcilers[r].todo[0].0)
    ensures var t := Apply(s, a);
            && |t.reconcilers| == |s.reconcilers|
            && Advancing(t.store.db, page, t.reconcilers[r])
            && (t.reconcilers[r].marked ==> t.reconcilers[r].todo != [] && T.IsSuccess(t.store.db, t.reconcilers[r].todo[0].0))
  {
    if a.Reconcile? && a.r == r {
      CallAdvances(s.store, s.reconcilers[r], page);
    } else {
      StepGrows(s, a);
      AdvancingSurvives(s.store.db, Apply(s, a).store.db, page, s.reconcilers[r]);
    }
  }

  lemma {:induction false} RoundAdvances(s: State, run: seq<Action>, r: nat, page: seq<(Uuid, Uuid, string)>)
    requires IsRun(s, run) && r < |s.reconcilers| && (forall i :: 0 <= i < |run| ==> ErrorFree(r, run[i]))
    requires Advancing(s.store.db, page, s.reconcilers[r])
    requires s.reconcilers[r].marked ==> s.reconcilers[r].todo != [] && T.IsSuccess(s.store.db, s.reconcilers[r].todo[0].0)
    ensures r < |After(s, run).reconcilers|
    ensures Advancing(After(s, run).store.db, page, After(s, run).reconcilers[r])
    decreases |run|
  {
    if run != [] {
      StepAdvances(s, run[0], r, page);
      RoundAdvances(Apply(s, run[0]), run[1..], r, page);
    }
  }

  // ----- what a round does to those who wait -----

  lemma AheadShrinks(a: T.Tables, b: T.Tables, p: Uuid)
    requires Follows(a, b) && p in a.payments
    ensures p in b.payments && Ahead(b, p) <= Ahead(a, p)
  {
  }

  /** The first elements of a page, as a set. */
  ghost function Paged(page: seq<(Uuid, Uuid, string)>): set<Uuid> {
    set i | 0 <= i < |page| :: page[i].0
  }

  lemma PagedSize(db: T.Tables, page: seq<(Uuid, Uuid, string)>)
    requires T.IsPendingPage(db, page)
    ensures |Paged(page)| == |page|
  {
    var ids := seq(|page|, i requires 0 <= i < |page| => page[i].0);
    DistinctSize(ids);
    assert Elements(ids) == Paged(page) by {
      forall x | x in Paged(page) ensures x in ids {
        var i :| 0 <= i < |page| && page[i].0 == x;
        assert ids[i] == x;
      }
    }
  }

  /** A payment still pending after the round had a full page of older ones before it. */
  lemma RoundMakesWay(start: T.Tables, end: T.Tables, page: seq<(Uuid, Uuid, string)>, p: Uuid)
    requires Follows(start, end) && DistinctTimes(start) && T.IsPendingPage(start, page)
    requires forall i :: 0 <= i < |page| ==> T.IsSuccess(end, page[i].0)
    requires p in start.payments && T.IsPending(end, p)
    ensures |Ahead(end, p)| + 100 <= |Ahead(start, p)|
  {
    assert T.IsPending(start, p);
    AheadShrinks(start, end, p);
    PagedSize(start, page);
    assert Paged(page) <= Ahead(start, p);
    assert Ahead(end, p) !! Paged(page);
    SubsetSize(Ahead(end, p) + Paged(page), Ahead(start, p));
  }

  /** After a round without arrivals a full page fewer are pending, or none. */
  lemma RoundDrains(start: T.Tables, end: T.Tables, page: seq<(Uuid, Uuid, string)>)
    requires T.Grows(start, end) && start.payments.Keys == end.payments.Keys && T.IsPendingPage(start, page)
    requires forall i :: 0 <= i < |page| ==> T.IsSuccess(end, page[i].0)
    ensures PendingSet(end) == {} || |PendingSet(end)| + 100 <= |PendingSet(start)|
  {
    PagedSize(start, page);
    assert PendingSet(end) <= PendingSet(start) && Paged(page) <= PendingSet(start);
    assert PendingSet(end) !! Paged(page);
    if q :| q in PendingSet(end) {
      assert T.IsPending(start, q);
    }
    SubsetSize(PendingSet(end) + Paged(page), PendingSet(start));
  }

  // ----- rounds one after the other -----

  /** What happens before a round, the page it selects, and what happens until it is done. */
  datatype Round = Round(before: seq<Action>, page: seq<(Uuid, Uuid, string)>, during: seq<Action>)

  function RoundRun(r: nat, round: Round): seq<Action> {
    round.before + [Select(r, round.page)] + round.during
  }

  /** The round runs to its end without error, whatever everybody else does meanwhile. */
  ghost predicate Completes(s: State, r: nat, round: Round) {
    && IsRun(s, round.before)
    && var selecting := After(s, round.before);
    && r < |selecting.reconcilers|
    && Enabled(selecting, Select(r, round.page))
    && var selected := Apply(selecting, Select(r, round.page));
    && IsRun(selected, round.during)
    && (forall i :: 0 <= i < |round.during| ==> ErrorFree(r, round.during[i]))
    && r < |After(selected, round.during).reconcilers|
    && After(selected, round.during).reconcilers[r].todo == []
  }

  ghost function AfterRound(s: State, r: nat, round: Round): State
    requires Completes(s, r, round)
  {
    After(Apply(After(s, round.before), Select(r, round.page)), round.during)
  }

  ghost predicate StaggeredRound(s: State, r: nat, round: Round)
    requires Completes(s, r, round)
  {
    && StaggeredRun(s, round.before)
    && StaggeredRun(Apply(After(s, round.before), Select(r, round.page)), round.during)
  }

  ghost predicate AllComplete(s: State, r: nat, rounds: seq<Round>)
    decreases |rounds|
  {
    rounds == [] || (Completes(s, r, rounds[0]) && AllComplete(AfterRound(s, r, rounds[0]), r, rounds[1..]))
  }

  ghost predicate AllStaggered(s: State, r: nat, rounds: seq<Round>)
    requires AllComplete(s, r, rounds)
    decreases |rounds|
  {
    rounds == [] || (StaggeredRound(s, r, rounds[0]) && AllStaggered(AfterRound(s, r, rounds[0]), r, rounds[1..]))
  }

  ghost function AfterRounds(s: State, r: nat, rounds: seq<Round>): State
    requires AllComplete(s, r, rounds)
    decreases |rounds|
  {
    if rounds == [] then s else AfterRounds(AfterRound(s, r, rounds[0]), r, rounds[1..])
  }

  /** Rounds are stretches of runs of the machine. */
  lemma RoundIsRun(s: State, r: nat, round: Round)
    requires Completes(s, r, round)
    ensures IsRun(s, RoundRun(r, round)) && After(s, RoundRun(r, round)) == AfterRound(s, r, round)
  {
    RunExtends(s, round.before, Select(r, round.page));
    RunsCompose(s, round.before + [Select(r, round.page)], round.during);
  }

  /** A completed round has marked its whole page. */
  lemma RoundMarksItsPage(s: State, r: nat, round: Round)
    requires Completes(s, r, round)
    ensures forall i :: 0 <= i < |round.page| ==> T.IsSuccess(AfterRound(s, r, round).store.db, round.page[i].0)
  {
    var selected := Apply(After(s, round.before), Select(r, round.page));
    RoundAdvances(selected, round.during, r, round.page);
  }

  lemma {:induction false} WaitersNeedRounds(s: State, r: nat, rounds: seq<Round>, p: Uuid)
    requires AllComplete(s, r, rounds) && AllStaggered(s, r, rounds) && DistinctTimes(s.store.db)
    requires p in s.store.db.payments && T.IsPending(AfterRounds(s, r, rounds).store.db, p)
    ensures T.IsPending(s.store.db, p)
    ensures |rounds| * 100 <= |Ahead(s.store.db, p)|
    decreases |rounds|
  {
    if rounds != [] {
      var selecting := After(s, rounds[0].before);
      var selected := Apply(selecting, Select(r, rounds[0].page));
      var done := AfterRound(s, r, rounds[0]);
      RunFollows(s, rounds[0].before);
      RunFollows(selected, rounds[0].during);
      WaitersNeedRounds(done, r, rounds[1..], p);
      RoundMarksItsPage(s, r, rounds[0]);
      RoundMakesWay(selecting.store.db, done.store.db, rounds[0].page, p);
      AheadShrinks(s.store.db, selecting.store.db, p);
      SubsetSize(Ahead(selecting.store.db, p), Ahead(s.store.db, p));
    }
  }

  /** Fairness: with distinct creation times, a payment with k older pending payments is SUCCESS after
      k / 100 + 1 completed rounds, however many payments arrive and whatever the workers do meanwhile. */
  lemma PendingPaymentsAreReached(s: State, r: nat, rounds: seq<Round>, p: Uuid)
    requires AllComplete(s, r, rounds) && AllStaggered(s, r, rounds) && DistinctTimes(s.store.db)
    requires p in s.store.db.payments && !s.store.db.payments[p].status.Failed?
    requires |rounds| >= |Ahead(s.store.db, p)| / 100 + 1
    ensures T.IsSuccess(AfterRounds(s, r, rounds).store.db, p)
  {
    RoundsFollow(s, r, rounds);
    if T.IsPending(AfterRounds(s, r, rounds).store.db, p) {
      WaitersNeedRounds(s, r, rounds, p);
    }
  }

  lemma {:induction false} RoundsFollow(s: State, r: nat, rounds: seq<Round>)
    requires AllComplete(s, r, rounds)
    ensures T.Grows(s.store.db, AfterRounds(s, r, rounds).store.db)
    decreases |rounds|
  {
    if rounds != [] {
      var done := AfterRound(s, r, rounds[0]);
      RoundIsRun(s, r, rounds[0]);
      RunGrows(s, RoundRun(r, rounds[0]));
      RoundsFollow(done, r, rounds[1..]);
      T.GrowsTransitively(s.store.db, done.store.db, AfterRounds(s, r, rounds).store.db);
    }
  }

  /** Without arrivals, rounds for a full page each leave nothing pending: n pending payments are worked off
      in ceil(n / 100) rounds. */
  lemma {:induction false} BacklogDrains(s: State, r: nat, rounds: seq<Round>)
    requires AllComplete(s, r, rounds)
    requires AfterRounds(s, r, rounds).store.db.payments.Keys == s.store.db.payments.Keys
    requires |PendingSet(s.store.db)| <= |rounds| * 100
    ensures PendingSet(AfterRounds(s, r, rounds).store.db) == {}
    decreases |rounds|
  {
    if rounds != [] {
      var selecting, done := After(s, rounds[0].before), AfterRound(s, r, rounds[0]);
      RunGrows(s, rounds[0].before);
      RunGrows(Apply(selecting, Select(r, rounds[0].page)), rounds[0].during);
      RoundsFollow(done, r, rounds[1..]);
      RoundMarksItsPage(s, r, rounds[0]);
      RoundDrains(selecting.store.db, done.store.db, rounds[0].page);
      SubsetSize(PendingSet(selecting.store.db), PendingSet(s.store.db));
      BacklogDrains(done, r, rounds[1..]);
    }
  }
}
