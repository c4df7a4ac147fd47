/** The listeners of the broker under every interleaving: the count of topic listeners is exact, no listener
    is lost, and those told to stop come to an end, so that the count comes down to zero. */
module BrokerListeners {
  import opened Broker

  // ----- sums over the listeners -----

  function Sum<C>(listeners: seq<Listener<C>>, f: Listener<C> -> nat): nat {
    if listeners == [] then 0
    else Sum(listeners[..|listeners| - 1], f) + f(listeners[|listeners| - 1])
  }

  lemma {:induction false} SumAfterUpdate<C>(listeners: seq<Listener<C>>, f: Listener<C> -> nat, l: nat, x: Listener<C>)
    requires l < |listeners|
    ensures Sum(listeners[l := x], f) + f(listeners[l]) == Sum(listeners, f) + f(x)
    decreases |listeners|
  {
    var last := |listeners| - 1;
    if l == last {
      assert listeners[l := x][..last] == listeners[..last];
    } else {
      SumAfterUpdate(listeners[..last], f, l, x);
      assert listeners[l := x][..last] == listeners[..last][l := x];
    }
  }

  lemma {:induction false} SumPointwise<C>(a: seq<Listener<C>>, b: seq<Listener<C>>, f: Listener<C> -> nat)
    requires |a| == |b| && forall l :: 0 <= l < |a| ==> f(a[l]) == f(b[l])
    ensures Sum(a, f) == Sum(b, f)
    decreases |a|
  {
    if a != [] {
      SumPointwise(a[..|a| - 1], b[..|b| - 1], f);
    }
  }

  lemma SumAfterAppend<C>(listeners: seq<Listener<C>>, f: Listener<C> -> nat, x: Listener<C>)
    ensures Sum(listeners + [x], f) == Sum(listeners, f) + f(x)
  {
    assert (listeners + [x])[..|listeners|] == listeners;
  }

  lemma {:induction false} SumCovers<C>(listeners: seq<Listener<C>>, f: Listener<C> -> nat, l: nat)
    requires l < |listeners|
    ensures f(listeners[l]) <= Sum(listeners, f)
    decreases |listeners|
  {
    if l < |listeners| - 1 {
      SumCovers(listeners[..|listeners| - 1], f, l);
    }
  }

  lemma {:induction false} SumFinds<C>(listeners: seq<Listener<C>>, f: Listener<C> -> nat) returns (l: nat)
    requires Sum(listeners, f) > 0
    ensures l < |listeners| && f(listeners[l]) > 0
    decreases |listeners|
  {
    l := |listeners| - 1;
    if f(listeners[l]) == 0 {
      l := SumFinds(listeners[..l], f);
    }
  }

  // ----- the count -----

  /** Counted in, and not yet finished. */
  function CountedIn<C>(listener: Listener<C>): nat {
    if listener.isTopic && (listener.phase.Counted? || listener.phase.Running? || listener.phase.Stopped?) then 1 else 0
  }

  ghost predicate CountIsExact<C>(s: State<C>) {
    s.count == Sum(s.listeners, x => CountedIn(x))
  }

  /** A step that replaces one listener changes the sum by what the listener contributes. */
  lemma CountAfterSet<C>(s: State<C>, l: nat, x: Listener<C>)
    requires l < |s.listeners|
    ensures Sum(Set(s, l, x).listeners, y => CountedIn(y)) + CountedIn(s.listeners[l])
            == Sum(s.listeners, y => CountedIn(y)) + CountedIn(x)
  {
    SumAfterUpdate(s.listeners, y => CountedIn(y), l, x);
  }

  lemma RegisterKeepsCount<C>(s: State<C>, l: nat)
    requires Enabled(s, Register(l)) && CountIsExact(s)
    ensures CountIsExact(Apply(s, Register(l)))
  {
    var channel := s.listeners[l].wanted[0];
    var topics := s.subs[s.listeners[l].sub].topics;
    var registered := s.listeners[l].(phase := Registered);
    if channel in topics && topics[channel] < |s.listeners| {
      var k := topics[channel];
      var replaced := Set(s, k, DropSender(s.listeners[k]));
      CountAfterSet(s, k, DropSender(s.listeners[k]));
      CountAfterSet(replaced, l, registered);
    } else {
      CountAfterSet(s, l, registered);
    }
  }

  /** The steps that replace one listener, and nothing else but the count and the receivers. */
  predicate TouchesOne<C>(a: Action<C>) {
    a.Join? || a.Fail? || a.Count? || a.Start? || a.Forward? || a.Stop? || a.Disconnect? || a.Leave?
  }

  lemma OneChanges<C>(s: State<C>, a: Action<C>)
    requires Enabled(s, a) && TouchesOne(a)
    ensures a.l < |s.listeners| == |Apply(s, a).listeners|
    ensures Apply(s, a).listeners == s.listeners[a.l := Apply(s, a).listeners[a.l]]
    ensures Apply(s, a).subs == s.subs && Apply(s, a).nextSub == s.nextSub
  {
  }

  lemma OneKeepsCount<C>(s: State<C>, a: Action<C>)
    requires Enabled(s, a) && CountIsExact(s) && TouchesOne(a)
    ensures CountIsExact(Apply(s, a))
  {
    OneChanges(s, a);
    CountAfterSet(s, a.l, Apply(s, a).listeners[a.l]);
  }

  /** Unsubscribing and publishing leave the phases alone. */
  lemma SweepKeepsCount<C>(s: State<C>, a: Action<C>)
    requires Enabled(s, a) && CountIsExact(s) && (a.Unsubscribe? || a.Publish?)
    ensures CountIsExact(Apply(s, a))
  {
    SumPointwise(s.listeners, Apply(s, a).listeners, y => CountedIn(y));
  }

  lemma StepKeepsCount<C>(s: State<C>, a: Action<C>)
    requires Enabled(s, a) && CountIsExact(s)
    ensures CountIsExact(Apply(s, a))
  {
    match a
    case Subscribe(channels) => SumAfterAppend(s.listeners, y => CountedIn(y), NewListener(s.nextSub, false, channels));
    case AddBegin(sub, channel) => SumAfterAppend(s.listeners, y => CountedIn(y), NewListener(sub, true, [channel]));
    case Register(l) => RegisterKeepsCount(s, l);
    case Remove(sub, channel) =>
      var l := s.subs[sub].topics[channel];
      CountAfterSet(s, l, Shut(s.listeners[l]));
    case Unsubscribe(_) => SweepKeepsCount(s, a);
    case Publish(_, _) => SweepKeepsCount(s, a);
    case DropReceiver(_) =>
    case _ => OneKeepsCount(s, a);
  }

  // ----- no listener is lost -----

  /** Past its registration and not yet gone. */
  predicate Active<C>(listener: Listener<C>) {
    listener.phase.Registered? || listener.phase.Counted? || listener.phase.Running? || listener.phase.Stopped?
  }

  /** The table holds a sender to its control. */
  ghost predicate InTable<C>(s: State<C>, l: nat)
    requires l < |s.listeners|
  {
    var listener := s.listeners[l];
    && listener.sub in s.subs
    && if listener.isTopic
       then |listener.wanted| == 1 && listener.wanted[0] in s.subs[listener.sub].topics
            && s.subs[listener.sub].topics[listener.wanted[0]] == l
       else s.subs[listener.sub].main == l
  }

  /** What the table says of a listener is true of it. */
  ghost predicate EntryIsTrue<C>(s: State<C>, sub: SubId)
    requires sub in s.subs
  {
    && sub < s.nextSub
    && s.subs[sub].main < |s.listeners|
    && !s.listeners[s.subs[sub].main].isTopic
    && s.listeners[s.subs[sub].main].sub == sub
    && (forall c :: c in s.subs[sub].topics ==>
          var l := s.subs[sub].topics[c];
          && l < |s.listeners|
          && s.listeners[l].isTopic && s.listeners[l].sub == sub && s.listeners[l].wanted == [c]
          && !s.listeners[l].phase.Connecting? && !s.listeners[l].phase.Failed?)
  }

  ghost predicate ListenerIsKept<C>(s: State<C>, l: nat)
    requires l < |s.listeners|
  {
    var listener := s.listeners[l];
    && listener.sub < s.nextSub
    && (listener.isTopic ==> |listener.wanted| == 1)
    && (listener.isTopic && listener.phase.Connecting? ==> listener.sub in s.subs && listener.control.Open?)
    && (!listener.isTopic ==> !listener.phase.Registered? && !listener.phase.Counted?)
    && (Active(listener) || (!listener.isTopic && listener.phase.Connecting?) ==>
          InTable(s, l) || !listener.control.Open?)
  }

  ghost predicate Kept<C>(s: State<C>) {
    && (forall sub :: sub in s.subs ==> EntryIsTrue(s, sub))
    && (forall l :: 0 <= l < |s.listeners| ==> ListenerIsKept(s, l))
  }

  lemma UnsubscribeKeeps<C>(s: State<C>, sub: SubId)
    requires Kept(s) && Enabled(s, Unsubscribe(sub)) && sub in s.subs
    ensures Kept(Apply(s, Unsubscribe(sub)))
  {
    var after := Apply(s, Unsubscribe(sub));
    assert EntryIsTrue(s, sub);
    forall l | 0 <= l < |s.listeners|
      ensures ListenerIsKept(after, l)
    {
      assert ListenerIsKept(s, l);
      if l in s.subs[sub].topics.Values {
        var c :| c in s.subs[sub].topics && s.subs[sub].topics[c] == l;
      }
      if InTable(s, l) && s.listeners[l].sub == sub && s.listeners[l].isTopic {
        assert s.subs[sub].topics[s.listeners[l].wanted[0]] in s.subs[sub].topics.Values;
      }
    }
    forall other | other in after.subs
      ensures EntryIsTrue(after, other)
    {
      assert EntryIsTrue(s, other);
    }
  }

  /** One listener moves on; its place in the table, its control and everything else stay. */
  ghost predicate Moves<C>(before: Listener<C>, after: Listener<C>) {
    && after.sub == before.sub && after.isTopic == before.isTopic && after.wanted == before.wanted
    && (before.control.Open? ==> after.control == before.control)
    && (!before.control.Open? ==> !after.control.Open?)
    && (after.phase.Connecting? ==> before.phase.Connecting?)
    && (after.phase.Failed? ==> before.phase.Connecting? || before.phase.Failed?)
    && (after.isTopic && Active(after) ==> Active(before))
    && (!after.isTopic && (after.phase.Registered? || after.phase.Counted?) ==> after.phase == before.phase)
    && (!after.isTopic && Active(after) ==> Active(before) || before.phase.Connecting?)
  }

  lemma MovesKeep<C>(s: State<C>, after: State<C>)
    requires Kept(s) && after.subs == s.subs && after.nextSub == s.nextSub && |after.listeners| == |s.listeners|
    requires forall k :: 0 <= k < |s.listeners| ==> Moves(s.listeners[k], after.listeners[k])
    ensures Kept(after)
  {
    forall k | 0 <= k < |s.listeners|
      ensures ListenerIsKept(after, k)
    {
      assert ListenerIsKept(s, k);
      assert Moves(s.listeners[k], after.listeners[k]);
      assert InTable(s, k) ==> InTable(after, k);
    }
    forall other | other in after.subs
      ensures EntryIsTrue(after, other)
    {
      assert EntryIsTrue(s, other);
      assert Moves(s.listeners[s.subs[other].main], after.listeners[s.subs[other].main]);
      forall c | c in s.subs[other].topics
        ensures Moves(s.listeners[s.subs[other].topics[c]], after.listeners[s.subs[other].topics[c]])
      {
      }
    }
  }

  /** What a registration does to each listener: the new one is registered, the one it replaces loses its
      sender, and the rest stay. */
  lemma RegisterChanges<C>(s: State<C>, l: nat)
    requires Kept(s) && Enabled(s, Register(l))
    ensures var after := Apply(s, Register(l));
            var sub, channel := s.listeners[l].sub, s.listeners[l].wanted[0];
            && |after.listeners| == |s.listeners| && after.nextSub == s.nextSub
            && after.subs == s.subs[sub := Entry(s.subs[sub].main, s.subs[sub].topics[channel := l])]
            && after.listeners[l] == s.listeners[l].(phase := Registered)
            && (forall k :: 0 <= k < |s.listeners| && k != l ==>
                  after.listeners[k] ==
                    if channel in s.subs[sub].topics && s.subs[sub].topics[channel] == k
                    then DropSender(s.listeners[k]) else s.listeners[k])
  {
    assert EntryIsTrue(s, s.listeners[l].sub);
  }

  lemma RegisteredIsKept<C>(s: State<C>, l: nat)
    requires Kept(s) && Enabled(s, Register(l))
    ensures l < |Apply(s, Register(l)).listeners| && ListenerIsKept(Apply(s, Register(l)), l)
  {
    RegisterChanges(s, l);
    assert ListenerIsKept(s, l);
    assert InTable(Apply(s, Register(l)), l);
  }

  lemma OtherIsKept<C>(s: State<C>, l: nat, k: nat)
    requires Kept(s) && Enabled(s, Register(l)) && k < |s.listeners| && k != l
    ensures k < |Apply(s, Register(l)).listeners| && ListenerIsKept(Apply(s, Register(l)), k)
  {
    var after := Apply(s, Register(l));
    RegisterChanges(s, l);
    assert ListenerIsKept(s, k);
    if InTable(s, k) && after.listeners[k] == s.listeners[k] {
      assert InTable(after, k) || !s.listeners[k].control.Open?;
    }
  }

  lemma RegisterKeepsListener<C>(s: State<C>, l: nat, k: nat)
    requires Kept(s) && Enabled(s, Register(l)) && k < |s.listeners|
    ensures |Apply(s, Register(l)).listeners| == |s.listeners| && ListenerIsKept(Apply(s, Register(l)), k)
  {
    RegisterChanges(s, l);
    if k == l {
      RegisteredIsKept(s, l);
    } else {
      OtherIsKept(s, l, k);
    }
  }

  /** What an entry says of a listener past its registration, it still says after the step. */
  lemma RegisterKeepsPlace<C>(s: State<C>, l: nat, k: nat)
    requires Kept(s) && Enabled(s, Register(l)) && k < |s.listeners|
    ensures var after := Apply(s, Register(l)).listeners;
            && k < |after|
            && after[k].sub == s.listeners[k].sub && after[k].isTopic == s.listeners[k].isTopic
            && after[k].wanted == s.listeners[k].wanted
            && (k != l ==> after[k].phase == s.listeners[k].phase)
            && (k == l ==> after[k].phase.Registered?)
  {
    RegisterChanges(s, l);
  }

  lemma RegisterKeepsEntry<C>(s: State<C>, l: nat, sub: SubId)
    requires Kept(s) && Enabled(s, Register(l)) && sub in s.subs
    ensures sub in Apply(s, Register(l)).subs && EntryIsTrue(Apply(s, Register(l)), sub)
  {
    var after := Apply(s, Register(l));
    RegisterChanges(s, l);
    assert EntryIsTrue(s, sub);
    RegisterKeepsPlace(s, l, s.subs[sub].main);
    forall c | c in after.subs[sub].topics
      ensures var k := after.subs[sub].topics[c];
              && k < |after.listeners|
              && after.listeners[k].isTopic && after.listeners[k].sub == sub && after.listeners[k].wanted == [c]
              && !after.listeners[k].phase.Connecting? && !after.listeners[k].phase.Failed?
    {
      RegisterKeepsPlace(s, l, after.subs[sub].topics[c]);
    }
  }

  lemma RegisterKeeps<C>(s: State<C>, l: nat)
    requires Kept(s) && Enabled(s, Register(l))
    ensures Kept(Apply(s, Register(l)))
  {
    RegisterChanges(s, l);
    forall k | 0 <= k < |s.listeners| { RegisterKeepsListener(s, l, k); }
    forall sub | sub in s.subs { RegisterKeepsEntry(s, l, sub); }
  }

  lemma RemoveKeeps<C>(s: State<C>, sub: SubId, channel: C)
    requires Kept(s) && Enabled(s, Remove(sub, channel))
    ensures Kept(Apply(s, Remove(sub, channel)))
  {
    var after := Apply(s, Remove(sub, channel));
    forall k | 0 <= k < |s.listeners|
      ensures ListenerIsKept(after, k)
    {
      assert ListenerIsKept(s, k);
    }
    forall other | other in after.subs
      ensures EntryIsTrue(after, other)
    {
      assert EntryIsTrue(s, other);
    }
  }

  lemma ArrivalKeeps<C>(s: State<C>, a: Action<C>)
    requires Kept(s) && Enabled(s, a) && (a.Subscribe? || a.AddBegin?)
    ensures Kept(Apply(s, a))
  {
    var after := Apply(s, a);
    forall k | 0 <= k < |after.listeners|
      ensures ListenerIsKept(after, k)
    {
      if k < |s.listeners| {
        assert ListenerIsKept(s, k);
      }
    }
    forall other | other in after.subs
      ensures EntryIsTrue(after, other)
    {
      if other in s.subs {
        assert EntryIsTrue(s, other);
      }
    }
  }

  /** All other steps leave the table alone, and of a listener only its phase and queues change. */
  lemma MoveKeeps<C>(s: State<C>, a: Action<C>)
    requires Kept(s) && Enabled(s, a)
    requires !a.Subscribe? && !a.AddBegin? && !a.Register? && !a.Remove? && !a.Unsubscribe?
    ensures Kept(Apply(s, a))
  {
    MovesKeep(s, Apply(s, a));
  }

  lemma StepKeeps<C>(s: State<C>, a: Action<C>)
    requires Kept(s) && Enabled(s, a)
    ensures Kept(Apply(s, a))
  {
    match a
    case Subscribe(_) => ArrivalKeeps(s, a);
    case AddBegin(_, _) => ArrivalKeeps(s, a);
    case Register(l) => RegisterKeeps(s, l);
    case Remove(sub, channel) => RemoveKeeps(s, sub, channel);
    case Unsubscribe(sub) =>
      if sub in s.subs {
        UnsubscribeKeeps(s, sub);
      }
    case _ => MoveKeeps(s, a);
  }

  lemma {:induction false} RunKeeps<C>(s: State<C>, run: seq<Action<C>>)
    requires IsRun(s, run) && Kept(s) && CountIsExact(s)
    ensures Kept(After(s, run)) && CountIsExact(After(s, run))
    decreases |run|
  {
    if run != [] {
      StepKeeps(s, run[0]);
      StepKeepsCount(s, run[0]);
      RunKeeps(Apply(s, run[0]), run[1..]);
    }
  }

  // ----- what holds in every reachable state -----

  function Unfinished<C>(s: State<C>): set<nat> {
    set l: nat | l < |s.listeners| && CountedIn(s.listeners[l]) == 1
  }

  function CountedBelow<C>(listeners: seq<Listener<C>>, n: nat): set<nat>
    requires n <= |listeners|
  {
    set l: nat | l < n && CountedIn(listeners[l]) == 1
  }

  lemma CountedBelowNext<C>(listeners: seq<Listener<C>>, n: nat)
    requires n < |listeners|
    ensures |CountedBelow(listeners, n + 1)| == |CountedBelow(listeners, n)| + CountedIn(listeners[n])
  {
    var more := if CountedIn(listeners[n]) == 1 then {n} else {};
    assert CountedBelow(listeners, n + 1) == CountedBelow(listeners, n) + more;
    assert n !in CountedBelow(listeners, n);
  }

  lemma {:induction false} SumIsCardinality<C>(listeners: seq<Listener<C>>, n: nat)
    requires n <= |listeners|
    ensures Sum(listeners[..n], x => CountedIn(x)) == |CountedBelow(listeners, n)|
    decreases n
  {
    if n > 0 {
      SumIsCardinality(listeners, n - 1);
      CountedBelowNext(listeners, n - 1);
      assert listeners[..n][..n - 1] == listeners[..n - 1];
    }
  }

  lemma CountIsSize<C>(s: State<C>)
    requires CountIsExact(s)
    ensures s.count == |Unfinished(s)|
  {
    SumIsCardinality(s.listeners, |s.listeners|);
    assert s.listeners[..|s.listeners|] == s.listeners;
    assert Unfinished(s) == CountedBelow(s.listeners, |s.listeners|);
  }

  lemma LeavingIsCounted<C>(s: State<C>, l: nat)
    requires CountIsExact(s) && Enabled(s, Leave(l)) && s.listeners[l].isTopic
    ensures s.count >= 1
  {
    SumCovers(s.listeners, x => CountedIn(x), l);
  }

  lemma InitiallyKept<C>()
    ensures Kept(Initial<C>()) && CountIsExact(Initial<C>())
  {
  }

  /** Under every interleaving the count equals the number of topic listeners counted in and not yet
      finished. It is at least one whenever a listener is about to lower it, so it never underflows. */
  lemma CountIsUnfinished<C>(run: seq<Action<C>>, l: nat)
    requires IsRun(Initial<C>(), run)
    ensures var s := After(Initial<C>(), run);
            && s.count == |Unfinished(s)|
            && (Enabled(s, Leave(l)) && s.listeners[l].isTopic ==> s.count >= 1)
  {
    InitiallyKept<C>();
    RunKeeps(Initial<C>(), run);
    var s := After(Initial<C>(), run);
    CountIsSize(s);
    if Enabled(s, Leave(l)) && s.listeners[l].isTopic {
      LeavingIsCounted(s, l);
    }
  }

  /** Under every interleaving each topic listener past its registration is registered under its own channel
      in an entry of the table, or its control has been shut or has lost its last sender. The same holds of
      main listeners. */
  lemma NoListenerIsLost<C>(run: seq<Action<C>>, l: nat)
    requires IsRun(Initial<C>(), run) && l < |After(Initial<C>(), run).listeners|
    requires Active(After(Initial<C>(), run).listeners[l])
    ensures var s := After(Initial<C>(), run);
            var listener := s.listeners[l];
            || !listener.control.Open?
            || (listener.sub in s.subs &&
                if listener.isTopic
                then |listener.wanted| == 1 && (listener.wanted[0], l) in s.subs[listener.sub].topics.Items
                else s.subs[listener.sub].main == l)
  {
    InitiallyKept<C>();
    RunKeeps(Initial<C>(), run);
    assert ListenerIsKept(After(Initial<C>(), run), l);
  }

  // ----- how listeners that have been told to stop come to an end -----

  /** The steps a topic listener still has to take. */
  function StepsLeft<C>(listener: Listener<C>): nat {
    if !listener.isTopic then 0
    else match listener.phase
      case Registered => 4
      case Counted => 3
      case Running => 2
      case Stopped => 1
      case _ => 0
  }

  /** Topic listener l takes one of these steps. */
  predicate Progress<C>(s: State<C>, a: Action<C>, l: nat) {
    && l < |s.listeners| && s.listeners[l].isTopic
    && match a
       case Count(k) => k == l
       case Start(k) => k == l
       case Forward(k) => k == l && s.listeners[l].sub !in s.receivers
       case Stop(k) => k == l
       case Disconnect(k) => k == l
       case Leave(k) => k == l
       case _ => false
  }

  /** A topic listener past its registration whose control has been shut or closed. */
  ghost predicate Dismissed<C>(s: State<C>, l: nat) {
    && l < |s.listeners| && s.listeners[l].isTopic && !s.listeners[l].phase.Connecting? && !s.listeners[l].control.Open?
  }

  lemma RegisterSpares<C>(s: State<C>, k: nat, l: nat)
    requires Enabled(s, Register(k)) && l < |s.listeners| && l != k
    ensures var after := Apply(s, Register(k)).listeners;
            l < |after| && (after[l] == s.listeners[l] || after[l] == DropSender(s.listeners[l]))
  {
  }

  lemma OneSpares<C>(s: State<C>, a: Action<C>, l: nat)
    requires Enabled(s, a) && TouchesOne(a) && l < |s.listeners| && l != a.l
    ensures l < |Apply(s, a).listeners| && Apply(s, a).listeners[l] == s.listeners[l]
  {
    OneChanges(s, a);
  }

  /** Any step of anybody leaves it dismissed, and brings it one step on exactly if it is its own progress. */
  lemma DismissedStep<C>(s: State<C>, a: Action<C>, l: nat)
    requires Dismissed(s, l) && Enabled(s, a)
    ensures Dismissed(Apply(s, a), l)
    ensures Apply(s, a).listeners[l].sub == s.listeners[l].sub
    ensures StepsLeft(Apply(s, a).listeners[l]) + (if Progress(s, a, l) then 1 else 0) == StepsLeft(s.listeners[l])
  {
    if a.Register? {
      RegisterSpares(s, a.l, l);
    } else if TouchesOne(a) && a.l != l {
      OneSpares(s, a, l);
    }
  }

  /** The step that is next for an unfinished topic listener. */
  function NextStep<C>(s: State<C>, l: nat): Action<C>
    requires l < |s.listeners|
  {
    match s.listeners[l].phase
    case Registered => Count(l)
    case Counted => Start(l)
    case Running => Stop(l)
    case _ => Leave(l)
  }

  /** A dismissed listener that has not finished has a step of its own to take, and no step of the others
      takes it away. */
  lemma NextStepStaysEnabled<C>(s: State<C>, l: nat, a: Action<C>)
    requires Dismissed(s, l) && StepsLeft(s.listeners[l]) > 0
    ensures Enabled(s, NextStep(s, l)) && Progress(s, NextStep(s, l), l)
    ensures Enabled(s, a) && !Progress(s, a, l) ==>
              Dismissed(Apply(s, a), l) && Enabled(Apply(s, a), NextStep(s, l)) && NextStep(Apply(s, a), l) == NextStep(s, l)
  {
    if Enabled(s, a) && !Progress(s, a, l) {
      DismissedStep(s, a, l);
      SameStepsSamePhase(s.listeners[l], Apply(s, a).listeners[l]);
    }
  }

  lemma SameStepsSamePhase<C>(x: Listener<C>, y: Listener<C>)
    requires x.isTopic && y.isTopic && StepsLeft(x) == StepsLeft(y) > 0
    ensures x.phase == y.phase
  {
  }

  ghost function ProgressSteps<C>(s: State<C>, run: seq<Action<C>>, l: nat): nat
    requires IsRun(s, run)
    decreases |run|
  {
    if run == [] then 0
    else (if Progress(s, run[0], l) then 1 else 0) + ProgressSteps(Apply(s, run[0]), run[1..], l)
  }

  /** Along every run of everybody a dismissed listener takes as many progress steps as it comes nearer to its
      end, at most four in all; it has finished, or failed before it was counted, exactly when none is left. */
  lemma {:induction false} DismissedDrains<C>(s: State<C>, run: seq<Action<C>>, l: nat)
    requires Dismissed(s, l) && IsRun(s, run)
    ensures Dismissed(After(s, run), l)
    ensures StepsLeft(After(s, run).listeners[l]) + ProgressSteps(s, run, l) == StepsLeft(s.listeners[l])
    ensures StepsLeft(After(s, run).listeners[l]) == 0 <==>
            After(s, run).listeners[l].phase.Finished? || After(s, run).listeners[l].phase.Failed?
    decreases |run|
  {
    if run != [] {
      DismissedStep(s, run[0], l);
      DismissedDrains(Apply(s, run[0]), run[1..], l);
    }
  }

  // ----- all topic listeners of a group of subscriptions -----

  /** No entry of the group holds a topic, and no add for the group is under way. */
  ghost predicate Topicless<C>(s: State<C>, who: SubId -> bool) {
    && (forall sub :: sub in s.subs && who(sub) ==> s.subs[sub].topics == map[])
    && (forall l :: 0 <= l < |s.listeners| && s.listeners[l].isTopic && who(s.listeners[l].sub) ==>
          !s.listeners[l].phase.Connecting?)
  }

  function StepsLeftOf<C>(who: SubId -> bool, listener: Listener<C>): nat {
    if who(listener.sub) then StepsLeft(listener) else 0
  }

  function LeftOf<C>(s: State<C>, who: SubId -> bool): nat {
    Sum(s.listeners, x => StepsLeftOf(who, x))
  }

  /** Some topic listener of the group makes progress. */
  ghost predicate ProgressOf<C>(s: State<C>, a: Action<C>, who: SubId -> bool) {
    exists l :: 0 <= l < |s.listeners| && who(s.listeners[l].sub) && Progress(s, a, l)
  }

  /** A session of the group asks for a topic. */
  predicate AddsTo<C>(a: Action<C>, who: SubId -> bool) {
    a.AddBegin? && who(a.sub)
  }

  lemma TopiclessAreDismissed<C>(s: State<C>, who: SubId -> bool, l: nat)
    requires Kept(s) && Topicless(s, who) && l < |s.listeners| && who(s.listeners[l].sub)
    ensures StepsLeft(s.listeners[l]) > 0 ==> Dismissed(s, l)
  {
    assert ListenerIsKept(s, l);
  }

  lemma StaysTopicless<C>(s: State<C>, a: Action<C>, who: SubId -> bool)
    requires Enabled(s, a) && Topicless(s, who) && !AddsTo(a, who)
    ensures Topicless(Apply(s, a), who)
  {
    if TouchesOne(a) {
      OneChanges(s, a);
    }
  }

  lemma SweptAlike<C>(s: State<C>, a: Action<C>)
    requires Enabled(s, a) && (a.Remove? || a.Unsubscribe? || a.Publish? || a.DropReceiver?)
    ensures |Apply(s, a).listeners| == |s.listeners|
    ensures forall l :: 0 <= l < |s.listeners| ==>
              && Apply(s, a).listeners[l].sub == s.listeners[l].sub
              && StepsLeft(Apply(s, a).listeners[l]) == StepsLeft(s.listeners[l])
  {
  }

  lemma RegisterAlike<C>(s: State<C>, l: nat, who: SubId -> bool)
    requires Kept(s) && Enabled(s, Register(l)) && Topicless(s, who)
    ensures |Apply(s, Register(l)).listeners| == |s.listeners|
    ensures forall k :: 0 <= k < |s.listeners| ==>
              StepsLeftOf(who, Apply(s, Register(l)).listeners[k]) == StepsLeftOf(who, s.listeners[k])
  {
    RegisterChanges(s, l);
    assert s.listeners[l].isTopic && s.listeners[l].phase.Connecting? && !who(s.listeners[l].sub);
  }

  /** Steps that replace no single listener leave the steps left of the group alone. */
  lemma SweepLeaves<C>(s: State<C>, a: Action<C>, who: SubId -> bool)
    requires Kept(s) && Enabled(s, a) && !TouchesOne(a) && Topicless(s, who)
    ensures LeftOf(Apply(s, a), who) == LeftOf(s, who)
  {
    if a.Subscribe? {
      SumAfterAppend(s.listeners, x => StepsLeftOf(who, x), NewListener(s.nextSub, false, a.channels));
    } else if a.AddBegin? {
      SumAfterAppend(s.listeners, x => StepsLeftOf(who, x), NewListener(a.sub, true, [a.channel]));
    } else {
      if a.Register? {
        RegisterAlike(s, a.l, who);
      } else {
        SweptAlike(s, a);
      }
      SumPointwise(s.listeners, Apply(s, a).listeners, x => StepsLeftOf(who, x));
    }
  }

  lemma TouchedComesNearer<C>(s: State<C>, a: Action<C>, who: SubId -> bool)
    requires Kept(s) && Enabled(s, a) && TouchesOne(a) && Topicless(s, who)
    ensures a.l < |s.listeners| == |Apply(s, a).listeners|
    ensures var before, after := s.listeners[a.l], Apply(s, a).listeners[a.l];
            StepsLeftOf(who, after) + (if who(before.sub) && Progress(s, a, a.l) then 1 else 0) == StepsLeftOf(who, before)
  {
    OneChanges(s, a);
    if who(s.listeners[a.l].sub) {
      TopiclessAreDismissed(s, who, a.l);
      if StepsLeft(s.listeners[a.l]) > 0 {
        DismissedStep(s, a, a.l);
      }
    }
  }

  lemma GroupStep<C>(s: State<C>, a: Action<C>, who: SubId -> bool)
    requires Kept(s) && Enabled(s, a) && Topicless(s, who)
    ensures LeftOf(Apply(s, a), who) + (if ProgressOf(s, a, who) then 1 else 0) == LeftOf(s, who)
  {
    if TouchesOne(a) {
      OneChanges(s, a);
      SumAfterUpdate(s.listeners, x => StepsLeftOf(who, x), a.l, Apply(s, a).listeners[a.l]);
      assert ProgressOf(s, a, who) <==> who(s.listeners[a.l].sub) && Progress(s, a, a.l);
      TouchedComesNearer(s, a, who);
    } else {
      SweepLeaves(s, a, who);
    }
  }

  ghost function ProgressStepsOf<C>(s: State<C>, run: seq<Action<C>>, who: SubId -> bool): nat
    requires IsRun(s, run)
    decreases |run|
  {
    if run == [] then 0
    else (if ProgressOf(s, run[0], who) then 1 else 0) + ProgressStepsOf(Apply(s, run[0]), run[1..], who)
  }

  /** Along every run in which the group asks for no new topic, whatever all others do, the steps its topic
      listeners have left and the progress steps they take add up to a constant. */
  lemma {:induction false} GroupDrains<C>(s: State<C>, run: seq<Action<C>>, who: SubId -> bool)
    requires Kept(s) && Topicless(s, who) && IsRun(s, run)
    requires forall i :: 0 <= i < |run| ==> !AddsTo(run[i], who)
    ensures Kept(After(s, run)) && Topicless(After(s, run), who)
    ensures LeftOf(After(s, run), who) + ProgressStepsOf(s, run, who) == LeftOf(s, who)
    decreases |run|
  {
    if run != [] {
      StepKeeps(s, run[0]);
      StaysTopicless(s, run[0], who);
      GroupStep(s, run[0], who);
      GroupDrains(Apply(s, run[0]), run[1..], who);
    }
  }

  ghost predicate AllFinished<C>(s: State<C>, who: SubId -> bool) {
    forall l :: 0 <= l < |s.listeners| && who(s.listeners[l].sub) ==> CountedIn(s.listeners[l]) == 0
  }

  /** A group has steps left exactly when it has a progress step it can take; when none is left, none of its
      listeners is counted. */
  lemma GroupCanProgress<C>(s: State<C>, who: SubId -> bool)
    requires Kept(s) && Topicless(s, who)
    ensures LeftOf(s, who) > 0 <==> exists a :: Enabled(s, a) && ProgressOf(s, a, who)
    ensures LeftOf(s, who) == 0 ==> AllFinished(s, who)
  {
    if LeftOf(s, who) > 0 {
      var l := SumFinds(s.listeners, x => StepsLeftOf(who, x));
      TopiclessAreDismissed(s, who, l);
      NextStepStaysEnabled(s, l, NextStep(s, l));
      assert Enabled(s, NextStep(s, l)) && ProgressOf(s, NextStep(s, l), who);
    }
    if a :| Enabled(s, a) && ProgressOf(s, a, who) {
      GroupStep(s, a, who);
    }
    if l :| 0 <= l < |s.listeners| && who(s.listeners[l].sub) && CountedIn(s.listeners[l]) != 0 {
      SumCovers(s.listeners, x => StepsLeftOf(who, x), l);
    }
  }

  /** A subscription that has been in the table and no longer is, drains along every run of everybody: sessions
      and topics of others come and go meanwhile. It takes no more progress steps than it has left, and can take
      one exactly as long as any is left. */
  lemma {:induction false} SubscriptionDrains<C>(s: State<C>, run: seq<Action<C>>, sub: SubId)
    requires Kept(s) && sub !in s.subs && sub < s.nextSub && IsRun(s, run)
    ensures var one, t := x => x == sub, After(s, run);
            && sub !in t.subs
            && LeftOf(t, one) + ProgressStepsOf(s, run, one) == LeftOf(s, one)
            && (LeftOf(t, one) > 0 <==> exists a :: Enabled(t, a) && ProgressOf(t, a, one))
            && (LeftOf(t, one) == 0 ==> AllFinished(t, one))
  {
    var one := x => x == sub;
    NeverComesBack(s, run, sub);
    forall l | 0 <= l < |s.listeners| && s.listeners[l].isTopic && s.listeners[l].sub == sub
      ensures !s.listeners[l].phase.Connecting?
    {
      assert ListenerIsKept(s, l);
    }
    GroupDrains(s, run, one);
    GroupCanProgress(After(s, run), one);
  }

  /** Subscription ids are not used twice, and an add needs an entry. */
  lemma {:induction false} NeverComesBack<C>(s: State<C>, run: seq<Action<C>>, sub: SubId)
    requires sub !in s.subs && sub < s.nextSub && IsRun(s, run)
    ensures sub !in After(s, run).subs && sub < After(s, run).nextSub
    ensures forall i :: 0 <= i < |run| ==> !(run[i].AddBegin? && run[i].sub == sub)
    decreases |run|
  {
    if run != [] {
      NeverComesBack(Apply(s, run[0]), run[1..], sub);
      assert forall i :: 1 <= i < |run| ==> run[i] == run[1..][i - 1];
    }
  }

  /** When no entry holds a topic and none is asked for, the count comes down to zero, in as many progress
      steps as are left: also if sessions stay, come and go, or have left entries behind. */
  lemma {:induction false} CountDrains<C>(s: State<C>, run: seq<Action<C>>)
    requires Kept(s) && CountIsExact(s) && Topicless(s, _ => true) && IsRun(s, run)
    requires forall i :: 0 <= i < |run| ==> !run[i].AddBegin?
    ensures var all, t := _ => true, After(s, run);
            && LeftOf(t, all) + ProgressStepsOf(s, run, all) == LeftOf(s, all)
            && (LeftOf(t, all) > 0 <==> exists a :: Enabled(t, a) && ProgressOf(t, a, all))
            && (LeftOf(t, all) == 0 ==> t.count == 0)
  {
    var all: SubId -> bool := _ => true;
    GroupDrains(s, run, all);
    RunKeeps(s, run);
    var t := After(s, run);
    GroupCanProgress(t, all);
    CountIsSize(t);
    if LeftOf(t, all) == 0 {
      assert AllFinished(t, all);
      assert Unfinished(t) == {};
    }
  }

  // ----- the count at rest -----

  /** No topic listener has a progress step to take, but that Redis may always hang up. */
  ghost predicate AtRest<C(!new)>(s: State<C>) {
    forall a, l :: Enabled(s, a) && Progress(s, a, l) ==> a.Disconnect?
  }

  /** The table holds this listener for a topic. */
  ghost predicate HeldForTopic<C>(s: State<C>, l: nat) {
    && l < |s.listeners| && s.listeners[l].isTopic && s.listeners[l].phase.Running? && s.listeners[l].control.Open?
    && |s.listeners[l].wanted| == 1 && s.listeners[l].sub in s.subs
    && (s.listeners[l].wanted[0], l) in s.subs[s.listeners[l].sub].topics.Items
  }

  /** At rest the listeners counted are running, each held by an entry for its topic; so the count is zero
      when no entry holds a topic, whatever other entries the table has. */
  lemma CountAtRest<C(!new)>(run: seq<Action<C>>)
    requires IsRun(Initial<C>(), run) && AtRest(After(Initial<C>(), run))
    ensures var s := After(Initial<C>(), run);
            && s.count == |Unfinished(s)|
            && (forall l :: l in Unfinished(s) ==> HeldForTopic(s, l))
            && ((forall sub :: sub in s.subs ==> s.subs[sub].topics == map[]) ==> s.count == 0)
  {
    var s := After(Initial<C>(), run);
    InitiallyKept<C>();
    RunKeeps(Initial<C>(), run);
    CountIsSize(s);
    forall l | l in Unfinished(s)
      ensures HeldForTopic(s, l)
    {
      RestingIsHeld(s, l);
    }
    if forall sub :: sub in s.subs ==> s.subs[sub].topics == map[] {
      assert Unfinished(s) == {};
    }
  }

  lemma RestingIsHeld<C(!new)>(s: State<C>, l: nat)
    requires Kept(s) && AtRest(s) && l < |s.listeners| && CountedIn(s.listeners[l]) == 1
    ensures HeldForTopic(s, l)
  {
    assert ListenerIsKept(s, l);
    if s.listeners[l].phase.Counted? {
      assert Enabled(s, Start(l)) && Progress(s, Start(l), l);
    } else if s.listeners[l].phase.Stopped? {
      assert Enabled(s, Leave(l)) && Progress(s, Leave(l), l);
    } else if !s.listeners[l].control.Open? {
      assert Enabled(s, Stop(l)) && Progress(s, Stop(l), l);
    }
  }
}
