/** What happens when two listeners of one subscription do overlap: the condition under which a subscription is
    forwarded each message at most once cannot be weakened. */
module BrokerOverlap {
  import opened Broker
  import opened BrokerListeners
  import opened BrokerDelivery

  /** All that a listener has is the same; only its control may have changed. */
  ghost predicate SameButControl<C>(a: Listener<C>, b: Listener<C>) {
    b == a.(control := b.control)
  }

  /** Nothing was published, nobody left, and every listener but one is the same. */
  ghost predicate OnlyMoved<C>(s: State<C>, t: State<C>, k: nat) {
    && t.published == s.published && t.receivers == s.receivers && |t.listeners| == |s.listeners|
    && (forall j :: 0 <= j < |s.listeners| && j != k ==> SameButControl(s.listeners[j], t.listeners[j]))
  }

  // ----- a connected listener can come to its loop -----

  /** The steps from where it stands to its loop. */
  function StepsToLoop<C>(listener: Listener<C>): nat {
    match listener.phase
    case Connecting => 4 + if |listener.since| <= |listener.wanted| then |listener.wanted| - |listener.since| else 0
    case Registered => 2
    case Counted => 1
    case _ => 0
  }

  function TowardsLoop<C>(s: State<C>, k: nat): Action<C>
    requires k < |s.listeners|
  {
    var listener := s.listeners[k];
    match listener.phase
    case Connecting =>
      if listener.isTopic then Register(k) else if |listener.since| < |listener.wanted| then Join(k) else Start(k)
    case Registered => Count(k)
    case _ => Start(k)
  }

  /** Connected, with nothing that keeps it from its loop. */
  ghost predicate OnItsWay<C>(s: State<C>, k: nat) {
    && k < |s.listeners| && Connected(s.listeners[k]) && |s.listeners[k].since| <= |s.listeners[k].wanted|
    && (s.listeners[k].isTopic && s.listeners[k].phase.Connecting? ==> |s.listeners[k].since| == |s.listeners[k].wanted| == 1)
  }

  lemma StepTowardsLoop<C>(s: State<C>, k: nat)
    requires Kept(s) && OnItsWay(s, k) && !s.listeners[k].phase.Running?
    ensures var a := TowardsLoop(s, k);
            && Enabled(s, a)
            && Kept(Apply(s, a)) && OnItsWay(Apply(s, a), k) && OnlyMoved(s, Apply(s, a), k)
            && StepsToLoop(Apply(s, a).listeners[k]) < StepsToLoop(s.listeners[k])
            && var before, after := s.listeners[k], Apply(s, a).listeners[k];
            && after.sub == before.sub && Received(after) == Received(before) && after.wanted == before.wanted
            && before.since <= after.since
  {
    var a := TowardsLoop(s, k);
    assert ListenerIsKept(s, k);
    StepKeeps(s, a);
    if a.Register? {
      RegisterChanges(s, k);
    } else {
      OneChanges(s, a);
    }
  }

  lemma JoinedStays<C>(a: Listener<C>, b: Listener<C>, c: C)
    requires a.wanted == b.wanted && a.since <= b.since && Joined(a, c)
    ensures Joined(b, c)
  {
    var i :| 0 <= i < |a.since| && i < |a.wanted| && a.wanted[i] == c;
    assert b.wanted[i] == c;
  }

  lemma {:induction false} ReachesLoop<C>(s: State<C>, k: nat, c: C) returns (run: seq<Action<C>>)
    requires Kept(s) && OnItsWay(s, k) && Joined(s.listeners[k], c)
    ensures IsRun(s, run) && Kept(After(s, run)) && OnlyMoved(s, After(s, run), k)
    ensures var before, after := s.listeners[k], After(s, run).listeners[k];
            && after.phase.Running? && after.sub == before.sub && Joined(after, c) && Received(after) == Received(before)
    decreases StepsToLoop(s.listeners[k])
  {
    if s.listeners[k].phase.Running? {
      run := [];
    } else {
      var a := TowardsLoop(s, k);
      StepTowardsLoop(s, k);
      var next := Apply(s, a);
      JoinedStays(s.listeners[k], next.listeners[k], c);
      var rest := ReachesLoop(next, k, c);
      run := [a] + rest;
      assert run[1..] == rest;
    }
  }

  // ----- a running listener can forward all it has -----

  lemma {:induction false} ForwardsAll<C>(s: State<C>, k: nat) returns (run: seq<Action<C>>)
    requires k < |s.listeners| && s.listeners[k].phase.Running? && s.listeners[k].sub in s.receivers
    ensures IsRun(s, run) && OnlyMoved(s, After(s, run), k)
    ensures After(s, run).listeners[k].sub == s.listeners[k].sub
    ensures After(s, run).listeners[k].forwarded == Received(s.listeners[k])
    decreases |s.listeners[k].inbox|
  {
    if s.listeners[k].inbox == [] {
      run := [];
    } else {
      var next := Apply(s, Forward(k));
      assert Received(next.listeners[k]) == Received(s.listeners[k]);
      var rest := ForwardsAll(next, k);
      run := [Forward(k)] + rest;
      assert run[1..] == rest;
    }
  }

  /** The next message on a channel reaches two running listeners that hear it, and both forward it. */
  lemma {:induction false} BothForward<C>(s: State<C>, k: nat, l: nat, c: C, payload: seq<bv8>) returns (run: seq<Action<C>>)
    requires k < |s.listeners| && l < |s.listeners| && k != l
    requires forall x :: x == k || x == l ==>
               s.listeners[x].phase.Running? && s.listeners[x].sub in s.receivers && Joined(s.listeners[x], c)
    ensures IsRun(s, run)
    ensures var t := After(s, run);
            && |t.listeners| == |s.listeners|
            && forall x :: x == k || x == l ==>
                 && t.listeners[x].sub == s.listeners[x].sub
                 && t.listeners[x].forwarded == Received(s.listeners[x]) + [Message(|s.published|, c, payload)]
  {
    var m := Message(|s.published|, c, payload);
    var published := Apply(s, Publish(c, payload));
    forall x | x == k || x == l
      ensures Received(published.listeners[x]) == Received(s.listeners[x]) + [m]
    {
      assert published.listeners[x] == Receive(s.listeners[x], m);
    }
    TraceIsRun([s, published], [Publish(c, payload)]);
    var first := ForwardsAll(published, k);
    var half := After(published, first);
    assert SameButControl(published.listeners[l], half.listeners[l]);
    var second := ForwardsAll(half, l);
    assert SameButControl(half.listeners[k], After(half, second).listeners[k]);
    RunsCompose(published, first, second);
    RunsCompose(s, [Publish(c, payload)], first + second);
    run := [Publish(c, payload)] + (first + second);
  }

  // ----- the condition is exact -----

  /** Some message has been forwarded to a subscription by two of its listeners. */
  ghost predicate DeliveredTwice<C>(s: State<C>, k: nat, l: nat) {
    && k < |s.listeners| && l < |s.listeners| && k != l && s.listeners[k].sub == s.listeners[l].sub
    && exists i, j :: 0 <= i < |s.listeners[k].forwarded| && 0 <= j < |s.listeners[l].forwarded|
         && s.listeners[k].forwarded[i].index == s.listeners[l].forwarded[j].index
  }

  /** Whenever a listener may join a channel that another listener of its subscription still hears, and the
      session still receives, the run can go on with that join to one in which both forward one message. */
  lemma {:induction false} OverlapDeliversTwice<C>(s: State<C>, k: nat, l: nat, payload: seq<bv8>) returns (run: seq<Action<C>>)
    requires Kept(s) && AllDeliver(s) && Enabled(s, Join(l))
    requires k < |s.listeners| && k != l && s.listeners[k].sub == s.listeners[l].sub && s.listeners[l].sub in s.receivers
    requires Hears(s.listeners[k], s.listeners[l].wanted[|s.listeners[l].since|])
    ensures IsRun(s, run) && |run| > 0 && run[0] == Join(l)
    ensures DeliveredTwice(After(s, run), k, l)
  {
    var c := s.listeners[l].wanted[|s.listeners[l].since|];
    var joined := Apply(s, Join(l));
    StepKeeps(s, Join(l));
    TraceIsRun([s, joined], [Join(l)]);
    JoinedAfterJoin(s.listeners[l], |s.published|, c);
    JoinIsOnItsWay(s, k, l);
    var first := ReachesLoop(joined, k, c);
    var half := After(joined, first);
    assert SameButControl(joined.listeners[l], half.listeners[l]);
    var second := ReachesLoop(half, l, c);
    var both := After(half, second);
    assert SameButControl(half.listeners[k], both.listeners[k]);
    var third := BothForward(both, k, l, c, payload);
    RunsCompose(half, second, third);
    RunsCompose(joined, first, second + third);
    RunsCompose(s, [Join(l)], first + (second + third));
    run := [Join(l)] + (first + (second + third));
    var t := After(s, run);
    assert t.listeners[k].forwarded[|t.listeners[k].forwarded| - 1].index
        == t.listeners[l].forwarded[|t.listeners[l].forwarded| - 1].index;
  }

  lemma JoinIsOnItsWay<C>(s: State<C>, k: nat, l: nat)
    requires Kept(s) && AllDeliver(s) && Enabled(s, Join(l)) && k < |s.listeners| && k != l
    requires Hears(s.listeners[k], s.listeners[l].wanted[|s.listeners[l].since|])
    ensures OnItsWay(Apply(s, Join(l)), l) && OnItsWay(Apply(s, Join(l)), k)
    ensures Joined(Apply(s, Join(l)).listeners[k], s.listeners[l].wanted[|s.listeners[l].since|])
  {
    assert ListenerIsKept(s, k) && ListenerIsKept(s, l);
    assert Delivers(s, s.listeners[k]);
  }

  lemma {:induction false} RemoveThenAdd<C>(s: State<C>, sub: SubId, channel: C)
    requires Kept(s) && Enabled(s, Remove(sub, channel))
    requires Hears(s.listeners[s.subs[sub].topics[channel]], channel)
    ensures var removed := Apply(s, Remove(sub, channel));
            && Enabled(removed, AddBegin(sub, channel))
            && var l, begun := s.subs[sub].topics[channel], Apply(removed, AddBegin(sub, channel));
            && begun.receivers == s.receivers
            && |begun.listeners| == |s.listeners| + 1
            && begun.listeners[|s.listeners|] == NewListener(sub, true, [channel])
            && begun.listeners[l].sub == sub && Hears(begun.listeners[l], channel)
  {
    var l, removed := s.subs[sub].topics[channel], Apply(s, Remove(sub, channel));
    assert EntryIsTrue(s, sub);
    assert removed.listeners[l] == Shut(s.listeners[l]);
    JoinedStays(s.listeners[l], removed.listeners[l], channel);
  }

  lemma {:induction false} TwoSteps<C>(s: State<C>, a: Action<C>, b: Action<C>)
    requires Kept(s) && AllDeliver(s) && Enabled(s, a) && Enabled(Apply(s, a), b)
    ensures IsRun(s, [a, b]) && After(s, [a, b]) == Apply(Apply(s, a), b)
    ensures Kept(Apply(Apply(s, a), b)) && AllDeliver(Apply(Apply(s, a), b))
  {
    var s1 := Apply(s, a);
    StepKeeps(s, a);
    StepDelivers(s, a);
    StepKeeps(s1, b);
    StepDelivers(s1, b);
    TraceIsRun([s, s1, Apply(s1, b)], [a, b]);
  }

  /** So a topic that is removed and added again, while the removed listener still hears it, can be delivered
      twice. */
  lemma {:induction false} RemovedAndAddedAgain<C>(s: State<C>, sub: SubId, channel: C, payload: seq<bv8>)
    returns (run: seq<Action<C>>)
    requires Kept(s) && AllDeliver(s) && Enabled(s, Remove(sub, channel)) && sub in s.receivers
    requires Hears(s.listeners[s.subs[sub].topics[channel]], channel)
    ensures IsRun(s, run) && DeliveredTwice(After(s, run), s.subs[sub].topics[channel], |s.listeners|)
  {
    RemoveThenAdd(s, sub, channel);
    TwoSteps(s, Remove(sub, channel), AddBegin(sub, channel));
    var steps := [Remove(sub, channel), AddBegin(sub, channel)];
    var rest := OverlapDeliversTwice(After(s, steps), s.subs[sub].topics[channel], |s.listeners|, payload);
    RunsCompose(s, steps, rest);
    run := steps + rest;
  }
}
