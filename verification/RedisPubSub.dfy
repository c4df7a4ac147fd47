/** The broker object. Each call's effect is a function of the state before it, and that function is a run of
    the broker machine. */
module RedisPubSub {
  import opened Common
  import opened Broker
  import opened BrokerListeners

  /** How the Redis side of a call goes: all well, no connection, or the k-th channel cannot be subscribed. */
  datatype Link = Up | NoConnection | Refused(k: nat)

  datatype BrokerError = NotFound | AlreadySubscribed | NotSubscribed | LinkFailed

  type S = State<string>

  // ----- what the calls do -----

  function Repeat(n: nat, k: nat): (r: seq<nat>)
    ensures |r| == k
  {
    if k == 0 then [] else Repeat(n, k - 1) + [n]
  }

  /** A main listener that runs and hears all channels. */
  function Subscribed(s: S, channels: seq<string>): S {
    s.(subs := s.subs[s.nextSub := Entry(|s.listeners|, map[])],
       nextSub := s.nextSub + 1,
       listeners := s.listeners + [Listener(s.nextSub, false, channels, Repeat(|s.published|, |channels|), Open, Running, [], [])],
       receivers := s.receivers + {s.nextSub})
  }

  /** A subscribe that failed after k channels: the entry is in the table, and nobody will remove it. */
  function SubscribeFailed(s: S, channels: seq<string>, k: nat): S
    requires k <= |channels|
  {
    s.(subs := s.subs[s.nextSub := Entry(|s.listeners|, map[])],
       nextSub := s.nextSub + 1,
       listeners := s.listeners + [Listener(s.nextSub, false, channels, Repeat(|s.published|, k), Open, Failed, [], [])],
       receivers := s.receivers - {s.nextSub})
  }

  function Added(s: S, channel: string, sub: SubId): S
    requires sub in s.subs
  {
    s.(subs := s.subs[sub := s.subs[sub].(topics := s.subs[sub].topics[channel := |s.listeners|])],
       listeners := s.listeners + [Listener(sub, true, [channel], [|s.published|], Open, Running, [], [])],
       count := s.count + 1)
  }

  function AddFailed(s: S, channel: string, sub: SubId): S {
    s.(listeners := s.listeners + [Listener(sub, true, [channel], [], Open, Failed, [], [])])
  }

  // ----- the calls are runs of the machine -----

  /** An add whose listener has joined its channel and stands in the given phase. */
  function Adding(s: S, channel: string, sub: SubId, phase: Phase): S {
    s.(listeners := s.listeners + [Listener(sub, true, [channel], [|s.published|], Open, phase, [], [])])
  }

  lemma {:induction false} AddJoins(s: S, channel: string, sub: SubId)
    requires Enabled(s, AddBegin(sub, channel))
    ensures var begun := Apply(s, AddBegin(sub, channel));
            Enabled(begun, Join(|s.listeners|)) && Apply(begun, Join(|s.listeners|)) == Adding(s, channel, sub, Connecting)
  {
    assert [] + [|s.published|] == [|s.published|];
  }

  lemma {:induction false} AddRegisters(s: S, channel: string, sub: SubId)
    requires Enabled(s, AddBegin(sub, channel))
    ensures var l, joined := |s.listeners|, Adding(s, channel, sub, Connecting);
            && Enabled(joined, Register(l))
            && Apply(joined, Register(l)) == Adding(s, channel, sub, Registered).(
                 subs := s.subs[sub := s.subs[sub].(topics := s.subs[sub].topics[channel := l])])
  {
  }

  /** A successful add: check, subscribe, register, count, spawn. */
  lemma {:induction false} AddedIsRun(s: S, channel: string, sub: SubId) returns (run: seq<Action<string>>)
    requires Enabled(s, AddBegin(sub, channel))
    ensures IsRun(s, run) && After(s, run) == Added(s, channel, sub)
  {
    var l := |s.listeners|;
    run := [AddBegin(sub, channel), Join(l), Register(l), Count(l), Start(l)];
    AddJoins(s, channel, sub);
    AddRegisters(s, channel, sub);
    var s1 := Apply(s, run[0]);
    var s2 := Adding(s, channel, sub, Connecting);
    var s3 := Apply(s2, run[2]);
    var s4 := Apply(s3, run[3]);
    var s5 := Apply(s4, run[4]);
    assert s5.listeners == Added(s, channel, sub).listeners;
    TraceIsRun([s, s1, s2, s3, s4, s5], run);
  }

  lemma {:induction false} AddFailedIsRun(s: S, channel: string, sub: SubId) returns (run: seq<Action<string>>)
    requires Enabled(s, AddBegin(sub, channel))
    ensures IsRun(s, run) && After(s, run) == AddFailed(s, channel, sub)
  {
    var l := |s.listeners|;
    run := [AddBegin(sub, channel), Fail(l)];
    var s1 := Apply(s, run[0]);
    var s2 := Apply(s1, run[1]);
    assert s2.listeners == AddFailed(s, channel, sub).listeners;
    TraceIsRun([s, s1, s2], run);
  }

  /** A subscribe that has joined its first k channels. */
  function Joining(s: S, channels: seq<string>, k: nat): S
    requires k <= |channels|
  {
    s.(subs := s.subs[s.nextSub := Entry(|s.listeners|, map[])],
       nextSub := s.nextSub + 1,
       listeners := s.listeners + [Listener(s.nextSub, false, channels, Repeat(|s.published|, k), Open, Connecting, [], [])],
       receivers := s.receivers + {s.nextSub})
  }

  lemma {:induction false} JoiningIsRun(s: S, channels: seq<string>, k: nat) returns (run: seq<Action<string>>)
    requires k <= |channels|
    ensures IsRun(s, run) && After(s, run) == Joining(s, channels, k)
    decreases k
  {
    var l := |s.listeners|;
    if k == 0 {
      run := [Subscribe(channels)];
      assert Apply(s, run[0]).listeners == Joining(s, channels, 0).listeners;
      TraceIsRun([s, Apply(s, run[0])], run);
    } else {
      var before := JoiningIsRun(s, channels, k - 1);
      var mid := Joining(s, channels, k - 1);
      var last := [Join(l)];
      assert Apply(mid, last[0]).listeners == Joining(s, channels, k).listeners;
      TraceIsRun([mid, Apply(mid, last[0])], last);
      RunsCompose(s, before, last);
      run := before + last;
    }
  }

  lemma {:induction false} SubscribedIsRun(s: S, channels: seq<string>) returns (run: seq<Action<string>>)
    ensures IsRun(s, run) && After(s, run) == Subscribed(s, channels)
  {
    var l := |s.listeners|;
    var before := JoiningIsRun(s, channels, |channels|);
    var mid := Joining(s, channels, |channels|);
    assert Apply(mid, Start(l)).listeners == Subscribed(s, channels).listeners;
    TraceIsRun([mid, Apply(mid, Start(l))], [Start(l)]);
    RunsCompose(s, before, [Start(l)]);
    run := before + [Start(l)];
  }

  lemma {:induction false} SubscribeFailedIsRun(s: S, channels: seq<string>, k: nat) returns (run: seq<Action<string>>)
    requires k <= |channels| && s.nextSub !in s.receivers
    ensures IsRun(s, run) && After(s, run) == SubscribeFailed(s, channels, k)
  {
    var l := |s.listeners|;
    var before := JoiningIsRun(s, channels, k);
    var mid := Joining(s, channels, k);
    assert Apply(mid, Fail(l)).listeners == SubscribeFailed(s, channels, k).listeners;
    assert Apply(mid, Fail(l)).receivers == SubscribeFailed(s, channels, k).receivers;
    TraceIsRun([mid, Apply(mid, Fail(l))], [Fail(l)]);
    RunsCompose(s, before, [Fail(l)]);
    run := before + [Fail(l)];
  }

  // ----- states of the machine -----

  /** Some run of the machine leads here. */
  ghost predicate Reached(s: S) {
    exists run :: IsRun(Initial<string>(), run) && After(Initial<string>(), run) == s
  }

  lemma {:induction false} ReachedExtends(s: S, run: seq<Action<string>>)
    requires Reached(s) && IsRun(s, run)
    ensures Reached(After(s, run))
  {
    var before :| IsRun(Initial<string>(), before) && After(Initial<string>(), before) == s;
    RunsCompose(Initial<string>(), before, run);
  }

  lemma {:induction false} ReachedStep(s: S, a: Action<string>)
    requires Reached(s) && Enabled(s, a)
    ensures Reached(Apply(s, a))
  {
    TraceIsRun([s, Apply(s, a)], [a]);
    ReachedExtends(s, [a]);
  }

  /** So all that holds along runs holds of it: among others, ids that receive have been given out. */
  lemma {:induction false} ReachedIsKept(s: S)
    requires Reached(s)
    ensures Kept(s) && CountIsExact(s) && forall sub :: sub in s.receivers ==> sub < s.nextSub
  {
    var run :| IsRun(Initial<string>(), run) && After(Initial<string>(), run) == s;
    InitiallyKept<string>();
    RunKeeps(Initial<string>(), run);
    ReceiversAreKnown(Initial<string>(), run);
  }

  lemma {:induction false} ReceiversAreKnown(s: S, run: seq<Action<string>>)
    requires IsRun(s, run) && forall sub :: sub in s.receivers ==> sub < s.nextSub
    ensures forall sub :: sub in After(s, run).receivers ==> sub < After(s, run).nextSub
    decreases |run|
  {
    if run != [] {
      ReceiversAreKnown(Apply(s, run[0]), run[1..]);
    }
  }

  lemma {:induction false} JoinOneMore(s: S, channels: seq<string>, k: nat)
    requires k < |channels|
    ensures var l := |s.listeners|;
            var t := Joining(s, channels, k);
            Set(t, l, t.listeners[l].(since := t.listeners[l].since + [|s.published|])) == Joining(s, channels, k + 1)
  {
    var l, t := |s.listeners|, Joining(s, channels, k);
    assert Set(t, l, t.listeners[l].(since := t.listeners[l].since + [|s.published|])).listeners
        == Joining(s, channels, k + 1).listeners;
  }

  lemma {:induction false} SubscribedIsReached(s: S, channels: seq<string>)
    requires Reached(s)
    ensures var l := |s.listeners|;
            var t := Joining(s, channels, |channels|);
            Set(t, l, t.listeners[l].(phase := Running)) == Subscribed(s, channels)
    ensures Reached(Subscribed(s, channels))
  {
    var l, t := |s.listeners|, Joining(s, channels, |channels|);
    assert Set(t, l, t.listeners[l].(phase := Running)).listeners == Subscribed(s, channels).listeners;
    var run := SubscribedIsRun(s, channels);
    ReachedExtends(s, run);
  }

  /** Every listener that heard the channel has the n-th message published, at the end of its queue; nothing
      else has changed. */
  ghost predicate HandedOut(before: seq<Listener<string>>, after: seq<Listener<string>>, n: nat, channel: string, data: seq<bv8>) {
    && |after| == |before|
    && forall l :: 0 <= l < |after| ==>
         after[l] == if Hears(before[l], channel) then before[l].(inbox := before[l].inbox + [Message(n, channel, data)])
                     else before[l]
  }

  /** A new main listener: it runs, nobody has told it to stop, it has received nothing, and it hears exactly
      the channels. */
  ghost predicate Serves(listener: Listener<string>, sub: SubId, channels: set<string>) {
    && listener.sub == sub && !listener.isTopic && listener.phase == Running && listener.control == Open
    && listener.inbox == [] && listener.forwarded == []
    && forall c :: Hears(listener, c) <==> c in channels
  }

  lemma {:induction false} SubscribedServes(s: S, channels: seq<string>)
    ensures var t := Subscribed(s, channels);
            && |t.listeners| == |s.listeners| + 1 && t.listeners[..|s.listeners|] == s.listeners
            && Serves(t.listeners[|s.listeners|], s.nextSub, set c | c in channels)
  {
    var listener := Subscribed(s, channels).listeners[|s.listeners|];
    forall c | c in channels
      ensures Joined(listener, c)
    {
      var k :| 0 <= k < |channels| && channels[k] == c;
      assert listener.wanted[k] == c;
    }
  }

  /** The same entries, and all but one of them unchanged. */
  ghost predicate OthersStay(before: map<SubId, Entry<string>>, after: map<SubId, Entry<string>>, sub: SubId) {
    after.Keys == before.Keys && forall x :: x in before && x != sub ==> after[x] == before[x]
  }

  /** An add changes one entry, and in it one topic. */
  lemma {:induction false} OneTopicIsAdded(s: S, channel: string, sub: SubId)
    requires sub in s.subs
    ensures OthersStay(s.subs, Added(s, channel, sub).subs, sub)
    ensures Added(s, channel, sub).subs[sub].topics.Keys == s.subs[sub].topics.Keys + {channel}
  {
  }

  lemma {:induction false} AddedIsReached(s: S, channel: string, sub: SubId)
    requires Enabled(s, AddBegin(sub, channel)) && Reached(s)
    ensures Reached(Added(s, channel, sub))
  {
    var run := AddedIsRun(s, channel, sub);
    ReachedExtends(s, run);
  }

  lemma {:induction false} AddFailedIsReached(s: S, channel: string, sub: SubId)
    requires Enabled(s, AddBegin(sub, channel)) && Reached(s)
    ensures Reached(AddFailed(s, channel, sub))
  {
    var run := AddFailedIsRun(s, channel, sub);
    ReachedExtends(s, run);
  }

  lemma {:induction false} StepKeepsFailed(s: S, a: Action<string>, l: nat)
    requires Enabled(s, a) && l < |s.listeners| && s.listeners[l].phase.Failed?
    ensures l < |Apply(s, a).listeners| && Apply(s, a).listeners[l].phase.Failed?
  {
    if a.Register? {
      RegisterSpares(s, a.l, l);
    } else if TouchesOne(a) {
      OneSpares(s, a, l);
    }
  }

  lemma {:induction false} StepKeepsEntry(s: S, a: Action<string>, sub: SubId)
    requires Enabled(s, a) && sub < s.nextSub
    ensures sub < Apply(s, a).nextSub
    ensures sub in Apply(s, a).subs <==> sub in s.subs && a != Unsubscribe(sub)
    ensures sub in Apply(s, a).subs ==> Apply(s, a).subs[sub].main == s.subs[sub].main
  {
    if TouchesOne(a) {
      OneChanges(s, a);
    }
  }

  lemma {:induction false} FailedEntryStays(s: S, run: seq<Action<string>>, sub: SubId, main: nat)
    requires IsRun(s, run) && sub < s.nextSub && main < |s.listeners| && s.listeners[main].phase.Failed?
    requires sub in s.subs ==> s.subs[sub].main == main
    ensures var t := After(s, run);
            && main < |t.listeners| && t.listeners[main].phase.Failed?
            && (sub in t.subs <==> sub in s.subs && Unsubscribe(sub) !in run)
            && (sub in t.subs ==> t.subs[sub].main == main)
    decreases |run|
  {
    if run != [] {
      StepKeepsFailed(s, run[0], main);
      StepKeepsEntry(s, run[0], sub);
      FailedEntryStays(Apply(s, run[0]), run[1..], sub, main);
      assert run == [run[0]] + run[1..];
    }
  }

  /** After a failed subscribe, along every run, the table holds its entry exactly as long as nobody
      unsubscribes the id, which the caller has not been told; and no listener ever serves the entry, for its
      main listener has failed and stays so. */
  lemma {:induction false} FailedSubscribeLeaks(s: S, channels: seq<string>, k: nat, run: seq<Action<string>>)
    requires k <= |channels| && IsRun(SubscribeFailed(s, channels, k), run)
    ensures var t := After(SubscribeFailed(s, channels, k), run);
            && |s.listeners| < |t.listeners| && t.listeners[|s.listeners|].phase.Failed?
            && (s.nextSub in t.subs <==> Unsubscribe(s.nextSub) !in run)
            && (s.nextSub in t.subs ==> t.subs[s.nextSub].main == |s.listeners|)
  {
    FailedEntryStays(SubscribeFailed(s, channels, k), run, s.nextSub, |s.listeners|);
  }

  /** Without the entry that may have changed, the tables are the same. */
  lemma {:induction false} OthersAreAll(before: map<SubId, Entry<string>>, after: map<SubId, Entry<string>>, sub: SubId)
    requires OthersStay(before, after, sub)
    ensures after - {sub} == before - {sub}
  {
  }

  /** Between two calls of the object no add awaits its connection, so nothing is guarded. */
  ghost predicate NoAddUnderWay(s: S) {
    forall l :: 0 <= l < |s.listeners| && s.listeners[l].isTopic ==> !s.listeners[l].phase.Connecting?
  }

  class PubSub {
    var subscriptions: map<SubId, Entry<string>>
    var nextSub: SubId
    var listeners: seq<Listener<string>>
    var receivers: set<SubId>
    var activeTopicListeners: int
    var published: seq<(string, seq<bv8>)>

    function Now(): S
      reads this
    {
      State(subscriptions, nextSub, listeners, receivers, activeTopicListeners, published)
    }

    /** The object is in a state that a run of the machine leads to. */
    ghost predicate Valid()
      reads this
    {
      Reached(Now()) && NoAddUnderWay(Now())
    }

    constructor ()
      ensures Valid() && Now() == Initial()
    {
      subscriptions, nextSub, listeners, receivers, activeTopicListeners, published := map[], 0, [], {}, 0, [];
      new;
      assert IsRun(Initial<string>(), []) && After(Initial<string>(), []) == Now();
    }

    method PublishCall(channel: string, data: seq<bv8>, link: Link) returns (r: Result<(), BrokerError>)
      requires Valid()
      modifies this
      ensures Valid()
      ensures r.Ok? <==> link.Up?
      ensures Now() == if link.Up? then Apply(old(Now()), Publish(channel, data)) else old(Now())
      ensures published == old(published) + if link.Up? then [(channel, data)] else []
      ensures if link.Up? then HandedOut(old(listeners), listeners, old(|published|), channel, data) else listeners == old(listeners)
      ensures subscriptions == old(subscriptions) && nextSub == old(nextSub) && receivers == old(receivers)
    {
      if !link.Up? {
        return Err(LinkFailed);
      }
      ghost var before := Now();
      var m := Message(|published|, channel, data);
      published := published + [(channel, data)];
      var connected := listeners;
      listeners := seq(|connected|, l requires 0 <= l < |connected| => Receive(connected[l], m));
      assert listeners == Apply(before, Publish(channel, data)).listeners;
      ReachedStep(before, Publish(channel, data));
      return Ok(());
    }

    /** The channels are subscribed one after the other, after the entry has been made. */
    method SubscribeCall(channels: seq<string>, link: Link) returns (r: Result<SubId, BrokerError>)
      requires Valid()
      modifies this
      ensures Valid()
      ensures link.Up? || (link.Refused? && link.k >= |channels|) <==> r.Ok?
      ensures subscriptions == old(subscriptions)[old(nextSub) := Entry(old(|listeners|), map[])] && nextSub == old(nextSub) + 1
      ensures r.Ok? ==> r == Ok(old(nextSub)) && Now() == Subscribed(old(Now()), channels)
      ensures |listeners| == |old(listeners)| + 1 && listeners[..|old(listeners)|] == old(listeners)
      ensures r.Ok? ==>
                && Serves(listeners[old(|listeners|)], r.value, set c | c in channels)
                && receivers == old(receivers) + {r.value}
      ensures r.Err? ==> listeners[old(|listeners|)].phase.Failed? && receivers == old(receivers) - {old(nextSub)}
      ensures published == old(published) && activeTopicListeners == old(activeTopicListeners)
      ensures r.Err? ==> exists k :: 0 <= k <= |channels| && Now() == SubscribeFailed(old(Now()), channels, k)
    {
      ghost var before := Now();
      var sub := nextSub;
      var main := |listeners|;
      nextSub := nextSub + 1;
      receivers := receivers + {sub};
      subscriptions := subscriptions[sub := Entry(main, map[])];
      listeners := listeners + [NewListener(sub, false, channels)];
      if link.NoConnection? {
        GiveUp(before, channels, main, sub, 0);
        return Err(LinkFailed);
      }
      assert Now().listeners == Joining(before, channels, 0).listeners;
      for i := 0 to |channels|
        invariant link.Refused? ==> i <= link.k
        invariant main == |before.listeners| && sub == before.nextSub
        invariant Now() == Joining(before, channels, i)
      {
        if link == Refused(i) {
          GiveUp(before, channels, main, sub, i);
          return Err(LinkFailed);
        }
        listeners := listeners[main := listeners[main].(since := listeners[main].since + [|published|])];
        JoinOneMore(before, channels, i);
      }
      listeners := listeners[main := listeners[main].(phase := Running)];
      SubscribedIsReached(before, channels);
      SubscribedServes(before, channels);
      return Ok(sub);
    }

    /** The call returns early: its control receiver and its subscription are dropped, its entry is not. */
    method GiveUp(ghost before: S, channels: seq<string>, main: nat, sub: SubId, ghost k: nat)
      requires Reached(before) && NoAddUnderWay(before)
      requires k <= |channels| && Now() == Joining(before, channels, k)
      requires main == |before.listeners| && sub == before.nextSub
      modifies this
      ensures Valid() && Now() == SubscribeFailed(before, channels, k)
    {
      listeners := listeners[main := listeners[main].(phase := Failed)];
      receivers := receivers - {sub};
      assert Now().listeners == SubscribeFailed(before, channels, k).listeners;
      assert Now().receivers == SubscribeFailed(before, channels, k).receivers;
      ReachedIsKept(before);
      var run := SubscribeFailedIsRun(before, channels, k);
      ReachedExtends(before, run);
    }

    method AddSubscription(channel: string, sub: SubId, link: Link) returns (r: Result<(), BrokerError>)
      requires Valid()
      modifies this
      ensures Valid()
      ensures r == if sub !in old(subscriptions) then Err(NotFound)
                   else if channel in old(subscriptions)[sub].topics then Err(AlreadySubscribed)
                   else if !link.Up? then Err(LinkFailed)
                   else Ok(())
      ensures OthersStay(old(subscriptions), subscriptions, sub) && nextSub == old(nextSub)
      ensures r.Ok? ==> subscriptions[sub].topics.Keys == old(subscriptions)[sub].topics.Keys + {channel}
      ensures r.Err? ==> subscriptions == old(subscriptions)
      ensures r.Ok? ==> Now() == Added(old(Now()), channel, sub)
      ensures r.Ok? ==>
                listeners == old(listeners) + [Listener(sub, true, [channel], [|old(published)|], Open, Running, [], [])]
                && subscriptions[sub].topics[channel] == |old(listeners)|
                && published == old(published) && activeTopicListeners == old(activeTopicListeners) + 1
      ensures r == Err(LinkFailed) ==> Now() == AddFailed(old(Now()), channel, sub)
      ensures r == Err(NotFound) || r == Err(AlreadySubscribed) ==> Now() == old(Now())
    {
      if sub !in subscriptions {
        return Err(NotFound);
      }
      if channel in subscriptions[sub].topics {
        return Err(AlreadySubscribed);
      }
      ghost var before := Now();
      if !link.Up? {
        listeners := listeners + [Listener(sub, true, [channel], [], Open, Failed, [], [])];
        AddFailedIsReached(before, channel, sub);
        return Err(LinkFailed);
      }
      OneTopicIsAdded(before, channel, sub);
      RegisterListener(channel, sub);
      return Ok(());
    }

    /** The connection is up: the listener is registered, counted and started. */
    method RegisterListener(channel: string, sub: SubId)
      requires Valid() && sub in subscriptions && channel !in subscriptions[sub].topics
      modifies this
      ensures Valid()
      ensures Now() == Added(old(Now()), channel, sub)
    {
      ghost var before := Now();
      var l := |listeners|;
      listeners := listeners + [Listener(sub, true, [channel], [|published|], Open, Running, [], [])];
      subscriptions := subscriptions[sub := subscriptions[sub].(topics := subscriptions[sub].topics[channel := l])];
      activeTopicListeners := activeTopicListeners + 1;
      assert Now() == Added(before, channel, sub);
      AddedIsReached(before, channel, sub);
    }

    method RemoveSubscription(channel: string, sub: SubId) returns (r: Result<(), BrokerError>)
      requires Valid()
      modifies this
      ensures Valid()
      ensures r == if sub !in old(subscriptions) then Err(NotFound)
                   else if channel !in old(subscriptions)[sub].topics then Err(NotSubscribed)
                   else Ok(())
      ensures OthersStay(old(subscriptions), subscriptions, sub) && nextSub == old(nextSub)
      ensures r.Ok? ==> subscriptions[sub].topics.Keys == old(subscriptions)[sub].topics.Keys - {channel}
      ensures r.Ok? ==> Enabled(old(Now()), Remove(sub, channel)) && Now() == Apply(old(Now()), Remove(sub, channel))
      ensures r.Err? ==> Now() == old(Now())
    {
      if sub !in subscriptions {
        return Err(NotFound);
      }
      if channel !in subscriptions[sub].topics {
        return Err(NotSubscribed);
      }
      ShutListener(channel, sub);
      return Ok(());
    }

    /** The control is taken out of the entry, and its listener told to shut down. */
    method ShutListener(channel: string, sub: SubId)
      requires Valid() && sub in subscriptions && channel in subscriptions[sub].topics
      modifies this
      ensures Valid() && nextSub == old(nextSub)
      ensures Enabled(old(Now()), Remove(sub, channel)) && Now() == Apply(old(Now()), Remove(sub, channel))
      ensures OthersStay(old(subscriptions), subscriptions, sub)
      ensures subscriptions[sub].topics.Keys == old(subscriptions)[sub].topics.Keys - {channel}
    {
      ghost var before := Now();
      ReachedIsKept(before);
      assert EntryIsTrue(before, sub);
      var l := subscriptions[sub].topics[channel];
      subscriptions := subscriptions[sub := subscriptions[sub].(topics := subscriptions[sub].topics - {channel})];
      listeners := listeners[l := Shut(listeners[l])];
      ReachedStep(before, Remove(sub, channel));
    }

    /** The entry is removed, then every listener it knows is told to shut down. */
    method UnsubscribeCall(sub: SubId)
      requires Valid()
      modifies this
      ensures Valid() && !Guarded(old(Now()), sub)
      ensures Now() == Apply(old(Now()), Unsubscribe(sub))
      ensures sub !in subscriptions
      ensures sub in old(subscriptions) ==>
                forall l :: 0 <= l < |listeners| && Holds(old(subscriptions)[sub], l) ==> !listeners[l].control.Open?
    {
      ghost var before := Now();
      if sub in subscriptions {
        var entry := subscriptions[sub];
        ReachedIsKept(before);
        assert EntryIsTrue(before, sub);
        subscriptions := subscriptions - {sub};
        ShutAll(entry);
        assert listeners == Apply(before, Unsubscribe(sub)).listeners;
      }
      ReachedStep(before, Unsubscribe(sub));
    }

    /** The session lets go of its subscription: what is forwarded to it from now on goes nowhere. */
    method DropSubscription(sub: SubId)
      requires Valid()
      modifies this
      ensures Valid() && Now() == Apply(old(Now()), DropReceiver(sub))
    {
      ghost var before := Now();
      receivers := receivers - {sub};
      ReachedStep(before, DropReceiver(sub));
    }

    /** The main listener is told first, then those of the topics, one after the other. */
    method ShutAll(entry: Entry<string>)
      requires entry.main < |listeners| && forall l :: l in entry.topics.Values ==> l < |listeners|
      modifies this`listeners
      ensures |listeners| == |old(listeners)|
      ensures forall l :: 0 <= l < |listeners| ==>
                listeners[l] == if Holds(entry, l) then Shut(old(listeners)[l]) else old(listeners)[l]
    {
      listeners := listeners[entry.main := Shut(listeners[entry.main])];
      var left := entry.topics.Values;
      while left != {}
        invariant left <= entry.topics.Values && |listeners| == |old(listeners)|
        invariant forall l :: 0 <= l < |listeners| ==>
                    listeners[l] == if l == entry.main || l in entry.topics.Values - left
                                    then Shut(old(listeners)[l]) else old(listeners)[l]
        decreases left
      {
        var l :| l in left;
        listeners := listeners[l := Shut(listeners[l])];
        left := left - {l};
      }
    }
  }
}
