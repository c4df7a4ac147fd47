/** The broker that knows channels by name behaves as one that knows them by address. */
module Routing {
  import opened Broker
  import B = BrokerDelivery
  import opened Channels

  // ----- renaming channels -----

  ghost predicate Injective<C(!new), D>(f: C -> D) {
    forall a, b :: f(a) == f(b) ==> a == b
  }

  function MapSeq<C, D>(f: C -> D, s: seq<C>): (r: seq<D>)
    ensures |r| == |s| && forall i :: 0 <= i < |s| ==> r[i] == f(s[i])
  {
    seq(|s|, i requires 0 <= i < |s| => f(s[i]))
  }

  function MapMessage<C, D>(f: C -> D, m: Message<C>): Message<D> {
    Message(m.index, f(m.channel), m.payload)
  }

  function MapMessages<C, D>(f: C -> D, s: seq<Message<C>>): (r: seq<Message<D>>)
    ensures |r| == |s| && forall i :: 0 <= i < |s| ==> r[i] == MapMessage(f, s[i])
  {
    seq(|s|, i requires 0 <= i < |s| => MapMessage(f, s[i]))
  }

  function MapListener<C, D>(f: C -> D, l: Listener<C>): Listener<D> {
    Listener(l.sub, l.isTopic, MapSeq(f, l.wanted), l.since, l.control, l.phase,
             MapMessages(f, l.inbox), MapMessages(f, l.forwarded))
  }

  ghost function MapEntry<C(!new), D>(f: C -> D, e: Entry<C>): Entry<D>
    requires Injective(f)
  {
    Entry(e.main, map c | c in e.topics :: f(c) := e.topics[c])
  }

  ghost function MapState<C(!new), D>(f: C -> D, s: State<C>): State<D>
    requires Injective(f)
  {
    State(map sub | sub in s.subs :: MapEntry(f, s.subs[sub]),
          s.nextSub,
          seq(|s.listeners|, l requires 0 <= l < |s.listeners| => MapListener(f, s.listeners[l])),
          s.receivers,
          s.count,
          seq(|s.published|, n requires 0 <= n < |s.published| => (f(s.published[n].0), s.published[n].1)))
  }

  function MapAction<C, D>(f: C -> D, a: Action<C>): Action<D> {
    match a
    case Subscribe(channels) => Subscribe(MapSeq(f, channels))
    case Join(l) => Join(l)
    case Fail(l) => Fail(l)
    case AddBegin(sub, channel) => AddBegin(sub, f(channel))
    case Register(l) => Register(l)
    case Count(l) => Count(l)
    case Start(l) => Start(l)
    case Remove(sub, channel) => Remove(sub, f(channel))
    case Unsubscribe(sub) => Unsubscribe(sub)
    case Publish(channel, payload) => Publish(f(channel), payload)
    case Forward(l) => Forward(l)
    case Stop(l) => Stop(l)
    case Disconnect(l) => Disconnect(l)
    case Leave(l) => Leave(l)
    case DropReceiver(sub) => DropReceiver(sub)
  }

  function MapRun<C, D>(f: C -> D, run: seq<Action<C>>): (r: seq<Action<D>>)
    ensures |r| == |run| && forall i :: 0 <= i < |run| ==> r[i] == MapAction(f, run[i])
  {
    seq(|run|, i requires 0 <= i < |run| => MapAction(f, run[i]))
  }

  // ----- renaming commutes with every step -----

  lemma MapHears<C(!new), D>(f: C -> D, l: Listener<C>, c: C)
    requires Injective(f)
    ensures Hears(MapListener(f, l), f(c)) <==> Hears(l, c)
  {
    if Joined(l, c) {
      var k :| 0 <= k < |l.since| && k < |l.wanted| && l.wanted[k] == c;
      assert MapListener(f, l).wanted[k] == f(c);
    }
    if Joined(MapListener(f, l), f(c)) {
      var k :| 0 <= k < |l.since| && k < |l.wanted| && MapListener(f, l).wanted[k] == f(c);
      assert l.wanted[k] == c;
    }
  }

  lemma MapReceive<C(!new), D>(f: C -> D, l: Listener<C>, m: Message<C>)
    requires Injective(f)
    ensures Receive(MapListener(f, l), MapMessage(f, m)) == MapListener(f, Receive(l, m))
  {
    MapHears(f, l, m.channel);
  }

  lemma MapGuarded<C(!new), D>(f: C -> D, s: State<C>, sub: SubId)
    requires Injective(f)
    ensures Guarded(MapState(f, s), sub) <==> Guarded(s, sub)
  {
    var t := MapState(f, s);
    if l :| 0 <= l < |s.listeners| && s.listeners[l].isTopic && s.listeners[l].phase.Connecting? && s.listeners[l].sub == sub {
      assert t.listeners[l].isTopic && t.listeners[l].phase.Connecting? && t.listeners[l].sub == sub;
    }
    if l :| 0 <= l < |t.listeners| && t.listeners[l].isTopic && t.listeners[l].phase.Connecting? && t.listeners[l].sub == sub {
      assert s.listeners[l].isTopic && s.listeners[l].phase.Connecting? && s.listeners[l].sub == sub;
    }
  }

  lemma MapTopics<C(!new), D>(f: C -> D, e: Entry<C>, c: C)
    requires Injective(f)
    ensures f(c) in MapEntry(f, e).topics <==> c in e.topics
    ensures c in e.topics ==> MapEntry(f, e).topics[f(c)] == e.topics[c]
    ensures MapEntry(f, e).topics.Values == e.topics.Values
  {
    forall v | v in e.topics.Values ensures v in MapEntry(f, e).topics.Values {
      var c' :| c' in e.topics && e.topics[c'] == v;
      assert MapEntry(f, e).topics[f(c')] == v;
    }
  }

  lemma MapEnabled<C(!new), D>(f: C -> D, s: State<C>, a: Action<C>)
    requires Injective(f)
    ensures Enabled(MapState(f, s), MapAction(f, a)) <==> Enabled(s, a)
  {
    match a
    case AddBegin(sub, channel) =>
      if sub in s.subs {
        MapTopics(f, s.subs[sub], channel);
      }
    case Remove(sub, channel) =>
      if sub in s.subs {
        MapTopics(f, s.subs[sub], channel);
      }
    case Unsubscribe(sub) => MapGuarded(f, s, sub);
    case _ =>
  }

  /** States that agree on every component are equal. */
  lemma SameState<D>(a: State<D>, b: State<D>)
    requires a.subs == b.subs && a.nextSub == b.nextSub && a.receivers == b.receivers && a.count == b.count
    requires |a.listeners| == |b.listeners| && forall l :: 0 <= l < |a.listeners| ==> a.listeners[l] == b.listeners[l]
    requires |a.published| == |b.published| && forall n :: 0 <= n < |a.published| ==> a.published[n] == b.published[n]
    ensures a == b
  {
  }

  lemma MapTopicsUpdate<C(!new), D>(f: C -> D, e: Entry<C>, c: C, l: nat)
    requires Injective(f)
    ensures MapEntry(f, e.(topics := e.topics[c := l])) == MapEntry(f, e).(topics := MapEntry(f, e).topics[f(c) := l])
    ensures MapEntry(f, e.(topics := e.topics - {c})) == MapEntry(f, e).(topics := MapEntry(f, e).topics - {f(c)})
  {
  }

  lemma MapSubsUpdate<C(!new), D>(f: C -> D, s: State<C>, sub: SubId, e: Entry<C>)
    requires Injective(f)
    ensures MapState(f, s.(subs := s.subs[sub := e])) ==
            MapState(f, s).(subs := MapState(f, s).subs[sub := MapEntry(f, e)])
  {
  }

  lemma MapSet<C(!new), D>(f: C -> D, s: State<C>, l: nat, x: Listener<C>)
    requires Injective(f) && l < |s.listeners|
    ensures MapState(f, Set(s, l, x)) == Set(MapState(f, s), l, MapListener(f, x))
  {
    SameState(MapState(f, Set(s, l, x)), Set(MapState(f, s), l, MapListener(f, x)));
  }

  lemma MapRegister<C(!new), D>(f: C -> D, s: State<C>, l: nat)
    requires Injective(f) && Enabled(s, Register(l))
    ensures Enabled(MapState(f, s), Register(l))
    ensures Apply(MapState(f, s), Register(l)) == MapState(f, Apply(s, Register(l)))
  {
    MapEnabled(f, s, Register(l));
    var sub, channel := s.listeners[l].sub, s.listeners[l].wanted[0];
    var topics := s.subs[sub].topics;
    MapTopics(f, s.subs[sub], channel);
    var replaced := s;
    if channel in topics && topics[channel] < |s.listeners| {
      replaced := Set(s, topics[channel], DropSender(s.listeners[topics[channel]]));
      MapSet(f, s, topics[channel], DropSender(s.listeners[topics[channel]]));
    }
    MapSet(f, replaced, l, s.listeners[l].(phase := Registered));
    MapTopicsUpdate(f, s.subs[sub], channel, l);
    MapSubsUpdate(f, Set(replaced, l, s.listeners[l].(phase := Registered)), sub,
                  s.subs[sub].(topics := topics[channel := l]));
  }

  lemma MapRemove<C(!new), D>(f: C -> D, s: State<C>, sub: SubId, channel: C)
    requires Injective(f) && Enabled(s, Remove(sub, channel))
    ensures Enabled(MapState(f, s), Remove(sub, f(channel)))
    ensures Apply(MapState(f, s), Remove(sub, f(channel))) == MapState(f, Apply(s, Remove(sub, channel)))
  {
    MapEnabled(f, s, Remove(sub, channel));
    MapTopics(f, s.subs[sub], channel);
    var l := s.subs[sub].topics[channel];
    MapSet(f, s, l, Shut(s.listeners[l]));
    MapTopicsUpdate(f, s.subs[sub], channel, l);
    MapSubsUpdate(f, Set(s, l, Shut(s.listeners[l])), sub,
                  s.subs[sub].(topics := s.subs[sub].topics - {channel}));
  }

  lemma MapHolds<C(!new), D>(f: C -> D, e: Entry<C>, l: nat)
    requires Injective(f)
    ensures Holds(MapEntry(f, e), l) <==> Holds(e, l)
  {
    if c :| c in e.topics {
      MapTopics(f, e, c);
    }
  }

  lemma MapSubsRemoval<C(!new), D>(f: C -> D, s: State<C>, sub: SubId)
    requires Injective(f)
    ensures MapState(f, s).subs - {sub} == MapState(f, s.(subs := s.subs - {sub})).subs
  {
  }

  lemma MapShut<C(!new), D>(f: C -> D, s: State<C>, sub: SubId, l: nat)
    requires Injective(f) && Enabled(s, Unsubscribe(sub)) && sub in s.subs && l < |s.listeners|
    requires Enabled(MapState(f, s), Unsubscribe(sub))
    ensures Apply(MapState(f, s), Unsubscribe(sub)).listeners[l] == MapListener(f, Apply(s, Unsubscribe(sub)).listeners[l])
  {
    MapHolds(f, s.subs[sub], l);
  }

  lemma MapUnsubscribe<C(!new), D>(f: C -> D, s: State<C>, sub: SubId)
    requires Injective(f) && Enabled(s, Unsubscribe(sub))
    ensures Enabled(MapState(f, s), Unsubscribe(sub))
    ensures Apply(MapState(f, s), Unsubscribe(sub)) == MapState(f, Apply(s, Unsubscribe(sub)))
  {
    MapEnabled(f, s, Unsubscribe(sub));
    if sub in s.subs {
      forall l: nat | l < |s.listeners| {
        MapShut(f, s, sub, l);
      }
      MapSubsRemoval(f, s, sub);
      SameState(Apply(MapState(f, s), Unsubscribe(sub)), MapState(f, Apply(s, Unsubscribe(sub))));
    }
  }

  lemma MapPublish<C(!new), D>(f: C -> D, s: State<C>, channel: C, payload: seq<bv8>)
    requires Injective(f)
    ensures Apply(MapState(f, s), Publish(f(channel), payload)) == MapState(f, Apply(s, Publish(channel, payload)))
  {
    forall l | 0 <= l < |s.listeners| {
      MapReceive(f, s.listeners[l], Message(|s.published|, channel, payload));
    }
    SameState(Apply(MapState(f, s), Publish(f(channel), payload)), MapState(f, Apply(s, Publish(channel, payload))));
  }

  lemma MapForward<C(!new), D>(f: C -> D, s: State<C>, l: nat)
    requires Injective(f) && Enabled(s, Forward(l))
    ensures Enabled(MapState(f, s), Forward(l))
    ensures Apply(MapState(f, s), Forward(l)) == MapState(f, Apply(s, Forward(l)))
  {
    var t := MapState(f, s);
    MapEnabled(f, s, Forward(l));
    assert t.listeners[l].inbox[1..] == MapMessages(f, s.listeners[l].inbox[1..]);
    assert t.listeners[l].forwarded + [t.listeners[l].inbox[0]]
        == MapMessages(f, s.listeners[l].forwarded + [s.listeners[l].inbox[0]]);
    SameState(Apply(t, Forward(l)), MapState(f, Apply(s, Forward(l))));
  }

  lemma MapArrival<C(!new), D>(f: C -> D, s: State<C>, a: Action<C>)
    requires Injective(f) && Enabled(s, a) && (a.Subscribe? || a.AddBegin?)
    ensures Enabled(MapState(f, s), MapAction(f, a))
    ensures Apply(MapState(f, s), MapAction(f, a)) == MapState(f, Apply(s, a))
  {
    MapEnabled(f, s, a);
    if a.AddBegin? {
      assert MapSeq(f, [a.channel]) == [f(a.channel)];
    }
    SameState(Apply(MapState(f, s), MapAction(f, a)), MapState(f, Apply(s, a)));
  }

  lemma MapOther<C(!new), D>(f: C -> D, s: State<C>, a: Action<C>)
    requires Injective(f) && Enabled(s, a)
    requires a.Join? || a.Fail? || a.Count? || a.Start? || a.Stop? || a.Disconnect? || a.Leave? || a.DropReceiver?
    ensures Enabled(MapState(f, s), MapAction(f, a))
    ensures Apply(MapState(f, s), MapAction(f, a)) == MapState(f, Apply(s, a))
  {
    MapEnabled(f, s, a);
    SameState(Apply(MapState(f, s), MapAction(f, a)), MapState(f, Apply(s, a)));
  }

  lemma MapStep<C(!new), D>(f: C -> D, s: State<C>, a: Action<C>)
    requires Injective(f) && Enabled(s, a)
    ensures Enabled(MapState(f, s), MapAction(f, a))
    ensures Apply(MapState(f, s), MapAction(f, a)) == MapState(f, Apply(s, a))
  {
    match a
    case Register(l) => MapRegister(f, s, l);
    case Remove(sub, channel) => MapRemove(f, s, sub, channel);
    case Unsubscribe(sub) => MapUnsubscribe(f, s, sub);
    case Publish(channel, payload) => MapPublish(f, s, channel, payload);
    case Forward(l) => MapForward(f, s, l);
    case Subscribe(_) => MapArrival(f, s, a);
    case AddBegin(_, _) => MapArrival(f, s, a);
    case _ => MapOther(f, s, a);
  }

  /** A sequence of calls is a run of the one broker exactly when it is a run of the other, and leads to the
      same state up to the names. */
  lemma {:induction false} MapRuns<C(!new), D>(f: C -> D, s: State<C>, run: seq<Action<C>>)
    requires Injective(f)
    ensures IsRun(MapState(f, s), MapRun(f, run)) <==> IsRun(s, run)
    ensures IsRun(s, run) ==> After(MapState(f, s), MapRun(f, run)) == MapState(f, After(s, run))
    decreases |run|
  {
    if run != [] {
      MapEnabled(f, s, run[0]);
      assert MapRun(f, run)[1..] == MapRun(f, run[1..]);
      if Enabled(s, run[0]) {
        MapStep(f, s, run[0]);
        MapRuns(f, Apply(s, run[0]), run[1..]);
      }
    }
  }

  // ----- the router -----

  function NameOf(a: GoodAddress): string {
    Name(a)
  }

  lemma NamesAreInjective()
    ensures Injective<GoodAddress, string>(NameOf)
  {
    forall a: GoodAddress, b: GoodAddress | NameOf(a) == NameOf(b)
      ensures a == b
    {
      NamesAreDistinct(a, b);
    }
  }

  /** Routing refinement: for well-named addresses the broker that knows channels by name accepts the same
      calls, in every interleaving, as a router keyed by address, and every listener hears, queues and
      forwards the same messages. */
  lemma NamesRouteLikeAddresses(run: seq<Action<GoodAddress>>)
    ensures var byName := MapRun<GoodAddress, string>(NameOf, run);
            && (IsRun(Initial<string>(), byName) <==> IsRun(Initial<GoodAddress>(), run))
            && (IsRun(Initial<GoodAddress>(), run) ==>
                  var s := After(Initial<GoodAddress>(), run);
                  var t := After(Initial<string>(), byName);
                  && |t.listeners| == |s.listeners| && t.count == s.count && t.subs.Keys == s.subs.Keys
                  && (forall l :: 0 <= l < |s.listeners| ==>
                        && t.listeners[l].forwarded == MapMessages<GoodAddress, string>(NameOf, s.listeners[l].forwarded)
                        && t.listeners[l].inbox == MapMessages<GoodAddress, string>(NameOf, s.listeners[l].inbox)
                        && t.listeners[l].sub == s.listeners[l].sub))
  {
    NamesAreInjective();
    MapRuns<GoodAddress, string>(NameOf, Initial<GoodAddress>(), run);
    assert MapState<GoodAddress, string>(NameOf, Initial<GoodAddress>()) == Initial<string>();
  }

  /** Publishing to an address by its name puts the message into the queues of exactly those listeners that
      a router keyed by address would choose. */
  lemma PublishReachesTheAddressed(s: State<GoodAddress>, a: GoodAddress, payload: seq<bv8>, l: nat)
    requires l < |s.listeners|
    ensures Injective<GoodAddress, string>(NameOf)
    ensures var byName := MapState<GoodAddress, string>(NameOf, s);
            var after := Apply(byName, Publish(NameOf(a), payload));
            && |after.listeners| == |s.listeners| && |byName.listeners| == |s.listeners|
            && after.listeners[l].inbox ==
                 byName.listeners[l].inbox
                 + (if Hears(s.listeners[l], a) then [Message(|s.published|, NameOf(a), payload)] else [])
  {
    NamesAreInjective();
    MapHears<GoodAddress, string>(NameOf, s.listeners[l], a);
  }

  // ----- client and device channels against topics -----

  /** What the push service asks of the broker: sessions subscribe to their client and device channels, and
      add topics only. */
  predicate ByService(a: Action<GoodAddress>) {
    match a
    case Subscribe(channels) => forall k :: 0 <= k < |channels| ==> !channels[k].Topic?
    case AddBegin(_, channel) => channel.Topic?
    case _ => true
  }

  ghost predicate KindsKept(s: State<GoodAddress>) {
    forall l, k :: 0 <= l < |s.listeners| && 0 <= k < |s.listeners[l].wanted| ==>
      (s.listeners[l].wanted[k].Topic? <==> s.listeners[l].isTopic)
  }

  lemma StepKeepsKinds(s: State<GoodAddress>, a: Action<GoodAddress>)
    requires Enabled(s, a) && ByService(a) && KindsKept(s)
    ensures KindsKept(Apply(s, a))
  {
    var after := Apply(s, a);
    forall l, k | 0 <= l < |after.listeners| && 0 <= k < |after.listeners[l].wanted|
      ensures after.listeners[l].wanted[k].Topic? <==> after.listeners[l].isTopic
    {
      if l < |s.listeners| {
        assert after.listeners[l].wanted == s.listeners[l].wanted && after.listeners[l].isTopic == s.listeners[l].isTopic;
      }
    }
  }

  lemma {:induction false} RunKeepsKinds(s: State<GoodAddress>, run: seq<Action<GoodAddress>>)
    requires IsRun(s, run) && KindsKept(s) && forall i :: 0 <= i < |run| ==> ByService(run[i])
    ensures KindsKept(After(s, run))
    decreases |run|
  {
    if run != [] {
      StepKeepsKinds(s, run[0]);
      RunKeepsKinds(Apply(s, run[0]), run[1..]);
    }
  }

  /** In every run of the service a topic listener and a client or device listener, of whatever sessions, never
      hear the same channel name: no message reaches a session both ways. */
  lemma TopicsNeverOverlapClients(run: seq<Action<GoodAddress>>, k: nat, l: nat, name: string)
    requires IsRun(Initial<GoodAddress>(), run) && forall i :: 0 <= i < |run| ==> ByService(run[i])
    requires IsRun(Initial<string>(), MapRun<GoodAddress, string>(NameOf, run))
    ensures var t := After(Initial<string>(), MapRun<GoodAddress, string>(NameOf, run));
            k < |t.listeners| && l < |t.listeners| && t.listeners[k].isTopic && !t.listeners[l].isTopic ==>
              !(Hears(t.listeners[k], name) && Hears(t.listeners[l], name))
  {
    NamesAreInjective();
    MapRuns<GoodAddress, string>(NameOf, Initial<GoodAddress>(), run);
    assert MapState<GoodAddress, string>(NameOf, Initial<GoodAddress>()) == Initial<string>();
    RunKeepsKinds(Initial<GoodAddress>(), run);
    var s := After(Initial<GoodAddress>(), run);
    var t := MapState<GoodAddress, string>(NameOf, s);
    if k < |t.listeners| && l < |t.listeners| && t.listeners[k].isTopic && !t.listeners[l].isTopic
       && Hears(t.listeners[k], name) && Hears(t.listeners[l], name) {
      HeardNameIsWanted(s, k, name);
      HeardNameIsWanted(s, l, name);
    }
  }

  lemma HeardNameIsWanted(s: State<GoodAddress>, l: nat, name: string)
    requires Injective<GoodAddress, string>(NameOf) && l < |s.listeners|
    requires Hears(MapListener<GoodAddress, string>(NameOf, s.listeners[l]), name)
    ensures exists k :: 0 <= k < |s.listeners[l].wanted| && NameOf(s.listeners[l].wanted[k]) == name
  {
    var heard := MapListener<GoodAddress, string>(NameOf, s.listeners[l]);
    var k :| 0 <= k < |heard.since| && k < |heard.wanted| && heard.wanted[k] == name;
    assert NameOf(s.listeners[l].wanted[k]) == name;
  }
}
