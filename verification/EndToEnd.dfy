/** From a publish call to the session it is meant for: which events come to a session that has subscribed, in a
    call that follows and along every run. */
module EndToEnd {
  import opened Common
  import opened Faults
  import opened Channels
  import B = Broker
  import L = BrokerListeners
  import D = BrokerDelivery
  import R = RedisPubSub
  import S = Sessions
  import P = PushService

  /** The publish call for an address. */
  method Publish(service: P.Service, target: Address, event: P.Bytes, link: R.Link) returns (r: Result<(), P.PushError>)
    requires service.pubsub.Valid()
    modifies service.pubsub, service.metrics
    ensures service.pubsub.Valid()
    ensures match target
            case Client(tenant, client) => event != [] && tenant != "" && client != "" && link.Up? ==> r.Ok?
            case Device(_, client, device) => service.deviceSupport && event != [] && client != "" && device != "" && link.Up? ==> r.Ok?
            case Topic(tenant, topic) => event != [] && tenant != "" && topic != "" && link.Up? ==> r.Ok?
    ensures if r.Ok? then R.HandedOut(old(service.pubsub.listeners), service.pubsub.listeners, |old(service.pubsub.published)|,
                                      Name(target), event)
            else service.pubsub.listeners == old(service.pubsub.listeners)
  {
    match target
    case Client(tenant, client) => r := service.PublishToClient(tenant, client, event, link);
    case Device(tenant, client, device) => r := service.PublishToClientDevice(tenant, client, device, event, link);
    case Topic(tenant, topic) => r := service.PublishToTopic(P.TopicMessage(tenant, topic, event), link);
  }

  /** A session subscribes, and then an event is published: it comes to that session if it is addressed to its
      client or, with device support, to its device, and, among well-named addresses, only then. */
  method SubscribeThenPublish(service: P.Service, tenant: string, client: string, device: Option<S.Device>, link: R.Link,
                              storing: Outcome, target: Address, event: P.Bytes, up: R.Link)
    returns (sub: Result<B.SubId, P.PushError>, published: Result<(), P.PushError>)
    requires service.pubsub.Valid()
    modifies service.pubsub, service.kv, service.metrics
    ensures service.pubsub.Valid()
    ensures tenant != "" && client != "" && (device.Some? ==> device.value.id != "") && link.Up? ==> sub.Ok?
    ensures sub.Ok? && up.Up? && event != [] && target == Client(tenant, client) ==> published.Ok?
    ensures device.Some? && target == Device(tenant, client, device.value.id) ==>
              (sub.Ok? && up.Up? && event != [] && service.deviceSupport ==> published.Ok?)
    ensures sub.Ok? && published.Ok? ==>
              var n := |old(service.pubsub.listeners)|;
              var own := || target == Client(tenant, client)
                         || (service.deviceSupport && device.Some? && target == Device(tenant, client, device.value.id));
              && n < |service.pubsub.listeners| && service.pubsub.listeners[n].sub == sub.value
              && service.pubsub.listeners[n].phase.Running?
              && (own ==> service.pubsub.listeners[n].inbox == [B.Message(|old(service.pubsub.published)|, Name(target), event)])
              && (!own && WellNamed(target) && WellNamed(Client(tenant, client))
                  && (device.Some? ==> WellNamed(Device(tenant, client, device.value.id))) ==>
                    service.pubsub.listeners[n].inbox == [])
  {
    sub := service.SubscribeClient(tenant, client, device, link, storing);
    published := Err(P.Internal);
    if sub.Ok? {
      NamedForSession(tenant, client, if service.deviceSupport && device.Some? then Some(device.value.id) else None, target);
      published := Publish(service, target, event, up);
    }
  }

  /** The channels of a session, by name. */
  function OwnNames(tenant: string, client: string, device: Option<string>): set<string> {
    var own := "tenant:" + tenant + ":client:" + client;
    {own} + (if device.Some? then {own + ":device:" + device.value} else {})
  }

  /** A well-named address has one of these names exactly when it is the client's or the device's. */
  lemma NamedForSession(tenant: string, client: string, device: Option<string>, target: Address)
    ensures var own := target == Client(tenant, client) || (device.Some? && target == Device(tenant, client, device.value));
            && (own ==> Name(target) in OwnNames(tenant, client, device))
            && (WellNamed(target) && WellNamed(Client(tenant, client))
                && (device.Some? ==> WellNamed(Device(tenant, client, device.value))) ==>
                  (own <==> Name(target) in OwnNames(tenant, client, device)))
  {
    if WellNamed(target) && WellNamed(Client(tenant, client)) && (device.Some? ==> WellNamed(Device(tenant, client, device.value))) {
      if Name(target) == Name(Client(tenant, client)) {
        NamesAreDistinct(target, Client(tenant, client));
      }
      if device.Some? && Name(target) == Name(Device(tenant, client, device.value)) {
        NamesAreDistinct(target, Device(tenant, client, device.value));
      }
    }
  }

  /** The same for a topic that a subscription has added. */
  method AddTopicThenPublish(service: P.Service, tenant: string, topic: string, sub: B.SubId, link: R.Link, target: Address,
                             event: P.Bytes, up: R.Link)
    returns (added: Result<(), P.PushError>, published: Result<(), P.PushError>)
    requires service.pubsub.Valid()
    modifies service.pubsub, service.metrics
    ensures service.pubsub.Valid()
    ensures added.Ok? && up.Up? && event != [] && target == Topic(tenant, topic) ==> published.Ok?
    ensures added.Ok? && published.Ok? ==>
              var n := |old(service.pubsub.listeners)|;
              && n < |service.pubsub.listeners| && service.pubsub.listeners[n].sub == sub
              && service.pubsub.listeners[n].phase.Running?
              && (target == Topic(tenant, topic) ==>
                    service.pubsub.listeners[n].inbox == [B.Message(|old(service.pubsub.published)|, Name(target), event)])
              && (target != Topic(tenant, topic) && WellNamed(target) && WellNamed(Topic(tenant, topic)) ==>
                    service.pubsub.listeners[n].inbox == [])
  {
    added := service.TopicSubscribe(tenant, topic, sub, link);
    published := Err(P.Internal);
    if added.Ok? {
      if WellNamed(target) && WellNamed(Topic(tenant, topic)) && Name(target) == Name(Topic(tenant, topic)) {
        NamesAreDistinct(target, Topic(tenant, topic));
      }
      ghost var listener := service.pubsub.listeners[|service.pubsub.listeners| - 1];
      assert listener.wanted[0] == Name(Topic(tenant, topic));
      published := Publish(service, target, event, up);
    }
  }

  // ----- along every run -----

  /** No subscription has two main listeners. */
  ghost predicate MainsAreUnique(s: R.S) {
    && (forall l :: 0 <= l < |s.listeners| ==> s.listeners[l].sub < s.nextSub)
    && (forall k, l :: 0 <= k < l < |s.listeners| && !s.listeners[k].isTopic && !s.listeners[l].isTopic ==>
          s.listeners[k].sub != s.listeners[l].sub)
  }

  lemma KindStays(s: R.S, a: B.Action<string>, l: nat)
    requires B.Enabled(s, a) && l < |s.listeners|
    ensures l < |B.Apply(s, a).listeners|
    ensures B.Apply(s, a).listeners[l].isTopic == s.listeners[l].isTopic && B.Apply(s, a).listeners[l].sub == s.listeners[l].sub
  {
  }

  lemma NewcomerIs(s: R.S, a: B.Action<string>)
    requires B.Enabled(s, a) && |B.Apply(s, a).listeners| > |s.listeners| && L.Kept(s)
    ensures var t := B.Apply(s, a);
            && |t.listeners| == |s.listeners| + 1 && t.listeners[|s.listeners|].sub < t.nextSub
            && (!t.listeners[|s.listeners|].isTopic ==> t.listeners[|s.listeners|].sub == s.nextSub)
  {
    if a.AddBegin? {
      assert L.EntryIsTrue(s, a.sub);
    }
  }

  lemma IdsGrow(s: R.S, a: B.Action<string>)
    requires B.Enabled(s, a)
    ensures s.nextSub <= B.Apply(s, a).nextSub
  {
  }

  /** The listeners of one state, and at most one more of a new subscription or a topic. */
  lemma MainsExtend(s: R.S, t: R.S)
    requires MainsAreUnique(s) && s.nextSub <= t.nextSub && |s.listeners| <= |t.listeners| <= |s.listeners| + 1
    requires forall l :: 0 <= l < |s.listeners| ==>
               t.listeners[l].isTopic == s.listeners[l].isTopic && t.listeners[l].sub == s.listeners[l].sub
    requires forall l :: |s.listeners| <= l < |t.listeners| ==>
               t.listeners[l].sub < t.nextSub && (!t.listeners[l].isTopic ==> t.listeners[l].sub == s.nextSub)
    ensures MainsAreUnique(t)
  {
  }

  lemma StepKeepsMains(s: R.S, a: B.Action<string>)
    requires B.Enabled(s, a) && MainsAreUnique(s) && L.Kept(s)
    ensures MainsAreUnique(B.Apply(s, a))
  {
    var t := B.Apply(s, a);
    IdsGrow(s, a);
    D.SubsStay(s, a);
    forall l: nat | l < |s.listeners|
      ensures t.listeners[l].isTopic == s.listeners[l].isTopic && t.listeners[l].sub == s.listeners[l].sub
    {
      KindStays(s, a, l);
    }
    if |t.listeners| > |s.listeners| {
      NewcomerIs(s, a);
    }
    MainsExtend(s, t);
  }

  lemma {:induction false} RunKeepsMains(s: R.S, run: seq<B.Action<string>>)
    requires B.IsRun(s, run) && MainsAreUnique(s) && L.Kept(s) && D.AllDeliver(s)
    ensures var t := B.After(s, run); MainsAreUnique(t) && L.Kept(t) && D.AllDeliver(t)
    decreases |run|
  {
    if run != [] {
      StepKeepsMains(s, run[0]);
      L.StepKeeps(s, run[0]);
      D.StepDelivers(s, run[0]);
      RunKeepsMains(B.Apply(s, run[0]), run[1..]);
    }
  }

  lemma {:induction false} ReachedIsSound(s: R.S)
    requires R.Reached(s)
    ensures MainsAreUnique(s) && L.Kept(s) && D.AllDeliver(s)
  {
    var run :| B.IsRun(B.Initial<string>(), run) && B.After(B.Initial<string>(), run) == s;
    L.InitiallyKept<string>();
    RunKeepsMains(B.Initial<string>(), run);
  }

  /** The main listener of a subscription runs, has a receiver, and nobody has told it to stop. */
  ghost predicate Held(s: R.S, l: nat, sub: B.SubId) {
    && l < |s.listeners| && s.listeners[l].sub == sub && !s.listeners[l].isTopic
    && s.listeners[l].phase.Running? && s.listeners[l].control.Open?
    && sub in s.receivers && sub in s.subs && s.subs[sub].main == l
  }

  /** What can end it: the session's own unsubscribe, its own end, or the loss of the connection to Redis. */
  predicate Releases(a: B.Action<string>, l: nat, sub: B.SubId) {
    a == B.Unsubscribe(sub) || a == B.DropReceiver(sub) || a == B.Disconnect(l)
  }

  lemma RegisterHolds(s: R.S, a: B.Action<string>, l: nat, sub: B.SubId)
    requires B.Enabled(s, a) && L.Kept(s) && Held(s, l, sub) && a.Register?
    ensures Held(B.Apply(s, a), l, sub)
  {
    L.RegisterChanges(s, a.l);
    assert L.EntryIsTrue(s, s.listeners[a.l].sub);
  }

  lemma TableStepHolds(s: R.S, a: B.Action<string>, l: nat, sub: B.SubId)
    requires B.Enabled(s, a) && L.Kept(s) && Held(s, l, sub) && a != B.Unsubscribe(sub)
    requires a.Remove? || a.Unsubscribe?
    ensures Held(B.Apply(s, a), l, sub)
  {
    if a.sub in s.subs {
      assert L.EntryIsTrue(s, a.sub);
    }
  }

  lemma OneStepHolds(s: R.S, a: B.Action<string>, l: nat, sub: B.SubId)
    requires B.Enabled(s, a) && MainsAreUnique(s) && Held(s, l, sub) && !Releases(a, l, sub)
    requires L.TouchesOne(a)
    ensures Held(B.Apply(s, a), l, sub)
  {
    L.OneChanges(s, a);
    if a.Fail? {
      assert s.listeners[a.l].isTopic || s.listeners[a.l].sub != sub;
    }
  }

  lemma StepHolds(s: R.S, a: B.Action<string>, l: nat, sub: B.SubId)
    requires B.Enabled(s, a) && MainsAreUnique(s) && L.Kept(s) && Held(s, l, sub) && !Releases(a, l, sub)
    ensures Held(B.Apply(s, a), l, sub)
  {
    assert L.EntryIsTrue(s, sub);
    if L.TouchesOne(a) {
      OneStepHolds(s, a, l, sub);
    } else if a.Register? {
      RegisterHolds(s, a, l, sub);
    } else if a.Remove? || a.Unsubscribe? {
      TableStepHolds(s, a, l, sub);
    }
  }

  lemma {:induction false} RunHolds(s: R.S, run: seq<B.Action<string>>, l: nat, sub: B.SubId)
    requires B.IsRun(s, run) && MainsAreUnique(s) && L.Kept(s) && D.AllDeliver(s) && Held(s, l, sub)
    requires forall i :: 0 <= i < |run| ==> !Releases(run[i], l, sub)
    ensures Held(B.After(s, run), l, sub)
    decreases |run|
  {
    if run != [] {
      StepHolds(s, run[0], l, sub);
      StepKeepsMains(s, run[0]);
      L.StepKeeps(s, run[0]);
      D.StepDelivers(s, run[0]);
      RunHolds(B.Apply(s, run[0]), run[1..], l, sub);
    }
  }

  /** A listener that has joined its channels hears them from then on, and the log only grows. */
  lemma {:induction false} ChannelsStay(s: R.S, run: seq<B.Action<string>>, l: nat)
    requires B.IsRun(s, run) && l < |s.listeners| && !s.listeners[l].phase.Connecting?
    ensures var t := B.After(s, run);
            && l < |t.listeners| && t.listeners[l].since == s.listeners[l].since && t.listeners[l].wanted == s.listeners[l].wanted
            && s.published <= t.published
    decreases |run|
  {
    if run != [] {
      StepLeavesChannels(s, run[0], l);
      ChannelsStay(B.Apply(s, run[0]), run[1..], l);
    }
  }

  lemma StepLeavesChannels(s: R.S, a: B.Action<string>, l: nat)
    requires B.Enabled(s, a) && l < |s.listeners| && !s.listeners[l].phase.Connecting?
    ensures var t := B.Apply(s, a);
            && l < |t.listeners| && !t.listeners[l].phase.Connecting?
            && t.listeners[l].since == s.listeners[l].since && t.listeners[l].wanted == s.listeners[l].wanted
            && s.published <= t.published
  {
  }

  /** Along every run of the broker, whatever other sessions do, what has come to a session that has subscribed
      is in order of publication, none of it twice, and all of it was published on one of the session's channels
      after it had subscribed. */
  lemma {:induction false} SessionGetsOnlyItsOwn(s: R.S, run: seq<B.Action<string>>, l: nat, sub: B.SubId, tenant: string,
                                                 client: string, device: Option<string>)
    requires R.Reached(s) && B.IsRun(s, run) && l < |s.listeners|
    requires R.Serves(s.listeners[l], sub, OwnNames(tenant, client, device))
    ensures var t := B.After(s, run);
            && l < |t.listeners| && s.published <= t.published
            && var come := t.listeners[l].forwarded + t.listeners[l].inbox;
            && (forall i, j :: 0 <= i < j < |come| ==> come[i].index < come[j].index)
            && (forall m :: m in come ==>
                  && |s.published| <= m.index < |t.published| && t.published[m.index] == (m.channel, m.payload)
                  && m.channel in OwnNames(tenant, client, device))
  {
    ReachedIsSound(s);
    RunKeepsMains(s, run);
    ChannelsStay(s, run, l);
    var t := B.After(s, run);
    D.HeardIsOrdered(t.listeners[l], t.published);
    assert D.Delivers(t, t.listeners[l]);
    forall m | m in D.Heard(t.listeners[l], t.published)
      ensures |s.published| <= m.index < |t.published| && t.published[m.index] == (m.channel, m.payload)
      ensures m.channel in OwnNames(tenant, client, device)
    {
      WasPublishedSince(s, t, l, sub, OwnNames(tenant, client, device), m);
    }
  }

  /** And until the session unsubscribes, ends or loses Redis, every event published on one of its channels has
      come to it, and its listener still runs. */
  lemma {:induction false} SessionMissesNothing(s: R.S, run: seq<B.Action<string>>, l: nat, sub: B.SubId, tenant: string,
                                                client: string, device: Option<string>)
    requires R.Reached(s) && B.IsRun(s, run) && l < |s.listeners|
    requires R.Serves(s.listeners[l], sub, OwnNames(tenant, client, device))
    requires sub in s.receivers && sub in s.subs && s.subs[sub].main == l
    requires B.Unsubscribe(sub) !in run && B.DropReceiver(sub) !in run && B.Disconnect(l) !in run
    ensures var t := B.After(s, run);
            && l < |t.listeners| && t.listeners[l].phase.Running?
            && forall n :: |s.published| <= n < |t.published| && t.published[n].0 in OwnNames(tenant, client, device) ==>
                 B.Message(n, t.published[n].0, t.published[n].1) in t.listeners[l].forwarded + t.listeners[l].inbox
  {
    ReachedIsSound(s);
    RunKeepsMains(s, run);
    ChannelsStay(s, run, l);
    RunHolds(s, run, l, sub);
    var t := B.After(s, run);
    assert D.Delivers(t, t.listeners[l]);
    forall n | |s.published| <= n < |t.published| && t.published[n].0 in OwnNames(tenant, client, device)
      ensures B.Message(n, t.published[n].0, t.published[n].1) in D.Received(t.listeners[l])
    {
      IsHeardSince(s, t, l, sub, OwnNames(tenant, client, device), B.Message(n, t.published[n].0, t.published[n].1));
    }
  }

  lemma WasPublishedSince(s: R.S, t: R.S, l: nat, sub: B.SubId, names: set<string>, m: B.Message<string>)
    requires l < |s.listeners| && l < |t.listeners| && s.published <= t.published
    requires t.listeners[l].since == s.listeners[l].since && t.listeners[l].wanted == s.listeners[l].wanted
    requires D.Delivers(s, s.listeners[l]) && R.Serves(s.listeners[l], sub, names)
    requires m in D.Heard(t.listeners[l], t.published)
    ensures |s.published| <= m.index < |t.published| && t.published[m.index] == (m.channel, m.payload) && m.channel in names
  {
    var x := s.listeners[l];
    D.HeardIsWhatWasPublished(t.listeners[l], t.published, m);
    D.HeardIsWhatWasPublished(x, s.published, m);
    assert D.Heard(x, s.published) == [];
    assert B.Hears(x, m.channel);
  }

  lemma IsHeardSince(s: R.S, t: R.S, l: nat, sub: B.SubId, names: set<string>, m: B.Message<string>)
    requires l < |s.listeners| && l < |t.listeners| && s.published <= t.published
    requires t.listeners[l].since == s.listeners[l].since && t.listeners[l].wanted == s.listeners[l].wanted
    requires D.Delivers(s, s.listeners[l]) && R.Serves(s.listeners[l], sub, names)
    requires |s.published| <= m.index < |t.published| && t.published[m.index] == (m.channel, m.payload) && m.channel in names
    ensures m in D.Heard(t.listeners[l], t.published)
  {
    D.HeardIsWhatWasPublished(t.listeners[l], t.published, m);
    assert B.Hears(s.listeners[l], m.channel);
  }
}
