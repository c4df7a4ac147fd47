/** The push service object: it names channels, drives the broker and the device store in turn, and keeps the
    metrics. */
module PushService {
  import opened Common
  import opened Faults
  import opened Channels
  import B = Broker
  import R = RedisPubSub
  import S = Sessions

  datatype PushError = InvalidArgument | FailedPrecondition | Internal | BrokerFailed

  type Bytes = seq<bv8>

  class KeyValue {
    var devices: S.DeviceStore

    constructor ()
      ensures devices == map[]
    {
      devices := map[];
    }

    method Store(key: string, d: S.Device)
      modifies this
      ensures devices == S.WithDevice(old(devices), key, d)
      ensures devices.Keys == old(devices).Keys + {key} && devices - {key} == old(devices) - {key}
      ensures devices[key] == (if key in old(devices) then old(devices)[key] else map[])[d.id := d.attributes]
    {
      var fields: map<string, S.Attributes> := if key in devices then devices[key] else map[];
      devices := devices[key := fields[d.id := d.attributes]];
    }

    method Delete(key: string, id: string)
      modifies this
      ensures devices == S.WithoutDevice(old(devices), key, id)
      ensures devices.Keys == old(devices).Keys && devices - {key} == old(devices) - {key}
      ensures key in devices ==> devices[key] == old(devices)[key] - {id}
    {
      if key in devices {
        devices := devices[key := devices[key] - {id}];
      }
    }
  }

  class Metrics {
    var connections: int
    var messagesPublished: nat
    var topicSubscribes: nat
    var topicUnsubscribes: nat
    var topicUnsubscribeErrors: nat

    constructor ()
      ensures connections == messagesPublished == topicSubscribes == topicUnsubscribes == topicUnsubscribeErrors == 0
    {
      connections, messagesPublished, topicSubscribes, topicUnsubscribes, topicUnsubscribeErrors := 0, 0, 0, 0, 0;
    }
  }

  /** A publish request for a topic. */
  datatype TopicMessage = TopicMessage(tenant: string, topic: string, event: Bytes)

  predicate IsPublishable(m: TopicMessage) {
    m.tenant != "" && m.topic != "" && m.event != []
  }

  /** How many requests of a batch are published: those before the first that is refused or fails. */
  function Publishable(messages: seq<TopicMessage>, links: seq<R.Link>): (n: nat)
    requires |links| == |messages|
    ensures n <= |messages|
    ensures forall i :: 0 <= i < n ==> IsPublishable(messages[i]) && links[i].Up?
    ensures n < |messages| ==> !IsPublishable(messages[n]) || !links[n].Up?
  {
    if messages == [] || !IsPublishable(messages[0]) || !links[0].Up? then 0
    else 1 + Publishable(messages[1..], links[1..])
  }

  /** The first n requests are good and their links up, and the log has grown by their events, in order, each on
      the channel of its topic. */
  ghost predicate Sent(before: seq<(string, Bytes)>, after: seq<(string, Bytes)>, messages: seq<TopicMessage>,
                       links: seq<R.Link>, n: int)
    requires |links| == |messages|
  {
    && 0 <= n <= |messages| && |after| == |before| + n && after[..|before|] == before
    && forall i :: 0 <= i < n ==>
         && messages[i].tenant != "" && messages[i].topic != "" && messages[i].event != [] && links[i].Up?
         && after[|before| + i] == ("tenant:" + messages[i].tenant + ":topic:" + messages[i].topic, messages[i].event)
  }

  lemma {:induction false} SentOneMore(before: seq<(string, Bytes)>, after: seq<(string, Bytes)>, messages: seq<TopicMessage>,
                                       links: seq<R.Link>, n: nat)
    requires |links| == |messages| && n < |messages| && Sent(before, after, messages, links, n)
    requires IsPublishable(messages[n]) && links[n].Up?
    ensures Sent(before, after + [(TopicChannel(messages[n].tenant, messages[n].topic), messages[n].event)], messages, links, n + 1)
  {
  }

  /** So the n requests are all those that are published. */
  lemma {:induction false} SentAre(before: seq<(string, Bytes)>, after: seq<(string, Bytes)>, messages: seq<TopicMessage>,
                                   links: seq<R.Link>, n: nat)
    requires |links| == |messages| && Sent(before, after, messages, links, n)
    requires n < |messages| ==> !IsPublishable(messages[n]) || !links[n].Up?
    ensures n == Publishable(messages, links) == |after| - |before|
  {
    assert forall i :: 0 <= i < n ==> IsPublishable(messages[i]) && links[i].Up?;
  }

  /** The broker after the first n messages have been published in order. */
  ghost function PublishedAll(s: R.S, messages: seq<TopicMessage>): R.S {
    if messages == [] then s
    else
      var last := messages[|messages| - 1];
      B.Apply(PublishedAll(s, messages[..|messages| - 1]), B.Publish(TopicChannel(last.tenant, last.topic), last.event))
  }

  class Service {
    const pubsub: R.PubSub
    const kv: KeyValue
    const metrics: Metrics
    const deviceSupport: bool

    constructor (pubsub: R.PubSub, kv: KeyValue, metrics: Metrics, deviceSupport: bool)
      ensures this.pubsub == pubsub && this.kv == kv && this.metrics == metrics && this.deviceSupport == deviceSupport
    {
      this.pubsub, this.kv, this.metrics, this.deviceSupport := pubsub, kv, metrics, deviceSupport;
    }

    predicate Rejects(tenant: string, client: string, device: Option<S.Device>) {
      tenant == "" || client == "" || (deviceSupport && device.Some? && device.value.id == "")
    }

    function ChannelsOf(tenant: string, client: string, device: Option<S.Device>): seq<string> {
      [Name(Client(tenant, client))]
      + (if deviceSupport && device.Some? then [Name(Device(tenant, client, device.value.id))] else [])
    }

    lemma ChannelsAre(tenant: string, client: string, device: Option<S.Device>)
      ensures var own := "tenant:" + tenant + ":client:" + client;
              (set c | c in ChannelsOf(tenant, client, device))
              == {own} + (if deviceSupport && device.Some? then {own + ":device:" + device.value.id} else {})
    {
    }

    /** The channels of a session, if it may have one. */
    method ChannelsFor(tenant: string, client: string, device: Option<S.Device>) returns (r: Result<seq<string>, PushError>)
      ensures r == if Rejects(tenant, client, device) then Err(InvalidArgument) else Ok(ChannelsOf(tenant, client, device))
    {
      if tenant == "" {
        return Err(InvalidArgument);
      }
      if client == "" {
        return Err(InvalidArgument);
      }
      var channels := [ClientChannel(tenant, client)];
      if deviceSupport {
        if device.Some? {
          if device.value.id == "" {
            return Err(InvalidArgument);
          }
          channels := channels + [DeviceChannel(tenant, client, device.value.id)];
        }
      }
      assert channels == ChannelsOf(tenant, client, device);
      return Ok(channels);
    }

    /** A failed store is logged and forgotten; a failed subscribe leaves the count alone. */
    method SubscribeClient(tenant: string, client: string, device: Option<S.Device>, link: R.Link, storing: Outcome)
      returns (r: Result<B.SubId, PushError>)
      requires pubsub.Valid()
      modifies pubsub, kv, metrics
      ensures pubsub.Valid()
      ensures r == Err(InvalidArgument) <==>
                tenant == "" || client == "" || (deviceSupport && device.Some? && device.value.id == "")
      ensures r == Err(InvalidArgument) <==> Rejects(tenant, client, device)
      ensures r.Err? ==> kv.devices == old(kv.devices) && metrics.connections == old(metrics.connections)
      ensures r == Err(InvalidArgument) ==> pubsub.Now() == old(pubsub.Now())
      ensures r != Err(InvalidArgument) ==>
                && pubsub.subscriptions == old(pubsub.subscriptions)[old(pubsub.nextSub) := B.Entry(old(|pubsub.listeners|), map[])]
                && pubsub.nextSub == old(pubsub.nextSub) + 1
      ensures r != Err(InvalidArgument) ==>
                |pubsub.listeners| == old(|pubsub.listeners|) + 1 && pubsub.listeners[..old(|pubsub.listeners|)] == old(pubsub.listeners)
      ensures r.Err? && r.error != InvalidArgument ==>
                && r.error == Internal && !link.Up?
                && pubsub.listeners[old(|pubsub.listeners|)].phase.Failed?
                && (exists k :: 0 <= k <= |ChannelsOf(tenant, client, device)|
                      && pubsub.Now() == R.SubscribeFailed(old(pubsub.Now()), ChannelsOf(tenant, client, device), k))
      ensures r.Ok? ==>
                var own := "tenant:" + tenant + ":client:" + client;
                && R.Serves(pubsub.listeners[old(|pubsub.listeners|)], r.value,
                            {own} + (if deviceSupport && device.Some? then {own + ":device:" + device.value.id} else {}))
                && r.value in pubsub.receivers
      ensures pubsub.published == old(pubsub.published)
      ensures !Rejects(tenant, client, device) && link.Up? ==> r.Ok?
      ensures r.Ok? ==>
                && r == Ok(old(pubsub.nextSub))
                && pubsub.Now() == R.Subscribed(old(pubsub.Now()), ChannelsOf(tenant, client, device))
                && metrics.connections == old(metrics.connections) + 1
                && kv.devices == (if deviceSupport && device.Some? && !storing.Lost?
                                  then S.WithDevice(old(kv.devices), tenant + ":" + client, device.value)
                                  else old(kv.devices))
      ensures metrics.messagesPublished == old(metrics.messagesPublished)
    {
      var channels := ChannelsFor(tenant, client, device);
      if channels.Err? {
        return Err(channels.error);
      }
      var sub := pubsub.SubscribeCall(channels.value, link);
      if sub.Err? {
        return Err(Internal);
      }
      if deviceSupport {
        if device.Some? && storing.Applied() {
          kv.Store(S.DeviceKey(tenant, client), device.value);
        }
      }
      metrics.connections := metrics.connections + 1;
      ChannelsAre(tenant, client, device);
      return Ok(sub.value);
    }

    method UnsubscribeClient(tenant: string, client: string, sub: B.SubId, device: Option<S.Device>, deleting: Outcome)
      requires pubsub.Valid()
      modifies pubsub, kv, metrics
      ensures pubsub.Valid() && !B.Guarded(old(pubsub.Now()), sub)
      ensures pubsub.Now() == B.Apply(old(pubsub.Now()), B.Unsubscribe(sub))
      ensures metrics.connections == old(metrics.connections) - 1
      ensures metrics.messagesPublished == old(metrics.messagesPublished)
      ensures kv.devices == if deviceSupport && device.Some? && !deleting.Lost?
                            then S.WithoutDevice(old(kv.devices), tenant + ":" + client, device.value.id)
                            else old(kv.devices)
    {
      if deviceSupport {
        if device.Some? && deleting.Applied() {
          kv.Delete(S.DeviceKey(tenant, client), device.value.id);
        }
      }
      pubsub.UnsubscribeCall(sub);
      metrics.connections := metrics.connections - 1;
    }

    /** Publish and count, or report the broker's error. */
    method PublishTo(channel: string, event: Bytes, link: R.Link) returns (r: Result<(), PushError>)
      requires pubsub.Valid()
      modifies pubsub, metrics
      ensures pubsub.Valid()
      ensures r == if link.Up? then Ok(()) else Err(BrokerFailed)
      ensures pubsub.Now() == if link.Up? then B.Apply(old(pubsub.Now()), B.Publish(channel, event)) else old(pubsub.Now())
      ensures pubsub.published == old(pubsub.published) + if link.Up? then [(channel, event)] else []
      ensures if link.Up? then R.HandedOut(old(pubsub.listeners), pubsub.listeners, old(|pubsub.published|), channel, event)
              else pubsub.Now() == old(pubsub.Now())
      ensures metrics.messagesPublished == old(metrics.messagesPublished) + if link.Up? then 1 else 0
      ensures metrics.connections == old(metrics.connections)
    {
      var published := pubsub.PublishCall(channel, event, link);
      if published.Err? {
        return Err(BrokerFailed);
      }
      metrics.messagesPublished := metrics.messagesPublished + 1;
      return Ok(());
    }

    method PublishToClient(tenant: string, client: string, event: Bytes, link: R.Link) returns (r: Result<(), PushError>)
      requires pubsub.Valid()
      modifies pubsub, metrics
      ensures pubsub.Valid()
      ensures r == if tenant == "" || client == "" || event == [] then Err(InvalidArgument)
                   else if link.Up? then Ok(()) else Err(BrokerFailed)
      ensures pubsub.Now() == if r.Ok? then B.Apply(old(pubsub.Now()), B.Publish(Name(Client(tenant, client)), event))
                              else old(pubsub.Now())
      ensures pubsub.published == old(pubsub.published) + if r.Ok? then [("tenant:" + tenant + ":client:" + client, event)] else []
      ensures if r.Ok? then R.HandedOut(old(pubsub.listeners), pubsub.listeners, old(|pubsub.published|),
                                        "tenant:" + tenant + ":client:" + client, event)
              else pubsub.Now() == old(pubsub.Now())
      ensures metrics.messagesPublished == old(metrics.messagesPublished) + if r.Ok? then 1 else 0
    {
      if tenant == "" {
        return Err(InvalidArgument);
      }
      if client == "" {
        return Err(InvalidArgument);
      }
      if event == [] {
        return Err(InvalidArgument);
      }
      r := PublishTo(ClientChannel(tenant, client), event, link);
    }

    /** The tenant is not looked at here. */
    method PublishToClientDevice(tenant: string, client: string, device: string, event: Bytes, link: R.Link)
      returns (r: Result<(), PushError>)
      requires pubsub.Valid()
      modifies pubsub, metrics
      ensures pubsub.Valid()
      ensures r == if !deviceSupport then Err(FailedPrecondition)
                   else if client == "" || device == "" || event == [] then Err(InvalidArgument)
                   else if link.Up? then Ok(()) else Err(BrokerFailed)
      ensures pubsub.Now() ==
                if r.Ok? then B.Apply(old(pubsub.Now()), B.Publish(Name(Device(tenant, client, device)), event))
                else old(pubsub.Now())
      ensures pubsub.published == old(pubsub.published) + if r.Ok? then [("tenant:" + tenant + ":client:" + client + ":device:" + device, event)] else []
      ensures if r.Ok? then R.HandedOut(old(pubsub.listeners), pubsub.listeners, old(|pubsub.published|),
                                        "tenant:" + tenant + ":client:" + client + ":device:" + device, event)
              else pubsub.Now() == old(pubsub.Now())
      ensures metrics.messagesPublished == old(metrics.messagesPublished) + if r.Ok? then 1 else 0
    {
      if !deviceSupport {
        return Err(FailedPrecondition);
      }
      if client == "" {
        return Err(InvalidArgument);
      }
      if device == "" {
        return Err(InvalidArgument);
      }
      if event == [] {
        return Err(InvalidArgument);
      }
      r := PublishTo(DeviceChannel(tenant, client, device), event, link);
    }

    method PublishToTopic(m: TopicMessage, link: R.Link) returns (r: Result<(), PushError>)
      requires pubsub.Valid()
      modifies pubsub, metrics
      ensures pubsub.Valid()
      ensures r == if m.tenant == "" || m.topic == "" || m.event == [] then Err(InvalidArgument)
                   else if link.Up? then Ok(()) else Err(BrokerFailed)
      ensures pubsub.Now() == if r.Ok? then B.Apply(old(pubsub.Now()), B.Publish(Name(Topic(m.tenant, m.topic)), m.event))
                              else old(pubsub.Now())
      ensures pubsub.published == old(pubsub.published) + if r.Ok? then [("tenant:" + m.tenant + ":topic:" + m.topic, m.event)] else []
      ensures if r.Ok? then R.HandedOut(old(pubsub.listeners), pubsub.listeners, old(|pubsub.published|),
                                        "tenant:" + m.tenant + ":topic:" + m.topic, m.event)
              else pubsub.Now() == old(pubsub.Now())
      ensures metrics.messagesPublished == old(metrics.messagesPublished) + if r.Ok? then 1 else 0
      ensures metrics.connections == old(metrics.connections)
    {
      if m.tenant == "" {
        return Err(InvalidArgument);
      }
      if m.topic == "" {
        return Err(InvalidArgument);
      }
      if m.event == [] {
        return Err(InvalidArgument);
      }
      r := PublishTo(TopicChannel(m.tenant, m.topic), m.event, link);
    }

    /** The requests before the first bad one are published, in order, and nothing after it. */
    method PublishToTopics(messages: seq<TopicMessage>, links: seq<R.Link>) returns (r: Result<(), PushError>)
      requires pubsub.Valid() && |links| == |messages|
      modifies pubsub, metrics
      ensures pubsub.Valid()
      ensures pubsub.Now() == PublishedAll(old(pubsub.Now()), messages[..Publishable(messages, links)])
      ensures metrics.messagesPublished == old(metrics.messagesPublished) + Publishable(messages, links)
      ensures var n := |pubsub.published| - |old(pubsub.published)|;
              && n == Publishable(messages, links) && Sent(old(pubsub.published), pubsub.published, messages, links, n)
              && if n == |messages| then r == Ok(())
                 else if messages[n].tenant == "" || messages[n].topic == "" || messages[n].event == []
                 then r == Err(InvalidArgument)
                 else !links[n].Up? && r == Err(BrokerFailed)
    {
      ghost var before := pubsub.published;
      for i := 0 to |messages|
        invariant pubsub.Valid()
        invariant pubsub.Now() == PublishedAll(old(pubsub.Now()), messages[..i])
        invariant Sent(before, pubsub.published, messages, links, i)
        invariant metrics.messagesPublished == old(metrics.messagesPublished) + i
      {
        ghost var sent := pubsub.published;
        r := PublishToTopic(messages[i], links[i]);
        if r.Err? {
          SentAre(before, sent, messages, links, i);
          return;
        }
        SentOneMore(before, sent, messages, links, i);
        assert messages[..i + 1][..i] == messages[..i];
      }
      SentAre(before, pubsub.published, messages, links, |messages|);
      return Ok(());
    }

    method TopicSubscribe(tenant: string, topic: string, sub: B.SubId, link: R.Link) returns (r: Result<(), PushError>)
      requires pubsub.Valid()
      modifies pubsub
      ensures pubsub.Valid()
      ensures R.OthersStay(old(pubsub.subscriptions), pubsub.subscriptions, sub) && pubsub.nextSub == old(pubsub.nextSub)
      ensures var channel := "tenant:" + tenant + ":topic:" + topic;
              r.Ok? ==>
                && pubsub.listeners
                   == old(pubsub.listeners) + [B.Listener(sub, true, [channel], [|old(pubsub.published)|], B.Open, B.Running, [], [])]
                && pubsub.published == old(pubsub.published)
      ensures var channel := Name(Topic(tenant, topic));
              && (topic == "" || tenant == "" ==> r == Err(InvalidArgument) && pubsub.Now() == old(pubsub.Now()))
              && (topic != "" && tenant != "" ==>
                    && (r.Ok? <==> sub in old(pubsub.subscriptions)
                                   && channel !in old(pubsub.subscriptions)[sub].topics && link.Up?)
                    && (r.Err? ==> r == Err(Internal) && pubsub.subscriptions == old(pubsub.subscriptions)))
              && (r.Ok? ==> sub in old(pubsub.subscriptions) && pubsub.Now() == R.Added(old(pubsub.Now()), channel, sub)
                            && pubsub.subscriptions[sub].topics.Keys == old(pubsub.subscriptions)[sub].topics.Keys + {channel})
    {
      if topic == "" {
        return Err(InvalidArgument);
      }
      if tenant == "" {
        return Err(InvalidArgument);
      }
      var added := pubsub.AddSubscription(TopicChannel(tenant, topic), sub, link);
      return if added.Ok? then Ok(()) else Err(Internal);
    }

    method TopicUnsubscribe(tenant: string, topic: string, sub: B.SubId) returns (r: Result<(), PushError>)
      requires pubsub.Valid()
      modifies pubsub
      ensures pubsub.Valid()
      ensures R.OthersStay(old(pubsub.subscriptions), pubsub.subscriptions, sub) && pubsub.nextSub == old(pubsub.nextSub)
      ensures var channel := Name(Topic(tenant, topic));
              && (topic == "" || tenant == "" ==> r == Err(InvalidArgument))
              && (topic != "" && tenant != "" ==>
                    && (r.Ok? <==> sub in old(pubsub.subscriptions) && channel in old(pubsub.subscriptions)[sub].topics)
                    && (r.Err? ==> r == Err(Internal)))
              && (r.Err? ==> pubsub.Now() == old(pubsub.Now()))
              && (r.Ok? ==> B.Enabled(old(pubsub.Now()), B.Remove(sub, channel))
                            && pubsub.Now() == B.Apply(old(pubsub.Now()), B.Remove(sub, channel))
                            && pubsub.subscriptions[sub].topics.Keys == old(pubsub.subscriptions)[sub].topics.Keys - {channel})
    {
      if topic == "" {
        return Err(InvalidArgument);
      }
      if tenant == "" {
        return Err(InvalidArgument);
      }
      var removed := pubsub.RemoveSubscription(TopicChannel(tenant, topic), sub);
      return if removed.Ok? then Ok(()) else Err(Internal);
    }

    /** The devices stored for the client, with their attributes. */
    method GetActiveDevices(tenant: string, client: string, loads: bool) returns (r: Result<set<S.Device>, PushError>)
      ensures r.Ok? <==> deviceSupport && client != "" && tenant != "" && loads
      ensures r.Ok? ==> forall d: S.Device :: d in r.value <==>
                && tenant + ":" + client in kv.devices && d.id in kv.devices[tenant + ":" + client]
                && kv.devices[tenant + ":" + client][d.id] == d.attributes
    {
      if !deviceSupport {
        return Err(FailedPrecondition);
      }
      if client == "" {
        return Err(InvalidArgument);
      }
      if tenant == "" {
        return Err(InvalidArgument);
      }
      if !loads {
        return Err(Internal);
      }
      var key := S.DeviceKey(tenant, client);
      var entries: map<string, S.Attributes> := if key in kv.devices then kv.devices[key] else map[];
      return Ok(set id | id in entries :: S.Device(id, entries[id]));
    }
  }
}
