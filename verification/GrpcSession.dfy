/** The topic requests of one gRPC session, answered by acks, against a plain set of topics. */
module GrpcSession {
  import opened Common
  import opened Channels
  import opened Text
  import B = Broker
  import R = RedisPubSub
  import opened PushService

  /** Whether Redis could be reached for a subscription is part of what happens with it. */
  datatype Request =
    | TopicSubscription(topic: string, reachable: bool)
    | TopicUnsubscription(topic: string)
    | ChannelEvent
    | ChannelEventAck
    | Empty

  datatype Ack = SubscriptionAck(topic: string, success: bool) | UnsubscriptionAck(topic: string, success: bool)

  // ----- the protocol on a plain set -----

  /** The set after one request, and the acks it is answered with. */
  function Answer(topics: set<string>, request: Request): (set<string>, seq<Ack>) {
    match request
    case TopicSubscription(t, reachable) =>
      var success := t != "" && t !in topics && reachable;
      (if success then topics + {t} else topics, [SubscriptionAck(t, success)])
    case TopicUnsubscription(t) => (topics - {t}, [UnsubscriptionAck(t, t in topics)])
    case _ => (topics, [])
  }

  function Topics(requests: seq<Request>): set<string> {
    if requests == [] then {}
    else Answer(Topics(requests[..|requests| - 1]), requests[|requests| - 1]).0
  }

  function Acks(requests: seq<Request>): seq<Ack> {
    if requests == [] then []
    else
      var before := requests[..|requests| - 1];
      Acks(before) + Answer(Topics(before), requests[|requests| - 1]).1
  }

  /** What is asked and what is answered, without the outcome. */
  datatype Subject = Sub(topic: string) | Unsub(topic: string)

  function Asked(requests: seq<Request>): seq<Subject> {
    if requests == [] then []
    else
      var last := requests[|requests| - 1];
      Asked(requests[..|requests| - 1])
      + (if last.TopicSubscription? then [Sub(last.topic)]
         else if last.TopicUnsubscription? then [Unsub(last.topic)] else [])
  }

  function Answered(acks: seq<Ack>): (r: seq<Subject>)
    ensures |r| == |acks|
  {
    seq(|acks|, i requires 0 <= i < |acks| =>
      if acks[i].SubscriptionAck? then Sub(acks[i].topic) else Unsub(acks[i].topic))
  }

  /** Every topic request is answered by exactly one ack, for its own topic, in order. */
  lemma {:induction false} EveryRequestIsAnswered(requests: seq<Request>)
    ensures Answered(Acks(requests)) == Asked(requests)
    decreases |requests|
  {
    if requests != [] {
      var before := requests[..|requests| - 1];
      EveryRequestIsAnswered(before);
      var more := Answer(Topics(before), requests[|requests| - 1]).1;
      assert Answered(Acks(before) + more) == Answered(Acks(before)) + Answered(more);
    }
  }

  /** A subscription succeeds exactly when its topic is not empty, not held, and Redis can be reached. */
  lemma {:induction false} SubscriptionIsAnswered(requests: seq<Request>, t: string, reachable: bool)
    ensures var after := requests + [TopicSubscription(t, reachable)];
            var success := t != "" && t !in Topics(requests) && reachable;
            && Acks(after) == Acks(requests) + [SubscriptionAck(t, success)]
            && forall x :: x in Topics(after) <==> x in Topics(requests) || (x == t && success)
  {
    AnswersNext(requests, TopicSubscription(t, reachable));
  }

  /** An unsubscription succeeds exactly when its topic is held. */
  lemma {:induction false} UnsubscriptionIsAnswered(requests: seq<Request>, t: string)
    ensures var after := requests + [TopicUnsubscription(t)];
            && Acks(after) == Acks(requests) + [UnsubscriptionAck(t, t in Topics(requests))]
            && forall x :: x in Topics(after) <==> x in Topics(requests) && x != t
  {
    AnswersNext(requests, TopicUnsubscription(t));
  }

  /** Anything else changes nothing and is not answered; at the start there is nothing. */
  lemma {:induction false} OthersAreNotAnswered(requests: seq<Request>, request: Request)
    requires !request.TopicSubscription? && !request.TopicUnsubscription?
    ensures Acks(requests + [request]) == Acks(requests) && Topics(requests + [request]) == Topics(requests)
    ensures Acks([]) == [] && Topics([]) == {}
  {
    AnswersNext(requests, request);
  }

  function Successes(acks: seq<Ack>, subscriptions: bool): nat {
    if acks == [] then 0
    else
      var last := acks[|acks| - 1];
      Successes(acks[..|acks| - 1], subscriptions) + (if last.success && last.SubscriptionAck? == subscriptions then 1 else 0)
  }

  /** The successful subscriptions less the successful unsubscriptions are as many as the topics held. */
  lemma {:induction false} SuccessesBalance(requests: seq<Request>)
    ensures |Topics(requests)| == Successes(Acks(requests), true) - Successes(Acks(requests), false)
    decreases |requests|
  {
    if requests != [] {
      var before, last := requests[..|requests| - 1], requests[|requests| - 1];
      SuccessesBalance(before);
      var more := Answer(Topics(before), last).1;
      if more != [] {
        assert (Acks(before) + more)[..|Acks(before)|] == Acks(before);
      } else {
        assert Acks(before) + more == Acks(before);
      }
    }
  }

  lemma {:induction false} AnswersNext(requests: seq<Request>, request: Request)
    ensures Topics(requests + [request]) == Answer(Topics(requests), request).0
    ensures Acks(requests + [request]) == Acks(requests) + Answer(Topics(requests), request).1
  {
    assert (requests + [request])[..|requests|] == requests;
  }

  lemma {:induction false} SuccessesNext(acks: seq<Ack>, ack: Ack, subscriptions: bool)
    ensures Successes(acks + [ack], subscriptions)
            == Successes(acks, subscriptions) + (if ack.success && ack.SubscriptionAck? == subscriptions then 1 else 0)
  {
    assert (acks + [ack])[..|acks|] == acks;
  }

  /** The last successful ack about a topic, if any. */
  function LastSuccess(acks: seq<Ack>, topic: string): Option<Ack> {
    if acks == [] then None
    else
      var last := acks[|acks| - 1];
      if last.topic == topic && last.success then Some(last) else LastSuccess(acks[..|acks| - 1], topic)
  }

  /** A client can tell what it is subscribed to from the acks: a topic is held exactly when the last successful
      ack about it is for a subscription. */
  lemma {:induction false} AcksTellTheTopics(requests: seq<Request>, topic: string)
    ensures topic in Topics(requests) <==>
            LastSuccess(Acks(requests), topic).Some? && LastSuccess(Acks(requests), topic).value.SubscriptionAck?
    decreases |requests|
  {
    if requests != [] {
      var before, last := requests[..|requests| - 1], requests[|requests| - 1];
      AcksTellTheTopics(before, topic);
      var more := Answer(Topics(before), last).1;
      if more != [] {
        assert (Acks(before) + more)[..|Acks(before)|] == Acks(before);
      } else {
        assert Acks(before) + more == Acks(before);
      }
    }
  }

  // ----- the session -----

  /** The control map of the subscription holds exactly the channels of these topics. */
  ghost predicate Tracks(entry: B.Entry<string>, tenant: string, topics: set<string>) {
    entry.topics.Keys == set t | t in topics :: TopicChannel(tenant, t)
  }

  lemma {:induction false} TopicIsTracked(entry: B.Entry<string>, tenant: string, topics: set<string>, t: string)
    requires Tracks(entry, tenant, topics)
    ensures TopicChannel(tenant, t) in entry.topics <==> t in topics
  {
    if TopicChannel(tenant, t) in entry.topics {
      var t' :| t' in topics && TopicChannel(tenant, t) == TopicChannel(tenant, t');
      DropPrefix("tenant:" + tenant + ":topic:", t, t');
    }
  }

  lemma {:induction false} TracksAfterAdd(before: B.Entry<string>, after: B.Entry<string>, tenant: string, topics: set<string>, t: string)
    requires Tracks(before, tenant, topics) && after.topics.Keys == before.topics.Keys + {TopicChannel(tenant, t)}
    ensures Tracks(after, tenant, topics + {t})
  {
  }

  lemma {:induction false} TracksAfterRemove(before: B.Entry<string>, after: B.Entry<string>, tenant: string, topics: set<string>, t: string)
    requires Tracks(before, tenant, topics) && after.topics.Keys == before.topics.Keys - {TopicChannel(tenant, t)}
    ensures Tracks(after, tenant, topics - {t})
  {
    forall t' | t' in topics && t' != t
      ensures TopicChannel(tenant, t') != TopicChannel(tenant, t)
    {
      if TopicChannel(tenant, t') == TopicChannel(tenant, t) {
        DropPrefix("tenant:" + tenant + ":topic:", t, t');
      }
    }
  }

  lemma {:induction false} OneMoreAck(before: seq<Ack>, after: seq<Ack>)
    requires |after| == |before| + 1 && after[..|before|] == before
    ensures var ack := after[|before|];
            && Successes(after, true) == Successes(before, true) + (if ack.SubscriptionAck? && ack.success then 1 else 0)
            && Successes(after, false) == Successes(before, false) + (if ack.UnsubscriptionAck? && ack.success then 1 else 0)
  {
    assert after == before + [after[|before|]];
    SuccessesNext(before, after[|before|], true);
    SuccessesNext(before, after[|before|], false);
  }

  class Session {
    const service: Service
    const tenant: string
    const sub: B.SubId
    var acks: seq<Ack>
    ghost var requests: seq<Request>

    constructor (service: Service, tenant: string, sub: B.SubId)
      ensures this.service == service && this.tenant == tenant && this.sub == sub
      ensures acks == [] && requests == []
    {
      this.service, this.tenant, this.sub := service, tenant, sub;
      acks, requests := [], [];
    }

    /** The session has a tenant and its entry, and the entry and the acks are those of its requests. */
    ghost predicate Valid()
      reads this, service.pubsub
    {
      && service.pubsub.Valid()
      && tenant != ""
      && sub in service.pubsub.subscriptions
      && Tracks(service.pubsub.subscriptions[sub], tenant, Topics(requests))
      && acks == Acks(requests)
    }

    /** The broker is asked for the topic. */
    method AddTopic(topic: string, reachable: bool) returns (ok: bool)
      requires Valid()
      modifies service.pubsub
      ensures service.pubsub.Valid() && KeepsOthers(old(service.pubsub.subscriptions), old(service.pubsub.nextSub))
      ensures ok <==> topic != "" && topic !in Topics(requests) && reachable
      ensures var channel := "tenant:" + tenant + ":topic:" + topic;
              var held := old(service.pubsub.subscriptions[sub].topics.Keys);
              && (ok <==> topic != "" && channel !in held && reachable)
              && service.pubsub.subscriptions[sub].topics.Keys == if ok then held + {channel} else held
      ensures Tracks(service.pubsub.subscriptions[sub], tenant, if ok then Topics(requests) + {topic} else Topics(requests))
    {
      ghost var before := service.pubsub.subscriptions[sub];
      TopicIsTracked(before, tenant, Topics(requests), topic);
      var r := service.TopicSubscribe(tenant, topic, sub, if reachable then R.Up else R.NoConnection);
      ok := r.Ok?;
      if ok {
        TracksAfterAdd(before, service.pubsub.subscriptions[sub], tenant, Topics(requests), topic);
      }
    }

    method RemoveTopic(topic: string) returns (ok: bool)
      requires Valid()
      modifies service.pubsub
      ensures service.pubsub.Valid() && KeepsOthers(old(service.pubsub.subscriptions), old(service.pubsub.nextSub))
      ensures ok <==> topic in Topics(requests)
      ensures var channel := "tenant:" + tenant + ":topic:" + topic;
              var held := old(service.pubsub.subscriptions[sub].topics.Keys);
              (ok <==> channel in held) && service.pubsub.subscriptions[sub].topics.Keys == held - {channel}
      ensures Tracks(service.pubsub.subscriptions[sub], tenant, Topics(requests) - {topic})
    {
      ghost var before := service.pubsub.subscriptions[sub];
      TopicIsTracked(before, tenant, Topics(requests), topic);
      EmptyIsNeverHeld(requests);
      var r := service.TopicUnsubscribe(tenant, topic, sub);
      ok := r.Ok?;
      if ok {
        TracksAfterRemove(before, service.pubsub.subscriptions[sub], tenant, Topics(requests), topic);
      } else {
        assert Topics(requests) - {topic} == Topics(requests);
      }
    }

    /** The entries of other sessions are as they were, and no new one has come. */
    ghost predicate KeepsOthers(before: map<B.SubId, B.Entry<string>>, nextSub: B.SubId)
      reads service.pubsub
    {
      R.OthersStay(before, service.pubsub.subscriptions, sub) && service.pubsub.nextSub == nextSub
    }

    method HandleSubscription(topic: string, reachable: bool)
      requires Valid()
      modifies this`acks, service.pubsub, service.metrics
      ensures service.pubsub.Valid() && sub in service.pubsub.subscriptions
      ensures KeepsOthers(old(service.pubsub.subscriptions), old(service.pubsub.nextSub))
      ensures var (after, more) := Answer(Topics(requests), TopicSubscription(topic, reachable));
              && Tracks(service.pubsub.subscriptions[sub], tenant, after)
              && acks == old(acks) + more
      ensures var channel := "tenant:" + tenant + ":topic:" + topic;
              var held := old(service.pubsub.subscriptions[sub].topics.Keys);
              var success := topic != "" && channel !in held && reachable;
              && acks == old(acks) + [SubscriptionAck(topic, success)]
              && service.pubsub.subscriptions[sub].topics.Keys == (if success then held + {channel} else held)
              && service.metrics.topicSubscribes == old(service.metrics.topicSubscribes) + (if success then 1 else 0)
      ensures service.metrics.topicUnsubscribes == old(service.metrics.topicUnsubscribes)
      ensures service.metrics.topicUnsubscribeErrors == old(service.metrics.topicUnsubscribeErrors)
      ensures service.metrics.connections == old(service.metrics.connections)
    {
      var ok := AddTopic(topic, reachable);
      if ok {
        service.metrics.topicSubscribes := service.metrics.topicSubscribes + 1;
      }
      acks := acks + [SubscriptionAck(topic, ok)];
    }

    method HandleUnsubscription(topic: string)
      requires Valid()
      modifies this`acks, service.pubsub, service.metrics
      ensures service.pubsub.Valid() && sub in service.pubsub.subscriptions
      ensures KeepsOthers(old(service.pubsub.subscriptions), old(service.pubsub.nextSub))
      ensures var (after, more) := Answer(Topics(requests), TopicUnsubscription(topic));
              && Tracks(service.pubsub.subscriptions[sub], tenant, after)
              && acks == old(acks) + more
      ensures var channel := "tenant:" + tenant + ":topic:" + topic;
              var held := old(service.pubsub.subscriptions[sub].topics.Keys);
              var success := channel in held;
              && acks == old(acks) + [UnsubscriptionAck(topic, success)]
              && service.pubsub.subscriptions[sub].topics.Keys == held - {channel}
              && service.metrics.topicUnsubscribes == old(service.metrics.topicUnsubscribes) + (if success then 1 else 0)
              && service.metrics.topicUnsubscribeErrors == old(service.metrics.topicUnsubscribeErrors) + (if success then 0 else 1)
      ensures service.metrics.topicSubscribes == old(service.metrics.topicSubscribes)
      ensures service.metrics.connections == old(service.metrics.connections)
    {
      var ok := RemoveTopic(topic);
      if ok {
        service.metrics.topicUnsubscribes := service.metrics.topicUnsubscribes + 1;
      } else {
        service.metrics.topicUnsubscribeErrors := service.metrics.topicUnsubscribeErrors + 1;
      }
      acks := acks + [UnsubscriptionAck(topic, ok)];
    }

    /** Each request is answered as the plain set answers it, the metrics count the answers, and the entries of
        other sessions stay as they are. */
    method HandleClientRequest(request: Request)
      requires Valid()
      modifies this, service.pubsub, service.metrics
      ensures Valid() && requests == old(requests) + [request]
      ensures var held := old(service.pubsub.subscriptions[sub].topics.Keys);
              var now := service.pubsub.subscriptions[sub].topics.Keys;
              match request
              case TopicSubscription(topic, reachable) =>
                var channel := "tenant:" + tenant + ":topic:" + topic;
                var success := topic != "" && channel !in held && reachable;
                acks == old(acks) + [SubscriptionAck(topic, success)] && now == if success then held + {channel} else held
              case TopicUnsubscription(topic) =>
                var channel := "tenant:" + tenant + ":topic:" + topic;
                acks == old(acks) + [UnsubscriptionAck(topic, channel in held)] && now == held - {channel}
              case _ => acks == old(acks) && now == held
      ensures KeepsOthers(old(service.pubsub.subscriptions), old(service.pubsub.nextSub))
      ensures service.metrics.topicSubscribes - old(service.metrics.topicSubscribes)
              == Successes(acks, true) - old(Successes(acks, true))
      ensures service.metrics.topicUnsubscribes - old(service.metrics.topicUnsubscribes)
              == Successes(acks, false) - old(Successes(acks, false))
      ensures service.metrics.connections == old(service.metrics.connections)
    {
      AnswersNext(requests, request);
      ghost var before := acks;
      match request {
        case TopicSubscription(topic, reachable) =>
          HandleSubscription(topic, reachable);
          OneMoreAck(before, acks);
        case TopicUnsubscription(topic) =>
          HandleUnsubscription(topic);
          OneMoreAck(before, acks);
        case _ => assert acks + [] == acks;
      }
      requests := requests + [request];
    }
  }

  // ----- many sessions of one service -----

  /** Different sessions, each with an entry of its own. */
  ghost predicate Apart(sessions: seq<Session>, service: Service) {
    && (forall k :: 0 <= k < |sessions| ==> sessions[k].service == service)
    && (forall j, k :: 0 <= j < k < |sessions| ==> sessions[j] != sessions[k] && sessions[j].sub != sessions[k].sub)
  }

  ghost predicate AllValid(sessions: seq<Session>, service: Service)
    requires Apart(sessions, service)
    reads sessions, service.pubsub
  {
    forall k :: 0 <= k < |sessions| ==> sessions[k].Valid()
  }

  /** The requests of session k among those of all, in order. */
  function Of(inbound: seq<(nat, Request)>, k: nat): seq<Request> {
    if inbound == [] then []
    else
      var (session, request) := inbound[|inbound| - 1];
      Of(inbound[..|inbound| - 1], k) + (if session == k then [request] else [])
  }

  lemma {:induction false} GivenNext(before: seq<Request>, inbound: seq<(nat, Request)>, i: nat, k: nat)
    requires i < |inbound|
    ensures before + Of(inbound[..i + 1], k)
            == before + Of(inbound[..i], k) + (if inbound[i].0 == k then [inbound[i].1] else [])
  {
    assert inbound[..i + 1][..i] == inbound[..i];
    var more := if inbound[i].0 == k then [inbound[i].1] else [];
    assert before + (Of(inbound[..i], k) + more) == before + Of(inbound[..i], k) + more;
  }

  ghost function RequestsOf(sessions: seq<Session>): (r: seq<seq<Request>>)
    reads sessions
    ensures |r| == |sessions| && forall k :: 0 <= k < |sessions| ==> r[k] == sessions[k].requests
  {
    seq(|sessions|, k requires 0 <= k < |sessions| reads sessions => sessions[k].requests)
  }

  /** What sessions have been asked after n requests of a common sequence. */
  ghost predicate Given(sessions: seq<Session>, before: seq<seq<Request>>, inbound: seq<(nat, Request)>)
    reads sessions
  {
    |before| == |sessions| && forall k :: 0 <= k < |sessions| ==> sessions[k].requests == before[k] + Of(inbound, k)
  }

  /** Requests of many sessions in any interleaving: each session has the topics, and gives the acks, that its
      own requests alone call for. */
  method ServeAll(service: Service, sessions: seq<Session>, inbound: seq<(nat, Request)>)
    requires Apart(sessions, service) && AllValid(sessions, service)
    requires forall i :: 0 <= i < |inbound| ==> inbound[i].0 < |sessions|
    modifies sessions, service.pubsub, service.metrics
    ensures AllValid(sessions, service)
    ensures Given(sessions, old(RequestsOf(sessions)), inbound)
  {
    ghost var before := RequestsOf(sessions);
    for i := 0 to |inbound|
      invariant AllValid(sessions, service)
      invariant Given(sessions, before, inbound[..i])
    {
      ghost var given := RequestsOf(sessions);
      ServeOne(service, sessions, inbound[i].0, inbound[i].1);
      forall k | 0 <= k < |sessions|
        ensures sessions[k].requests == before[k] + Of(inbound[..i + 1], k)
      {
        GivenNext(before[k], inbound, i, k);
        assert given[k] == before[k] + Of(inbound[..i], k);
      }
    }
    assert inbound[..|inbound|] == inbound;
  }

  /** One request of one of them. */
  method ServeOne(service: Service, sessions: seq<Session>, i: nat, request: Request)
    requires Apart(sessions, service) && AllValid(sessions, service) && i < |sessions|
    modifies sessions[i], service.pubsub, service.metrics
    ensures AllValid(sessions, service)
    ensures sessions[i].requests == old(sessions[i].requests) + [request]
    ensures forall k :: 0 <= k < |sessions| && k != i ==> sessions[k].requests == old(sessions[k].requests)
  {
    sessions[i].HandleClientRequest(request);
    forall k | 0 <= k < |sessions|
      ensures sessions[k].Valid()
    {
      if k != i {
        assert sessions[k] != sessions[i] && sessions[k].sub != sessions[i].sub;
        assert old(sessions[k].Valid());
      }
    }
  }

  lemma {:induction false} EmptyIsNeverHeld(requests: seq<Request>)
    ensures "" !in Topics(requests)
    decreases |requests|
  {
    if requests != [] {
      EmptyIsNeverHeld(requests[..|requests| - 1]);
    }
  }
}
