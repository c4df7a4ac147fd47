/** The two session handlers from the connection to its end: subscribe, send the ack, loop, unsubscribe. What
    each exit leaves behind is what a run of the session machine leaves. */
module Handlers {
  import opened Common
  import opened Faults
  import B = Broker
  import R = RedisPubSub
  import S = Sessions
  import opened PushService
  import opened Keepalive
  import G = GrpcSession

  /** How a connection comes about: no client id or no valid request, no connection to the broker, no ack, or a
      session. */
  datatype Arrival = Rejected | Refused | Unacked | Arrived

  /** The state of the session machine is that of the service: its table has the ids of the broker's entries,
      its devices are those stored, its connections those counted. */
  ghost predicate Mirrors(s: S.State, service: Service)
    reads service.pubsub, service.kv, service.metrics
  {
    && s.table == service.pubsub.subscriptions.Keys && s.nextSub == service.pubsub.nextSub
    && s.devices == service.kv.devices && s.connections == service.metrics.connections
  }

  /** A device counts only with device support. */
  function ProfileOf(service: Service, tenant: string, client: string, device: Option<S.Device>): S.Profile {
    S.Profile(tenant, client, if service.deviceSupport then device else None)
  }

  /** Where a session with this arrival stands. */
  ghost function AfterArrival(s: S.State, profile: S.Profile, arrival: Arrival, storing: Outcome): S.State {
    if arrival.Rejected? then s else S.Connected(s, profile, !arrival.Refused?, storing, arrival.Arrived?)
  }

  /** Up to the loop: the subscription and the connect ack, for whatever other sessions there are. A session
      that is refused, or whose ack cannot be sent, is left as it is. */
  method Connect(service: Service, tenant: string, client: string, device: Option<S.Device>, link: R.Link,
                 storing: Outcome, acked: bool, ghost s: S.State)
    returns (arrival: Arrival, sub: B.SubId)
    requires service.pubsub.Valid() && Mirrors(s, service)
    modifies service.pubsub, service.kv, service.metrics
    ensures service.pubsub.Valid()
    ensures Mirrors(AfterArrival(s, ProfileOf(service, tenant, client, device), arrival, storing), service)
    ensures arrival.Rejected? <==> service.Rejects(tenant, client, device)
    ensures link.Up? && !arrival.Rejected? ==> arrival == if acked then Arrived else Unacked
    ensures arrival.Arrived? ==> acked
    ensures sub == old(service.pubsub.nextSub)
    ensures arrival.Rejected? ==> service.pubsub.subscriptions == old(service.pubsub.subscriptions)
    ensures !arrival.Rejected? ==>
              && sub in service.pubsub.subscriptions && service.pubsub.subscriptions[sub].topics == map[]
              && service.pubsub.subscriptions - {sub} == old(service.pubsub.subscriptions)
    ensures sub !in old(service.pubsub.subscriptions)
  {
    sub := service.pubsub.nextSub;
    FreshId(service, sub);
    ghost var before := service.pubsub.subscriptions;
    arrival := Subscribe(service, tenant, client, device, link, storing, s);
    if arrival.Arrived? && !acked {
      arrival := Unacked;
    }
    if !arrival.Rejected? {
      AddedAndRemoved(before, sub, service.pubsub.subscriptions[sub]);
    }
    if arrival.Refused? || arrival.Unacked? {
      service.pubsub.DropSubscription(sub);
    }
  }

  lemma {:induction false} AddedAndRemoved<K, V>(m: map<K, V>, k: K, v: V)
    requires k !in m
    ensures m[k := v] - {k} == m
  {
  }

  /** The subscription, as if the ack got through. */
  method Subscribe(service: Service, tenant: string, client: string, device: Option<S.Device>, link: R.Link,
                   storing: Outcome, ghost s: S.State)
    returns (arrival: Arrival)
    requires service.pubsub.Valid() && Mirrors(s, service)
    modifies service.pubsub, service.kv, service.metrics
    ensures service.pubsub.Valid() && !arrival.Unacked?
    ensures Mirrors(AfterArrival(s, ProfileOf(service, tenant, client, device), arrival, storing), service)
    ensures arrival.Rejected? <==> service.Rejects(tenant, client, device)
    ensures link.Up? && !arrival.Rejected? ==> arrival.Arrived?
    ensures arrival.Rejected? ==> service.pubsub.subscriptions == old(service.pubsub.subscriptions)
    ensures !arrival.Rejected? ==>
              service.pubsub.subscriptions
              == old(service.pubsub.subscriptions)[old(service.pubsub.nextSub) := B.Entry(old(|service.pubsub.listeners|), map[])]
  {
    var r := service.SubscribeClient(tenant, client, device, link, storing);
    arrival := if r.Ok? then Arrived else if r.error.InvalidArgument? then Rejected else Refused;
  }

  lemma {:induction false} FreshId(service: Service, sub: B.SubId)
    requires service.pubsub.Valid() && sub >= service.pubsub.nextSub
    ensures sub !in service.pubsub.subscriptions
  {
    R.ReachedIsKept(service.pubsub.Now());
  }

  /** After the loop, however it has ended. */
  method Disconnect(service: Service, tenant: string, client: string, device: Option<S.Device>, sub: B.SubId,
                    deleting: Outcome, ghost s: S.State, ghost i: nat)
    requires service.pubsub.Valid() && Mirrors(s, service)
    requires i < |s.sessions| && s.sessions[i].sub == Some(sub)
    requires s.sessions[i].profile == ProfileOf(service, tenant, client, device)
    modifies service.pubsub, service.kv, service.metrics
    ensures service.pubsub.Valid()
    ensures Mirrors(S.Disconnected(s, i, deleting), service)
    ensures service.pubsub.subscriptions == old(service.pubsub.subscriptions) - {sub}
  {
    service.UnsubscribeClient(tenant, client, sub, device, deleting);
    service.pubsub.DropSubscription(sub);
  }

  // ----- the WebSocket handler -----

  /** Where the session machine stands when the handler is done with these events. */
  ghost function AfterSession(s: S.State, profile: S.Profile, arrival: Arrival, storing: Outcome, over: bool, deleting: Outcome)
    : S.State
  {
    var t := AfterArrival(s, profile, arrival, storing);
    if arrival.Arrived? && over then S.Disconnected(t, |s.sessions|, deleting) else t
  }

  /** The handler's effect is a run of the session machine, in which this session connects and, when its loop is
      over, is uncounted once. */
  lemma {:induction false} SessionIsRun(s: S.State, profile: S.Profile, arrival: Arrival, storing: Outcome, over: bool,
                                        deleting: Outcome)
    returns (run: seq<S.Action>)
    ensures S.IsRun(s, run) && S.After(s, run) == AfterSession(s, profile, arrival, storing, over, deleting)
    ensures S.TimesOut(run, |s.sessions|) == if arrival.Arrived? && over then 1 else 0
  {
    var i := |s.sessions|;
    if arrival.Rejected? {
      run := [];
    } else {
      run := S.ConnectRun(i, profile, !arrival.Refused?, storing, arrival.Arrived?);
      S.ConnectIsRun(s, profile, !arrival.Refused?, storing, arrival.Arrived?);
      if arrival.Arrived? && over {
        S.DisconnectIsRun(S.After(s, run), i, deleting);
        S.RunsCompose(s, run, S.DisconnectRun(i, deleting));
        run := run + S.DisconnectRun(i, deleting);
      }
    }
    S.UncountedOnce(s, run, i);
  }

  /** The session from its connection until its loop has dealt with the events. */
  method HandleWs(service: Service, tenant: string, client: string, device: Option<S.Device>, link: R.Link,
                  storing: Outcome, acked: bool, start: nat, events: seq<Timed<WsEvent>>, pongTimeout: nat,
                  deleting: Outcome, ghost s: S.State)
    returns (arrival: Arrival, v: Verdict, c: Counters)
    requires service.pubsub.Valid() && Mirrors(s, service) && Ordered(start, WsTrace(events))
    modifies service.pubsub, service.kv, service.metrics
    ensures service.pubsub.Valid()
    ensures arrival.Arrived? ==> IsOutcome(start, WsTrace(events), pongTimeout, v, c)
    ensures Mirrors(AfterSession(s, ProfileOf(service, tenant, client, device), arrival, storing, !v.StillRunning?, deleting), service)
    ensures arrival.Rejected? || (arrival.Arrived? && !v.StillRunning?) ==>
              && service.pubsub.subscriptions == old(service.pubsub.subscriptions)
              && service.metrics.connections == old(service.metrics.connections)
    ensures arrival.Refused? ==> service.metrics.connections == old(service.metrics.connections)
    ensures arrival.Unacked? || (arrival.Arrived? && v.StillRunning?) ==>
              service.metrics.connections == old(service.metrics.connections) + 1
    ensures arrival.Refused? || arrival.Unacked? || (arrival.Arrived? && v.StillRunning?) ==>
              && old(service.pubsub.nextSub) in service.pubsub.subscriptions
              && service.pubsub.subscriptions - {old(service.pubsub.nextSub)} == old(service.pubsub.subscriptions)
  {
    v, c := StillRunning, Counters(0, 0, 0, 0);
    if client == "" {
      return Rejected, v, c;
    }
    var sub;
    arrival, sub := Connect(service, tenant, client, device, link, storing, acked, s);
    if !arrival.Arrived? {
      return;
    }
    v, c := WsLoop(start, events, pongTimeout);
    if !v.StillRunning? {
      ghost var live := AfterArrival(s, ProfileOf(service, tenant, client, device), arrival, storing);
      Disconnect(service, tenant, client, device, sub, deleting, live, |s.sessions|);
    }
  }

  // ----- the gRPC handler -----

  /** The requests among the first n events. */
  function Requests(events: seq<Timed<GrpcEvent<G.Request>>>, n: nat): seq<G.Request>
    requires n <= |events|
  {
    if n == 0 then []
    else Requests(events, n - 1) + (if events[n - 1].event.Request? then [events[n - 1].event.request] else [])
  }

  /** Each request among the first n events stands where those before it end, and nothing else is there. */
  lemma {:induction false} RequestsStand(events: seq<Timed<GrpcEvent<G.Request>>>, n: nat)
    requires n <= |events|
    ensures |Requests(events, n)| == |set k | 0 <= k < n && events[k].event.Request?|
    ensures forall k :: 0 <= k < n && events[k].event.Request? ==>
              && |Requests(events, k)| < |Requests(events, n)|
              && Requests(events, n)[|Requests(events, k)|] == events[k].event.request
    decreases n
  {
    if n > 0 {
      RequestsStand(events, n - 1);
      OneMore((set k | 0 <= k < n - 1 && events[k].event.Request?), (set k | 0 <= k < n && events[k].event.Request?), n - 1,
              events[n - 1].event.Request?);
    }
  }

  /** The log is an earlier one, followed by the requests among the first n events. */
  ghost predicate Logs(log: seq<G.Request>, earlier: seq<G.Request>, events: seq<Timed<GrpcEvent<G.Request>>>, n: nat)
    requires n <= |events|
    decreases n
  {
    if n == 0 then log == earlier
    else if events[n - 1].event.Request? then
      && |log| > 0 && log[|log| - 1] == events[n - 1].event.request
      && Logs(log[..|log| - 1], earlier, events, n - 1)
    else Logs(log, earlier, events, n - 1)
  }

  lemma {:induction false} LogsRequests(log: seq<G.Request>, earlier: seq<G.Request>, events: seq<Timed<GrpcEvent<G.Request>>>, n: nat)
    requires n <= |events| && Logs(log, earlier, events, n)
    ensures log == earlier + Requests(events, n)
    decreases n
  {
    if n > 0 && events[n - 1].event.Request? {
      LogsRequests(log[..|log| - 1], earlier, events, n - 1);
    } else if n > 0 {
      LogsRequests(log, earlier, events, n - 1);
    }
  }

  lemma {:induction false} LogsOneMore(log: seq<G.Request>, earlier: seq<G.Request>, events: seq<Timed<GrpcEvent<G.Request>>>, n: nat)
    requires n < |events| && Logs(log, earlier, events, n)
    ensures Logs(if events[n].event.Request? then log + [events[n].event.request] else log, earlier, events, n + 1)
  {
    if events[n].event.Request? {
      assert (log + [events[n].event.request])[..|log|] == log;
    }
  }

  /** The session has dealt with the first n events, and changed nothing of the others. */
  ghost predicate Served(session: G.Session, earlier: seq<G.Request>, events: seq<Timed<GrpcEvent<G.Request>>>, n: nat,
                         others: map<B.SubId, B.Entry<string>>, nextSub: B.SubId, connections: int)
    requires n <= |events|
    reads session, session.service.pubsub, session.service.metrics
  {
    && session.Valid() && Logs(session.requests, earlier, events, n) && session.KeepsOthers(others, nextSub)
    && session.service.metrics.connections == connections
  }

  /** One turn: the branch taken for the event, and what a request asks for. */
  method TakeTurn(session: G.Session, events: seq<Timed<GrpcEvent<G.Request>>>, n: nat, lastInboundAt: nat, delivered: nat,
                  idleTimeout: nat, ghost earlier: seq<G.Request>, ghost others: map<B.SubId, B.Entry<string>>,
                  ghost nextSub: B.SubId, ghost connections: int)
    returns (turn: Turn, last: nat, deliveredNow: nat)
    requires n < |events| && Served(session, earlier, events, n, others, nextSub, connections)
    modifies session, session.service.pubsub, session.service.metrics
    ensures Served(session, earlier, events, n + 1, others, nextSub, connections)
    ensures turn == TurnOf(GrpcTrace(events)[n], lastInboundAt, idleTimeout)
    ensures last == if GrpcTrace(events)[n].alive then GrpcTrace(events)[n].time else lastInboundAt
    ensures deliveredNow == delivered + (if GrpcTrace(events)[n].delivers then 1 else 0)
  {
    LogsOneMore(session.requests, earlier, events, n);
    turn, last, deliveredNow := GrpcTurn(events[n], lastInboundAt, delivered, idleTimeout);
    if events[n].event.Request? {
      session.HandleClientRequest(events[n].event.request);
    }
  }

  const ZERO := Counters(0, 0, 0, 0)

  /** What the turns from k on come to, in the terms of this loop. */
  ghost predicate TurnsAre(events: seq<Timed<GrpcEvent<G.Request>>>, timeout: nat, k: nat, last: nat, c: Counters,
                           v: Verdict, delivered: nat, timeouts: nat)
    requires k <= |events|
  {
    var (w, d) := TurnsFrom(GrpcTrace(events), timeout, k, last, c);
    v == w && delivered == d.delivered && timeouts == d.timeouts
  }

  /** In time the loop ends as its verdict says, with the counters of its trace. */
  lemma {:induction false} TurnsAreOutcome(start: nat, events: seq<Timed<GrpcEvent<G.Request>>>, timeout: nat, v: Verdict,
                                           delivered: nat, timeouts: nat)
    requires Ordered(start, GrpcTrace(events)) && TurnsAre(events, timeout, 0, start, ZERO, v, delivered, timeouts)
    ensures IsVerdict(start, GrpcTrace(events), timeout, v)
    ensures delivered == Final(GrpcTrace(events), v).delivered && timeouts == Final(GrpcTrace(events), v).timeouts
  {
    TurnsDecide(start, GrpcTrace(events), timeout, 0, start, ZERO);
  }

  /** The loop of channel: it deals with the events up to its end, and counts deliveries and the timeout. */
  method ChannelLoop(session: G.Session, start: nat, events: seq<Timed<GrpcEvent<G.Request>>>, idleTimeout: nat,
                     ghost earlier: seq<G.Request>, ghost others: map<B.SubId, B.Entry<string>>, ghost nextSub: B.SubId,
                     ghost connections: int)
    returns (v: Verdict, delivered: nat, timeouts: nat)
    requires Served(session, earlier, events, 0, others, nextSub, connections)
    modifies session, session.service.pubsub, session.service.metrics
    ensures TurnsAre(events, idleTimeout, 0, start, ZERO, v, delivered, timeouts)
    ensures !v.StillRunning? ==> v.at < |events|
    ensures Served(session, earlier, events, if v.StillRunning? then |events| else v.at + 1, others, nextSub, connections)
  {
    ghost var c := ZERO;
    ghost var outcome := TurnsFrom(GrpcTrace(events), idleTimeout, 0, start, c);
    var lastInboundAt: nat := start;
    v, delivered, timeouts := StillRunning, 0, 0;
    var k := 0;
    while k < |events| && v.StillRunning?
      invariant 0 <= k <= |events| && (!v.StillRunning? ==> v.at + 1 == k)
      invariant outcome == if v.StillRunning? then TurnsFrom(GrpcTrace(events), idleTimeout, k, lastInboundAt, c) else (v, c)
      invariant delivered == c.delivered && timeouts == c.timeouts
      invariant Served(session, earlier, events, k, others, nextSub, connections)
      decreases |events| - k
    {
      c := CountersAfter(c, GrpcTrace(events)[k], TurnOf(GrpcTrace(events)[k], lastInboundAt, idleTimeout));
      var turn;
      turn, lastInboundAt, delivered :=
        TakeTurn(session, events, k, lastInboundAt, delivered, idleTimeout, earlier, others, nextSub, connections);
      if turn.CutsOff? {
        v, timeouts := TimedOut(k), timeouts + 1;
      } else if turn.Leaves? {
        v := Ended(k);
      }
      k := k + 1;
    }
  }

  /** The session from its connection until its loop has dealt with the events; its topics go with its entry. */
  method Channel(service: Service, tenant: string, client: string, device: Option<S.Device>, link: R.Link,
                 storing: Outcome, acked: bool, start: nat, events: seq<Timed<GrpcEvent<G.Request>>>, idleTimeout: nat,
                 deleting: Outcome, ghost s: S.State)
    returns (arrival: Arrival, v: Verdict, acks: seq<G.Ack>, delivered: nat, timeouts: nat)
    requires service.pubsub.Valid() && Mirrors(s, service) && Ordered(start, GrpcTrace(events))
    modifies service.pubsub, service.kv, service.metrics
    ensures service.pubsub.Valid()
    ensures arrival.Arrived? ==>
              && IsVerdict(start, GrpcTrace(events), idleTimeout, v)
              && delivered == Final(GrpcTrace(events), v).delivered && timeouts == Final(GrpcTrace(events), v).timeouts
              && acks == G.Acks(Requests(events, if v.StillRunning? then |events| else v.at + 1))
    ensures Mirrors(AfterSession(s, ProfileOf(service, tenant, client, device), arrival, storing, !v.StillRunning?, deleting), service)
    ensures arrival.Rejected? || (arrival.Arrived? && !v.StillRunning?) ==>
              && service.pubsub.subscriptions == old(service.pubsub.subscriptions)
              && service.metrics.connections == old(service.metrics.connections)
  {
    v, acks, delivered, timeouts := StillRunning, [], 0, 0;
    var sub;
    arrival, sub := Connect(service, tenant, client, device, link, storing, acked, s);
    if !arrival.Arrived? {
      return;
    }
    v, acks, delivered, timeouts := Session(service, tenant, sub, start, events, idleTimeout);
    if !v.StillRunning? {
      ghost var live := AfterArrival(s, ProfileOf(service, tenant, client, device), arrival, storing);
      Disconnect(service, tenant, client, device, sub, deleting, live, |s.sessions|);
    }
  }

  /** The session proper, on an entry without topics. */
  method Session(service: Service, tenant: string, sub: B.SubId, start: nat, events: seq<Timed<GrpcEvent<G.Request>>>,
                 idleTimeout: nat)
    returns (v: Verdict, acks: seq<G.Ack>, delivered: nat, timeouts: nat)
    requires service.pubsub.Valid() && sub in service.pubsub.subscriptions && tenant != ""
    requires service.pubsub.subscriptions[sub].topics == map[] && Ordered(start, GrpcTrace(events))
    modifies service.pubsub, service.metrics
    ensures service.pubsub.Valid()
    ensures IsVerdict(start, GrpcTrace(events), idleTimeout, v)
    ensures delivered == Final(GrpcTrace(events), v).delivered && timeouts == Final(GrpcTrace(events), v).timeouts
    ensures acks == G.Acks(Requests(events, if v.StillRunning? then |events| else v.at + 1))
    ensures service.pubsub.subscriptions.Keys == old(service.pubsub.subscriptions).Keys
    ensures service.pubsub.subscriptions - {sub} == old(service.pubsub.subscriptions) - {sub}
    ensures service.pubsub.nextSub == old(service.pubsub.nextSub)
    ensures service.metrics.connections == old(service.metrics.connections)
  {
    ghost var before, nextSub, connections := service.pubsub.subscriptions, service.pubsub.nextSub, service.metrics.connections;
    var session := new G.Session(service, tenant, sub);
    v, delivered, timeouts := ChannelLoop(session, start, events, idleTimeout, [], before, nextSub, connections);
    acks := session.acks;
    TurnsAreOutcome(start, events, idleTimeout, v, delivered, timeouts);
    LogsRequests(session.requests, [], events, if v.StillRunning? then |events| else v.at + 1);
    ghost var requests := Requests(events, if v.StillRunning? then |events| else v.at + 1);
    assert [] + requests == requests;
    assert session.Valid() && session.requests == requests;
    assert acks == G.Acks(requests);
    R.OthersAreAll(before, service.pubsub.subscriptions, sub);
  }
}
