/** The session loops of the WebSocket and gRPC servers on timed traces of what their select picks, and when
    a session is cut for silence. Times and durations share one unit. */
module Keepalive {

  /** What one turn of a loop amounts to: a sign of life, a tick of the interval, an end of the session for
      another reason, an event that is delivered or is tried to be. */
  datatype Moment = Moment(time: nat, alive: bool, tick: bool, ends: bool, delivers: bool)

  ghost predicate Ordered(start: nat, trace: seq<Moment>) {
    && (forall k :: 0 <= k < |trace| ==> start <= trace[k].time)
    && (forall j, k :: 0 <= j < k < |trace| ==> trace[j].time <= trace[k].time)
  }

  /** A tick more than the timeout after the start and after every sign of life before it. */
  ghost predicate Expired(start: nat, trace: seq<Moment>, timeout: nat, k: nat)
    requires k < |trace|
  {
    && trace[k].tick
    && start + timeout < trace[k].time
    && (forall j :: 0 <= j < k && trace[j].alive ==> trace[j].time + timeout < trace[k].time)
  }

  ghost predicate Breaks(start: nat, trace: seq<Moment>, timeout: nat, k: nat)
    requires k < |trace|
  {
    Expired(start, trace, timeout, k) || trace[k].ends
  }

  /** No moment before k breaks the session. */
  ghost predicate Unbroken(start: nat, trace: seq<Moment>, timeout: nat, k: nat)
    requires k <= |trace|
  {
    forall j :: 0 <= j < k ==> !Breaks(start, trace, timeout, j)
  }

  datatype Verdict = StillRunning | TimedOut(at: nat) | Ended(at: nat)

  /** The session stops at the first moment that breaks it: for silence if it has expired then, else for the
      other reason. */
  ghost predicate IsVerdict(start: nat, trace: seq<Moment>, timeout: nat, v: Verdict) {
    match v
    case StillRunning => Unbroken(start, trace, timeout, |trace|)
    case TimedOut(at) =>
      && at < |trace| && Expired(start, trace, timeout, at)
      && Unbroken(start, trace, timeout, at)
    case Ended(at) =>
      && at < |trace| && trace[at].ends && !Expired(start, trace, timeout, at)
      && Unbroken(start, trace, timeout, at)
  }

  /** There is only one verdict on a trace. */
  lemma VerdictIsUnique(start: nat, trace: seq<Moment>, timeout: nat, v: Verdict, w: Verdict)
    requires IsVerdict(start, trace, timeout, v) && IsVerdict(start, trace, timeout, w)
    ensures v == w
  {
    if !v.StillRunning? {
      assert Breaks(start, trace, timeout, v.at);
    }
    if !w.StillRunning? {
      assert Breaks(start, trace, timeout, w.at);
    }
  }

  // ----- the WebSocket loop -----

  datatype WsEvent =
    | Text
    | Pong
    | Ping(answered: bool)
    | Close
    | StreamEnd
    | ReadError
    | OtherFrame
    | Deliver(sent: bool)
    | EventsClosed
    | PingTick(sent: bool)

  datatype Timed<E> = Timed(time: nat, event: E)

  /** A pong, or a ping that could be answered. */
  predicate WsAlive(e: WsEvent) {
    e.Pong? || (e.Ping? && e.answered)
  }

  /** A close, an error of either stream, or a frame that could not be sent. */
  predicate WsEnds(e: WsEvent) {
    match e
    case Ping(answered) => !answered
    case Close | StreamEnd | ReadError | EventsClosed => true
    case Deliver(sent) => !sent
    case PingTick(sent) => !sent
    case _ => false
  }

  function WsMoment(e: Timed<WsEvent>): Moment {
    Moment(e.time, WsAlive(e.event), e.event.PingTick?, WsEnds(e.event), e.event.Deliver?)
  }

  function WsTrace(events: seq<Timed<WsEvent>>): (r: seq<Moment>)
    ensures |r| == |events| && forall k :: 0 <= k < |events| ==> r[k] == WsMoment(events[k])
  {
    seq(|events|, k requires 0 <= k < |events| => WsMoment(events[k]))
  }

  /** The signs of life up to k, latest first, are summed up by the latest time. */
  ghost predicate IsLastSign(start: nat, trace: seq<Moment>, k: nat, last: nat)
    requires k <= |trace|
  {
    && start <= last
    && (last == start || exists j :: 0 <= j < k && trace[j].alive && trace[j].time == last)
    && (forall j :: 0 <= j < k && trace[j].alive ==> trace[j].time <= last)
  }

  lemma LastSignDecides(start: nat, trace: seq<Moment>, timeout: nat, k: nat, last: nat)
    requires k < |trace| && IsLastSign(start, trace, k, last) && trace[k].tick
    ensures Expired(start, trace, timeout, k) <==> last + timeout < trace[k].time
  {
  }

  lemma NextSign(start: nat, trace: seq<Moment>, k: nat, last: nat)
    requires Ordered(start, trace) && k < |trace| && IsLastSign(start, trace, k, last)
    ensures IsLastSign(start, trace, k + 1, if trace[k].alive then trace[k].time else last)
  {
    if last != start {
      var j :| 0 <= j < k && trace[j].alive && trace[j].time == last;
    }
  }

  /** What moment k decides when no earlier one has broken the session. */
  lemma MomentDecides(start: nat, trace: seq<Moment>, timeout: nat, k: nat)
    requires k < |trace| && Unbroken(start, trace, timeout, k)
    ensures Expired(start, trace, timeout, k) ==> IsVerdict(start, trace, timeout, TimedOut(k))
    ensures !Expired(start, trace, timeout, k) && trace[k].ends ==> IsVerdict(start, trace, timeout, Ended(k))
    ensures !Breaks(start, trace, timeout, k) ==> Unbroken(start, trace, timeout, k + 1)
  {
  }

  /** The metrics a loop keeps. */
  datatype Counters = Counters(ticks: nat, signs: nat, delivered: nat, timeouts: nat)

  /** What n turns that go on add to them: an answered tick, a sign of life, a delivery. */
  function Tally(trace: seq<Moment>, n: nat): Counters
    requires n <= |trace|
  {
    if n == 0 then Counters(0, 0, 0, 0)
    else
      var before, last := Tally(trace, n - 1), trace[n - 1];
      Counters(before.ticks + (if last.tick then 1 else 0),
               before.signs + (if last.alive then 1 else 0),
               before.delivered + (if last.delivers then 1 else 0),
               0)
  }

  /** What a loop with this verdict has counted: a delivery counts before it is sent. */
  function Final(trace: seq<Moment>, v: Verdict): Counters
    requires !v.StillRunning? ==> v.at < |trace|
  {
    match v
    case StillRunning => Tally(trace, |trace|)
    case TimedOut(at) => Tally(trace, at).(timeouts := 1)
    case Ended(at) => var c := Tally(trace, at); c.(delivered := c.delivered + if trace[at].delivers then 1 else 0)
  }

  /** What a turn does to the loop. */
  datatype Turn = GoesOn | CutsOff | Leaves

  /** The turn a moment calls for, when the last sign of life was at the given time. */
  function TurnOf(m: Moment, last: nat, timeout: nat): Turn {
    if m.tick && last + timeout < m.time then CutsOff else if m.ends then Leaves else GoesOn
  }

  /** The counters after it. */
  function CountersAfter(c: Counters, m: Moment, turn: Turn): Counters {
    match turn
    case CutsOff => c.(timeouts := c.timeouts + 1)
    case Leaves => c.(delivered := c.delivered + if m.delivers then 1 else 0)
    case GoesOn => Counters(c.ticks + (if m.tick then 1 else 0), c.signs + (if m.alive then 1 else 0),
                            c.delivered + (if m.delivers then 1 else 0), c.timeouts)
  }

  /** A turn of a loop that keeps the last sign of life in `last`: how it must end the session, or what holds
      after it. */
  lemma TurnDecides(start: nat, trace: seq<Moment>, timeout: nat, k: nat, last: nat)
    requires Ordered(start, trace) && k < |trace|
    requires Unbroken(start, trace, timeout, k) && IsLastSign(start, trace, k, last)
    ensures match TurnOf(trace[k], last, timeout)
            case CutsOff => IsVerdict(start, trace, timeout, TimedOut(k))
            case Leaves => IsVerdict(start, trace, timeout, Ended(k))
            case GoesOn => Unbroken(start, trace, timeout, k + 1)
                           && IsLastSign(start, trace, k + 1, if trace[k].alive then trace[k].time else last)
  {
    if trace[k].tick {
      LastSignDecides(start, trace, timeout, k, last);
    }
    MomentDecides(start, trace, timeout, k);
    NextSign(start, trace, k, last);
  }

  /** The state of a loop before turn k: no earlier moment has broken the session, and it knows the time of the
      last sign of life and the counters. */
  ghost predicate LoopState(start: nat, trace: seq<Moment>, timeout: nat, k: nat, last: nat, c: Counters) {
    && Ordered(start, trace) && k <= |trace|
    && Unbroken(start, trace, timeout, k) && IsLastSign(start, trace, k, last)
    && c == Tally(trace, k)
  }

  lemma LastSignIsPast(start: nat, trace: seq<Moment>, timeout: nat, k: nat, last: nat, c: Counters)
    requires LoopState(start, trace, timeout, k, last, c) && k < |trace|
    ensures last <= trace[k].time
  {
  }

  /** A turn ends the loop with its verdict and its final counters, or leads to the next state. */
  lemma TurnLeads(start: nat, trace: seq<Moment>, timeout: nat, k: nat, last: nat, c: Counters)
    requires LoopState(start, trace, timeout, k, last, c) && k < |trace|
    ensures var turn := TurnOf(trace[k], last, timeout);
            var after := CountersAfter(c, trace[k], turn);
            match turn
            case CutsOff => IsOutcome(start, trace, timeout, TimedOut(k), after)
            case Leaves => IsOutcome(start, trace, timeout, Ended(k), after)
            case GoesOn => LoopState(start, trace, timeout, k + 1, if trace[k].alive then trace[k].time else last, after)
  {
    TurnDecides(start, trace, timeout, k, last);
  }

  /** How a loop may come out. */
  ghost predicate IsOutcome(start: nat, trace: seq<Moment>, timeout: nat, v: Verdict, c: Counters) {
    IsVerdict(start, trace, timeout, v) && c == Final(trace, v)
  }

  /** What the turns from k on come to. */
  function TurnsFrom(trace: seq<Moment>, timeout: nat, k: nat, last: nat, c: Counters): (Verdict, Counters)
    requires k <= |trace|
    decreases |trace| - k
  {
    if k == |trace| then (StillRunning, c)
    else
      var turn := TurnOf(trace[k], last, timeout);
      var after := CountersAfter(c, trace[k], turn);
      match turn
      case CutsOff => (TimedOut(k), after)
      case Leaves => (Ended(k), after)
      case GoesOn => TurnsFrom(trace, timeout, k + 1, if trace[k].alive then trace[k].time else last, after)
  }

  /** It is the outcome that the loop must have. */
  lemma {:induction false} TurnsDecide(start: nat, trace: seq<Moment>, timeout: nat, k: nat, last: nat, c: Counters)
    requires LoopState(start, trace, timeout, k, last, c)
    ensures var (v, final) := TurnsFrom(trace, timeout, k, last, c); IsOutcome(start, trace, timeout, v, final)
    decreases |trace| - k
  {
    if k < |trace| {
      TurnLeads(start, trace, timeout, k, last, c);
      if TurnOf(trace[k], last, timeout).GoesOn? {
        TurnsDecide(start, trace, timeout, k + 1, if trace[k].alive then trace[k].time else last,
                    CountersAfter(c, trace[k], GoesOn));
      }
    }
  }

  /** The branch taken for one event, with the time of the last pong and the counters after it. */
  method WsTurn(e: Timed<WsEvent>, lastPongAt: nat, counters: Counters, pongTimeout: nat)
    returns (turn: Turn, last: nat, c: Counters)
    requires lastPongAt <= e.time
    ensures turn == TurnOf(WsMoment(e), lastPongAt, pongTimeout)
    ensures c == CountersAfter(counters, WsMoment(e), turn)
    ensures last == if turn.GoesOn? && WsMoment(e).alive then e.time else lastPongAt
    ensures match e.event
            case Pong => turn == GoesOn && last == e.time && c == counters.(signs := counters.signs + 1)
            case Ping(true) => turn == GoesOn && last == e.time && c == counters.(signs := counters.signs + 1)
            case Text => turn == GoesOn && last == lastPongAt && c == counters
            case OtherFrame => turn == GoesOn && last == lastPongAt && c == counters
            case Deliver(sent) =>
              && turn == (if sent then GoesOn else Leaves) && last == lastPongAt
              && c == counters.(delivered := counters.delivered + 1)
            case PingTick(sent) =>
              && last == lastPongAt
              && if e.time > lastPongAt + pongTimeout
                 then turn == CutsOff && c == counters.(timeouts := counters.timeouts + 1)
                 else if !sent then turn == Leaves && c == counters
                 else turn == GoesOn && c == counters.(ticks := counters.ticks + 1)
            case Ping(false) => turn == Leaves && last == lastPongAt && c == counters
            case Close => turn == Leaves && last == lastPongAt && c == counters
            case StreamEnd => turn == Leaves && last == lastPongAt && c == counters
            case ReadError => turn == Leaves && last == lastPongAt && c == counters
            case EventsClosed => turn == Leaves && last == lastPongAt && c == counters
  {
    turn, last, c := GoesOn, lastPongAt, counters;
    match e.event {
      case Pong =>
        last := e.time;
        c := c.(signs := c.signs + 1);
      case Ping(answered) =>
        if !answered {
          return Leaves, last, c;
        }
        last := e.time;
        c := c.(signs := c.signs + 1);
      case Close | StreamEnd | ReadError | EventsClosed => turn := Leaves;
      case Deliver(sent) =>
        c := c.(delivered := c.delivered + 1);
        if !sent {
          turn := Leaves;
        }
      case PingTick(sent) =>
        if e.time - last > pongTimeout {
          return CutsOff, last, c.(timeouts := c.timeouts + 1);
        }
        if !sent {
          return Leaves, last, c;
        }
        c := c.(ticks := c.ticks + 1);
      case _ =>
    }
  }

  /** The loop of handle_ws; it stops as the verdict on its trace says, and its counters tell the pings it has
      sent, the signs of life it has seen, the deliveries and the timeout. */
  method WsLoop(start: nat, events: seq<Timed<WsEvent>>, pongTimeout: nat) returns (v: Verdict, c: Counters)
    requires Ordered(start, WsTrace(events))
    ensures IsOutcome(start, WsTrace(events), pongTimeout, v, c)
  {
    ghost var trace := WsTrace(events);
    var lastPongAt: nat := start;
    c := Counters(0, 0, 0, 0);
    for k := 0 to |events|
      invariant LoopState(start, trace, pongTimeout, k, lastPongAt, c)
    {
      assert trace[k] == WsMoment(events[k]);
      LastSignIsPast(start, trace, pongTimeout, k, lastPongAt, c);
      TurnLeads(start, trace, pongTimeout, k, lastPongAt, c);
      var turn;
      turn, lastPongAt, c := WsTurn(events[k], lastPongAt, c, pongTimeout);
      if turn.CutsOff? {
        return TimedOut(k), c;
      }
      if turn.Leaves? {
        return Ended(k), c;
      }
    }
    v := StillRunning;
  }

  // ----- the gRPC loop -----

  datatype GrpcEvent<Q> =
    | Request(request: Q)
    | InboundClosed
    | InboundError
    | Forward(sent: bool)
    | NoMoreEvents
    | KeepaliveTick

  function GrpcMoment<Q>(e: Timed<GrpcEvent<Q>>): Moment {
    Moment(e.time,
           e.event.Request?,
           e.event.KeepaliveTick?,
           e.event.InboundClosed? || e.event.InboundError? || (e.event.Forward? && !e.event.sent) || e.event.NoMoreEvents?,
           e.event.Forward?)
  }

  function GrpcTrace<Q>(events: seq<Timed<GrpcEvent<Q>>>): (r: seq<Moment>)
    ensures |r| == |events| && forall k :: 0 <= k < |events| ==> r[k] == GrpcMoment(events[k])
  {
    seq(|events|, k requires 0 <= k < |events| => GrpcMoment(events[k]))
  }

  /** The branch taken for one event, apart from what a request asks for: the turn, the time of the last request
      and the deliveries after it. */
  method GrpcTurn<Q>(e: Timed<GrpcEvent<Q>>, lastInboundAt: nat, delivered: nat, idleTimeout: nat)
    returns (turn: Turn, last: nat, deliveredNow: nat)
    ensures turn == TurnOf(GrpcMoment(e), lastInboundAt, idleTimeout)
    ensures last == if e.event.Request? then e.time else lastInboundAt
    ensures deliveredNow == delivered + (if e.event.Forward? then 1 else 0)
    ensures match e.event
            case Request(_) => turn == GoesOn
            case Forward(sent) => turn == if sent then GoesOn else Leaves
            case KeepaliveTick => turn == if e.time > lastInboundAt + idleTimeout then CutsOff else GoesOn
            case InboundClosed => turn == Leaves
            case InboundError => turn == Leaves
            case NoMoreEvents => turn == Leaves
  {
    turn, last, deliveredNow := GoesOn, lastInboundAt, delivered;
    match e.event {
      case Request(_) => last := e.time;
      case InboundClosed | InboundError | NoMoreEvents => turn := Leaves;
      case Forward(sent) =>
        deliveredNow := deliveredNow + 1;
        if !sent {
          turn := Leaves;
        }
      case KeepaliveTick =>
        if e.time - last > idleTimeout {
          turn := CutsOff;
        }
    }
  }

  // ----- who is cut -----

  /** The tick before moment k is moment j. */
  ghost predicate Previous(trace: seq<Moment>, j: int, k: int)
    requires k <= |trace|
  {
    0 <= j < k && trace[j].tick && forall i :: j < i < k ==> !trace[i].tick
  }

  /** The first tick comes within `gap` of the start, and every other within `gap` of the one before it. */
  ghost predicate TicksWithin(start: nat, trace: seq<Moment>, gap: nat) {
    forall k :: 0 <= k < |trace| && trace[k].tick ==>
      || trace[k].time <= start + gap
      || exists j :: Previous(trace, j, k) && trace[k].time <= trace[j].time + gap
  }

  /** Between any two consecutive ticks there is a sign of life. */
  ghost predicate Answers(trace: seq<Moment>) {
    forall j, k :: 0 <= j < k < |trace| && trace[k].tick && Previous(trace, j, k) ==>
      exists i :: j < i < k && trace[i].alive
  }

  /** If the timeout is at least the largest gap between ticks, a client whose answer to every ping comes in
      before the next tick is never cut. */
  lemma ResponsiveIsNeverCut(start: nat, trace: seq<Moment>, timeout: nat, gap: nat, v: Verdict)
    requires Ordered(start, trace) && TicksWithin(start, trace, gap) && Answers(trace) && gap <= timeout
    requires IsVerdict(start, trace, timeout, v)
    ensures !v.TimedOut?
  {
    forall k | 0 <= k < |trace|
      ensures !Expired(start, trace, timeout, k)
    {
      ResponsiveIsNotExpired(start, trace, timeout, gap, k);
    }
  }

  lemma ResponsiveIsNotExpired(start: nat, trace: seq<Moment>, timeout: nat, gap: nat, k: nat)
    requires Ordered(start, trace) && TicksWithin(start, trace, gap) && Answers(trace) && gap <= timeout && k < |trace|
    ensures !Expired(start, trace, timeout, k)
  {
    if trace[k].tick && trace[k].time > start + gap {
      var j :| Previous(trace, j, k) && trace[k].time <= trace[j].time + gap;
      var i :| j < i < k && trace[i].alive;
      assert trace[j].time <= trace[i].time;
    }
  }

  /** Up to the horizon, every stretch of length `gap` after the start contains a tick. */
  ghost predicate TicksUntil(start: nat, trace: seq<Moment>, gap: nat, horizon: nat) {
    forall x :: start <= x && x + gap <= horizon ==> TickAfter(trace, x, gap)
  }

  ghost predicate TickAfter(trace: seq<Moment>, x: nat, gap: nat) {
    exists k :: 0 <= k < |trace| && trace[k].tick && x < trace[k].time <= x + gap
  }

  /** A client silent since p has been cut, or has ended, by p + timeout + gap. */
  lemma SilentIsCut(start: nat, trace: seq<Moment>, timeout: nat, gap: nat, horizon: nat, p: nat, v: Verdict)
    requires Ordered(start, trace) && TicksUntil(start, trace, gap, horizon)
    requires start <= p && p + timeout + gap <= horizon
    requires forall j :: 0 <= j < |trace| && trace[j].alive ==> trace[j].time <= p
    requires IsVerdict(start, trace, timeout, v)
    ensures !v.StillRunning? && trace[v.at].time <= p + timeout + gap
  {
    assert TickAfter(trace, p + timeout, gap);
    var k :| 0 <= k < |trace| && trace[k].tick && p + timeout < trace[k].time <= p + timeout + gap;
    assert Expired(start, trace, timeout, k);
    assert Breaks(start, trace, timeout, k);
  }

  ghost predicate FirstTwo(trace: seq<Moment>, first: nat, second: nat)
    requires first < second < |trace|
  {
    Previous(trace, first, second) && forall k :: 0 <= k < first ==> !trace[k].tick
  }

  /** If ticks are more than the timeout apart, then a client whose every sign of life comes less than the
      difference after the ping before it is cut at the second tick, however many pings it answers. */
  lemma PromptClientIsCut(start: nat, trace: seq<Moment>, timeout: nat, interval: nat, first: nat, second: nat, v: Verdict)
    requires Ordered(start, trace) && timeout < interval
    requires first < second < |trace| && trace[first].tick && trace[second].tick
    requires trace[first].time + interval <= trace[second].time
    requires forall j :: 0 <= j < second && trace[j].alive ==> trace[j].time + timeout < trace[first].time + interval
    requires forall k :: 0 <= k < second ==> !trace[k].ends
    requires IsVerdict(start, trace, timeout, v)
    ensures v.TimedOut? && v.at <= second
    ensures FirstTwo(trace, first, second) && trace[first].time <= start + timeout ==> v == TimedOut(second)
  {
    assert Expired(start, trace, timeout, second);
    assert Breaks(start, trace, timeout, second);
    if FirstTwo(trace, first, second) && trace[first].time <= start + timeout {
      forall k | 0 <= k < second
        ensures !Breaks(start, trace, timeout, k)
      {
      }
    }
  }

  const SHIPPED_PING_INTERVAL: nat := 30

  const SHIPPED_PONG_TIMEOUT: nat := 10

  /** With the shipped settings every client is cut at the second ping unless it happens to send a pong or a
      ping during the ten seconds before it: the first ping's answer does not count if it comes within twenty
      seconds. */
  lemma ShippedSettingsCutPromptClients(start: nat, trace: seq<Moment>, first: nat, second: nat, v: Verdict)
    requires Ordered(start, trace) && first < second < |trace| && trace[first].tick && trace[second].tick
    requires FirstTwo(trace, first, second)
    requires trace[first].time <= start + SHIPPED_PONG_TIMEOUT
    requires trace[first].time + SHIPPED_PING_INTERVAL <= trace[second].time
    requires forall k :: 0 <= k < second ==> !trace[k].ends
    requires IsVerdict(start, trace, SHIPPED_PONG_TIMEOUT, v)
    ensures v == TimedOut(second) <==>
            (forall j :: 0 <= j < second && trace[j].alive ==> trace[j].time + SHIPPED_PONG_TIMEOUT < trace[second].time)
    ensures (forall j :: 0 <= j < second && trace[j].alive ==> trace[j].time < trace[first].time + 20) ==> v == TimedOut(second)
  {
    if forall j :: 0 <= j < second && trace[j].alive ==> trace[j].time + SHIPPED_PONG_TIMEOUT < trace[second].time {
      assert Expired(start, trace, SHIPPED_PONG_TIMEOUT, second);
      forall k | 0 <= k < second
        ensures !Breaks(start, trace, SHIPPED_PONG_TIMEOUT, k)
      {
      }
      VerdictIsUnique(start, trace, SHIPPED_PONG_TIMEOUT, v, TimedOut(second));
    }
  }

  // ----- the same, of the events themselves -----

  ghost predicate InOrder<E>(start: nat, events: seq<Timed<E>>) {
    && (forall k :: 0 <= k < |events| ==> start <= events[k].time)
    && (forall j, k :: 0 <= j < k < |events| ==> events[j].time <= events[k].time)
  }

  lemma SignSaves(start: nat, trace: seq<Moment>, timeout: nat, i: nat, k: nat)
    requires i < k < |trace| && trace[i].alive && trace[k].time <= trace[i].time + timeout
    ensures !Expired(start, trace, timeout, k)
  {
  }

  lemma WsSignSaves(start: nat, events: seq<Timed<WsEvent>>, timeout: nat, j: nat, k: nat)
    requires j < k < |events| && InOrder(start, events) && events[k].time <= events[j].time + timeout
    requires exists i :: j < i < k && (events[i].event == Pong || events[i].event == Ping(true))
    ensures !Expired(start, WsTrace(events), timeout, k)
  {
    var i :| j < i < k && (events[i].event == Pong || events[i].event == Ping(true));
    SignSaves(start, WsTrace(events), timeout, i, k);
  }

  /** A WebSocket client of which a pong, or a ping that is answered, arrives between any two pings it is sent is
      never cut for silence, if no ping comes more than the timeout after the start and all pings before it. */
  lemma RespondingWsIsNeverCut(start: nat, events: seq<Timed<WsEvent>>, timeout: nat, v: Verdict)
    requires InOrder(start, events) && IsVerdict(start, WsTrace(events), timeout, v)
    requires forall j, k :: 0 <= j < k < |events| && events[j].event.PingTick? && events[k].event.PingTick? ==>
               exists i :: j < i < k && (events[i].event == Pong || events[i].event == Ping(true))
    requires forall k :: 0 <= k < |events| && events[k].event.PingTick? ==>
               || events[k].time <= start + timeout
               || exists j :: 0 <= j < k && events[j].event.PingTick? && events[k].time <= events[j].time + timeout
    ensures !v.TimedOut?
  {
    var trace := WsTrace(events);
    forall k | 0 <= k < |events| && events[k].event.PingTick? && start + timeout < events[k].time
      ensures !Expired(start, trace, timeout, k)
    {
      var j :| 0 <= j < k && events[j].event.PingTick? && events[k].time <= events[j].time + timeout;
      WsSignSaves(start, events, timeout, j, k);
    }
  }

  /** Pongs and answered pings are the only signs of life: a ping sent more than the timeout after p, when there
      has been none since, ends the session if nothing else has; and it is cut if no such ping and no end of
      another kind came before. */
  lemma SilentWsIsCut(start: nat, events: seq<Timed<WsEvent>>, timeout: nat, p: nat, k: nat, v: Verdict)
    requires InOrder(start, events) && IsVerdict(start, WsTrace(events), timeout, v)
    requires k < |events| && events[k].event.PingTick? && start <= p && p + timeout < events[k].time
    requires forall j :: 0 <= j < k && (events[j].event == Pong || events[j].event == Ping(true)) ==> events[j].time <= p
    ensures !v.StillRunning? && v.at <= k
    ensures (forall j :: 0 <= j < k ==>
               match events[j].event
               case Text | Pong | OtherFrame => true
               case PingTick(sent) => sent && events[j].time <= start + timeout
               case Ping(answered) => answered
               case Deliver(sent) => sent
               case Close | StreamEnd | ReadError | EventsClosed => false) ==>
              v == TimedOut(k)
  {
    var trace := WsTrace(events);
    assert Expired(start, trace, timeout, k);
    assert Breaks(start, trace, timeout, k);
    VerdictComes(start, events, timeout, k, v);
  }

  lemma VerdictComes(start: nat, events: seq<Timed<WsEvent>>, timeout: nat, k: nat, v: Verdict)
    requires k < |events| && Expired(start, WsTrace(events), timeout, k)
    requires IsVerdict(start, WsTrace(events), timeout, v)
    ensures (forall j :: 0 <= j < k ==>
               && !WsEnds(events[j].event)
               && (events[j].event.PingTick? ==> events[j].time <= start + timeout)) ==>
              v == TimedOut(k)
  {
    if forall j :: 0 <= j < k ==> !WsEnds(events[j].event) && (events[j].event.PingTick? ==> events[j].time <= start + timeout) {
      assert Unbroken(start, WsTrace(events), timeout, k);
      VerdictIsUnique(start, WsTrace(events), timeout, v, TimedOut(k));
    }
  }

  /** With the shipped interval of thirty seconds between pings and timeout of ten, a WebSocket session that is
      not ended otherwise is cut at its second ping exactly when it shows no sign of life in the ten seconds
      before it; so answering the first ping within nineteen seconds does not keep it. */
  lemma ShippedSettingsCutPromptWs(start: nat, events: seq<Timed<WsEvent>>, first: nat, second: nat, v: Verdict)
    requires InOrder(start, events) && IsVerdict(start, WsTrace(events), 10, v)
    requires first < second < |events| && events[first].event.PingTick? && events[second].event.PingTick?
    requires forall k :: 0 <= k < second && k != first ==> !events[k].event.PingTick?
    requires events[first].time <= start + 10 && events[first].time + 30 <= events[second].time
    requires forall k :: 0 <= k < second ==>
               match events[k].event
               case Text | Pong | OtherFrame => true
               case PingTick(sent) => sent
               case Ping(answered) => answered
               case Deliver(sent) => sent
               case Close | StreamEnd | ReadError | EventsClosed => false
    ensures v == TimedOut(second) <==>
              forall j :: 0 <= j < second && (events[j].event == Pong || events[j].event == Ping(true)) ==>
                events[j].time + 10 < events[second].time
    ensures (forall j :: 0 <= j < second && (events[j].event == Pong || events[j].event == Ping(true)) ==>
               events[j].time <= events[first].time + 19) ==> v == TimedOut(second)
  {
    var trace := WsTrace(events);
    assert FirstTwo(trace, first, second);
    ShippedSettingsCutPromptClients(start, trace, first, second, v);
  }

  lemma GrpcSignSaves<Q>(start: nat, events: seq<Timed<GrpcEvent<Q>>>, timeout: nat, j: nat, k: nat)
    requires j < k < |events| && InOrder(start, events) && events[k].time <= events[j].time + timeout
    requires exists i :: j < i < k && events[i].event.Request?
    ensures !Expired(start, GrpcTrace(events), timeout, k)
  {
    var i :| j < i < k && events[i].event.Request?;
    SignSaves(start, GrpcTrace(events), timeout, i, k);
  }

  /** A gRPC session in which a request arrives between any two ticks is never cut, under the same condition. */
  lemma RespondingGrpcIsNeverCut<Q>(start: nat, events: seq<Timed<GrpcEvent<Q>>>, timeout: nat, v: Verdict)
    requires InOrder(start, events) && IsVerdict(start, GrpcTrace(events), timeout, v)
    requires forall j, k :: 0 <= j < k < |events| && events[j].event.KeepaliveTick? && events[k].event.KeepaliveTick? ==>
               exists i :: j < i < k && events[i].event.Request?
    requires forall k :: 0 <= k < |events| && events[k].event.KeepaliveTick? ==>
               || events[k].time <= start + timeout
               || exists j :: 0 <= j < k && events[j].event.KeepaliveTick? && events[k].time <= events[j].time + timeout
    ensures !v.TimedOut?
  {
    var trace := GrpcTrace(events);
    forall k | 0 <= k < |events| && events[k].event.KeepaliveTick? && start + timeout < events[k].time
      ensures !Expired(start, trace, timeout, k)
    {
      var j :| 0 <= j < k && events[j].event.KeepaliveTick? && events[k].time <= events[j].time + timeout;
      GrpcSignSaves(start, events, timeout, j, k);
    }
  }

  /** Only requests are signs of life; deliveries to the client are none. */
  lemma SilentGrpcIsCut<Q>(start: nat, events: seq<Timed<GrpcEvent<Q>>>, timeout: nat, p: nat, k: nat, v: Verdict)
    requires InOrder(start, events) && IsVerdict(start, GrpcTrace(events), timeout, v)
    requires k < |events| && events[k].event.KeepaliveTick? && start <= p && p + timeout < events[k].time
    requires forall j :: 0 <= j < k && events[j].event.Request? ==> events[j].time <= p
    ensures !v.StillRunning? && v.at <= k
    ensures (forall j :: 0 <= j < k ==>
               match events[j].event
               case Request(_) => true
               case Forward(sent) => sent
               case KeepaliveTick => events[j].time <= start + timeout
               case InboundClosed | InboundError | NoMoreEvents => false) ==>
              v == TimedOut(k)
  {
    var trace := GrpcTrace(events);
    assert Expired(start, trace, timeout, k);
    assert Breaks(start, trace, timeout, k);
    if forall j :: 0 <= j < k ==> !trace[j].ends && (trace[j].tick ==> trace[j].time <= start + timeout) {
      assert Unbroken(start, trace, timeout, k);
      VerdictIsUnique(start, trace, timeout, v, TimedOut(k));
    }
  }

  // ----- what the counters tell -----

  lemma {:induction false} TallyCounts(trace: seq<Moment>, n: nat)
    requires n <= |trace|
    ensures Tally(trace, n).ticks == |set k | 0 <= k < n && trace[k].tick|
    ensures Tally(trace, n).signs == |set k | 0 <= k < n && trace[k].alive|
    ensures Tally(trace, n).delivered == |set k | 0 <= k < n && trace[k].delivers|
    ensures Tally(trace, n).timeouts == 0
    decreases n
  {
    if n > 0 {
      TallyCounts(trace, n - 1);
      OneMore((set k | 0 <= k < n - 1 && trace[k].tick), (set k | 0 <= k < n && trace[k].tick), n - 1, trace[n - 1].tick);
      OneMore((set k | 0 <= k < n - 1 && trace[k].alive), (set k | 0 <= k < n && trace[k].alive), n - 1, trace[n - 1].alive);
      OneMore((set k | 0 <= k < n - 1 && trace[k].delivers), (set k | 0 <= k < n && trace[k].delivers), n - 1, trace[n - 1].delivers);
    }
  }

  lemma OneMore<T>(before: set<T>, after: set<T>, x: T, added: bool)
    requires x !in before && forall y: T :: y in after <==> y in before || (added && y == x)
    ensures |after| == |before| + if added then 1 else 0
  {
    if added {
      assert after == before + {x};
    } else {
      assert after == before;
    }
  }

  /** After n turns that went on, the counters of the WebSocket loop are the numbers of pings sent, of pongs and
      answered pings, and of deliveries. */
  lemma {:induction false} WsTallyCounts(events: seq<Timed<WsEvent>>, n: nat)
    requires n <= |events|
    ensures var c := Tally(WsTrace(events), n);
            && c.ticks == |set k | 0 <= k < n && events[k].event.PingTick?|
            && c.signs == |set k | 0 <= k < n && (events[k].event == Pong || events[k].event == Ping(true))|
            && c.delivered == |set k | 0 <= k < n && events[k].event.Deliver?|
            && c.timeouts == 0
  {
    var trace := WsTrace(events);
    TallyCounts(trace, n);
    assert (set k | 0 <= k < n && trace[k].tick) == set k | 0 <= k < n && events[k].event.PingTick?;
    assert (set k | 0 <= k < n && trace[k].alive)
        == set k | 0 <= k < n && (events[k].event == Pong || events[k].event == Ping(true));
    assert (set k | 0 <= k < n && trace[k].delivers) == set k | 0 <= k < n && events[k].event.Deliver?;
  }

  /** Those of the gRPC loop tell the deliveries. */
  lemma {:induction false} GrpcTallyCounts<Q>(events: seq<Timed<GrpcEvent<Q>>>, n: nat)
    requires n <= |events|
    ensures Tally(GrpcTrace(events), n).delivered == |set k | 0 <= k < n && events[k].event.Forward?|
  {
    TallyCounts(GrpcTrace(events), n);
    assert (set k | 0 <= k < n && GrpcTrace(events)[k].delivers) == set k | 0 <= k < n && events[k].event.Forward?;
  }

  /** A session that is still running or was cut has counted what came before; one that has left has also counted
      the delivery it failed at, and only a cut is counted as a timeout. */
  lemma FinalCounts(trace: seq<Moment>, v: Verdict)
    requires !v.StillRunning? ==> v.at < |trace|
    ensures var n := if v.StillRunning? then |trace| else v.at;
            && Final(trace, v).ticks == Tally(trace, n).ticks && Final(trace, v).signs == Tally(trace, n).signs
            && Final(trace, v).delivered == Tally(trace, n).delivered + (if v.Ended? && trace[n].delivers then 1 else 0)
            && Final(trace, v).timeouts == if v.TimedOut? then 1 else 0
  {
    TallyCounts(trace, if v.StillRunning? then |trace| else v.at);
  }
}
