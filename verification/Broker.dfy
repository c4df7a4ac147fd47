/** The pub/sub broker as a step machine: the subscription table, the listener tasks with their control
    channels and Redis connections, and the shared count of topic listeners. Channel names may be of any
    type. The two halves of a call that an await separates are two steps. */
module Broker {
  import opened Common

  type SubId = nat

  /** Pending: a Shutdown message waits to be received. Closed: every sender is gone. */
  datatype Control = Open | Pending | Closed

  /** Connecting: the call that makes the listener awaits its connection. Registered: its control is in the
      table, the count not yet raised. Counted: the count is raised, the task not yet spawned. Running: in the
      select loop. Stopped: out of the loop, the count not yet lowered. Failed: the call gave up. */
  datatype Phase = Connecting | Registered | Counted | Running | Stopped | Finished | Failed

  /** A message with its position in the log of everything published. */
  datatype Message<C> = Message(index: nat, channel: C, payload: seq<bv8>)

  /** A listener subscribes to the channels it wants one after the other; `since[k]` is the length of the
      published log when it joined the k-th of them. */
  datatype Listener<C> = Listener(
    sub: SubId,
    isTopic: bool,
    wanted: seq<C>,
    since: seq<nat>,
    control: Control,
    phase: Phase,
    inbox: seq<Message<C>>,
    forwarded: seq<Message<C>>)

  /** An entry of the table: the control of the main listener and those of the topic listeners. */
  datatype Entry<!C> = Entry(main: nat, topics: map<C, nat>)

  datatype State<!C> = State(
    subs: map<SubId, Entry<C>>,
    nextSub: SubId,
    listeners: seq<Listener<C>>,
    receivers: set<SubId>,
    count: int,
    published: seq<(C, seq<bv8>)>)

  datatype Action<C> =
    | Subscribe(channels: seq<C>)
    | Join(l: nat)
    | Fail(l: nat)
    | AddBegin(sub: SubId, channel: C)
    | Register(l: nat)
    | Count(l: nat)
    | Start(l: nat)
    | Remove(sub: SubId, channel: C)
    | Unsubscribe(sub: SubId)
    | Publish(channel: C, payload: seq<bv8>)
    | Forward(l: nat)
    | Stop(l: nat)
    | Disconnect(l: nat)
    | Leave(l: nat)
    | DropReceiver(sub: SubId)

  predicate Joined<C(==)>(listener: Listener<C>, channel: C) {
    exists k :: 0 <= k < |listener.since| && k < |listener.wanted| && listener.wanted[k] == channel
  }

  /** Its Redis connection is up. */
  predicate Connected<C>(listener: Listener<C>) {
    listener.phase.Connecting? || listener.phase.Registered? || listener.phase.Counted? || listener.phase.Running?
  }

  predicate Hears<C(==)>(listener: Listener<C>, channel: C) {
    Connected(listener) && Joined(listener, channel)
  }

  function Shut<C>(listener: Listener<C>): Listener<C> {
    listener.(control := if listener.control.Open? then Pending else listener.control)
  }

  function DropSender<C>(listener: Listener<C>): Listener<C> {
    listener.(control := if listener.control.Open? then Closed else listener.control)
  }

  /** Redis hands the message to every connection subscribed to its channel. */
  function Receive<C(==)>(listener: Listener<C>, m: Message<C>): Listener<C> {
    if Hears(listener, m.channel) then listener.(inbox := listener.inbox + [m]) else listener
  }

  function NewListener<C>(sub: SubId, isTopic: bool, wanted: seq<C>): Listener<C> {
    Listener(sub, isTopic, wanted, [], Open, Connecting, [], [])
  }

  /** The table's read guard is held from the check to the registration, so an unsubscribe of the same entry
      waits. */
  ghost predicate Guarded<C>(s: State<C>, sub: SubId) {
    exists l :: 0 <= l < |s.listeners| && s.listeners[l].isTopic && s.listeners[l].phase.Connecting? && s.listeners[l].sub == sub
  }

  ghost predicate Enabled<C>(s: State<C>, a: Action<C>) {
    match a
    case Subscribe(_) => true
    case Join(l) => l < |s.listeners| && s.listeners[l].phase.Connecting? && |s.listeners[l].since| < |s.listeners[l].wanted|
    case Fail(l) => l < |s.listeners| && s.listeners[l].phase.Connecting?
    case AddBegin(sub, channel) => sub in s.subs && channel !in s.subs[sub].topics
    case Register(l) =>
      && l < |s.listeners| && s.listeners[l].phase.Connecting? && s.listeners[l].isTopic
      && s.listeners[l].sub in s.subs
      && |s.listeners[l].since| == |s.listeners[l].wanted| == 1
    case Count(l) => l < |s.listeners| && s.listeners[l].isTopic && s.listeners[l].phase.Registered?
    case Start(l) =>
      && l < |s.listeners|
      && if s.listeners[l].isTopic then s.listeners[l].phase.Counted?
         else s.listeners[l].phase.Connecting? && |s.listeners[l].since| == |s.listeners[l].wanted|
    case Remove(sub, channel) => sub in s.subs && channel in s.subs[sub].topics && s.subs[sub].topics[channel] < |s.listeners|
    case Unsubscribe(sub) => !Guarded(s, sub)
    case Publish(_, _) => true
    case Forward(l) => l < |s.listeners| && s.listeners[l].phase.Running? && s.listeners[l].inbox != []
    case Stop(l) => l < |s.listeners| && s.listeners[l].phase.Running? && !s.listeners[l].control.Open?
    case Disconnect(l) => l < |s.listeners| && s.listeners[l].phase.Running?
    case Leave(l) => l < |s.listeners| && s.listeners[l].phase.Stopped?
    case DropReceiver(_) => true
  }

  function Set<C>(s: State<C>, l: nat, listener: Listener<C>): State<C>
    requires l < |s.listeners|
  {
    s.(listeners := s.listeners[l := listener])
  }

  /** Whether an entry holds a sender to the listener. */
  predicate Holds<C>(entry: Entry<C>, l: nat) {
    entry.main == l || l in entry.topics.Values
  }

  ghost function Apply<C>(s: State<C>, a: Action<C>): State<C>
    requires Enabled(s, a)
  {
    match a
    case Subscribe(channels) =>
      s.(subs := s.subs[s.nextSub := Entry(|s.listeners|, map[])],
         nextSub := s.nextSub + 1,
         listeners := s.listeners + [NewListener(s.nextSub, false, channels)],
         receivers := s.receivers + {s.nextSub})
    case Join(l) =>
      Set(s, l, s.listeners[l].(since := s.listeners[l].since + [|s.published|]))
    case Fail(l) =>
      // the entry a failed subscribe has made stays in the table
      var failed := Set(s, l, s.listeners[l].(phase := Failed));
      if s.listeners[l].isTopic then failed else failed.(receivers := s.receivers - {s.listeners[l].sub})
    case AddBegin(sub, channel) =>
      s.(listeners := s.listeners + [NewListener(sub, true, [channel])])
    case Register(l) =>
      var sub, channel := s.listeners[l].sub, s.listeners[l].wanted[0];
      var topics := s.subs[sub].topics;
      var replaced :=
        if channel in topics && topics[channel] < |s.listeners|
        then Set(s, topics[channel], DropSender(s.listeners[topics[channel]]))
        else s;
      Set(replaced, l, s.listeners[l].(phase := Registered)).(
        subs := s.subs[sub := s.subs[sub].(topics := topics[channel := l])])
    case Count(l) =>
      Set(s, l, s.listeners[l].(phase := Counted)).(count := s.count + 1)
    case Start(l) =>
      Set(s, l, s.listeners[l].(phase := Running))
    case Remove(sub, channel) =>
      var l := s.subs[sub].topics[channel];
      Set(s, l, Shut(s.listeners[l])).(
        subs := s.subs[sub := s.subs[sub].(topics := s.subs[sub].topics - {channel})])
    case Unsubscribe(sub) =>
      if sub !in s.subs then s
      else
        s.(subs := s.subs - {sub},
           listeners := seq(|s.listeners|, l requires 0 <= l < |s.listeners| =>
             if Holds(s.subs[sub], l) then Shut(s.listeners[l]) else s.listeners[l]))
    case Publish(channel, payload) =>
      var m := Message(|s.published|, channel, payload);
      s.(published := s.published + [(channel, payload)],
         listeners := seq(|s.listeners|, l requires 0 <= l < |s.listeners| => Receive(s.listeners[l], m)))
    case Forward(l) =>
      var listener := s.listeners[l];
      if listener.sub in s.receivers
      then Set(s, l, listener.(inbox := listener.inbox[1..], forwarded := listener.forwarded + [listener.inbox[0]]))
      else Set(s, l, listener.(phase := Stopped))
    case Stop(l) => Set(s, l, s.listeners[l].(phase := Stopped))
    case Disconnect(l) => Set(s, l, s.listeners[l].(phase := Stopped))
    case Leave(l) =>
      Set(s, l, s.listeners[l].(phase := Finished)).(count := if s.listeners[l].isTopic then s.count - 1 else s.count)
    case DropReceiver(sub) => s.(receivers := s.receivers - {sub})
  }

  ghost predicate IsRun<C>(s: State<C>, run: seq<Action<C>>)
    decreases |run|
  {
    run == [] || (Enabled(s, run[0]) && IsRun(Apply(s, run[0]), run[1..]))
  }

  ghost function After<C>(s: State<C>, run: seq<Action<C>>): State<C>
    requires IsRun(s, run)
    decreases |run|
  {
    if run == [] then s else After(Apply(s, run[0]), run[1..])
  }

  function Initial<C>(): State<C> {
    State(map[], 0, [], {}, 0, [])
  }

  /** The states a run goes through, written out. */
  ghost predicate Traces<C>(states: seq<State<C>>, run: seq<Action<C>>) {
    && |states| == |run| + 1
    && (forall i :: 0 <= i < |run| ==> Enabled(states[i], run[i]) && states[i + 1] == Apply(states[i], run[i]))
  }

  lemma {:induction false} TraceIsRun<C>(states: seq<State<C>>, run: seq<Action<C>>)
    requires Traces(states, run)
    ensures IsRun(states[0], run) && After(states[0], run) == states[|run|]
    decreases |run|
  {
    if run != [] {
      TraceIsRun(states[1..], run[1..]);
    }
  }

  /** Runs compose. */
  lemma {:induction false} RunsCompose<C>(s: State<C>, first: seq<Action<C>>, second: seq<Action<C>>)
    requires IsRun(s, first) && IsRun(After(s, first), second)
    ensures IsRun(s, first + second)
    ensures After(s, first + second) == After(After(s, first), second)
    decreases |first|
  {
    if first == [] {
      assert first + second == second;
    } else {
      RunsCompose(Apply(s, first[0]), first[1..], second);
      assert (first + second)[1..] == first[1..] + second;
    }
  }
}
