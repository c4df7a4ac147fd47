/** What the listeners deliver: each an initial part of what was published on its channels since it joined
    them, and together, unless two listeners of one subscription overlap, no message twice. */
module BrokerDelivery {
  import opened Broker

  // ----- one listener -----

  /** The n-th message published, on the given channel, was published after the listener had joined that
      channel. */
  predicate Due<C(==)>(listener: Listener<C>, n: nat, channel: C) {
    exists k :: 0 <= k < |listener.since| && k < |listener.wanted| && listener.wanted[k] == channel && listener.since[k] <= n
  }

  /** The messages published on the listener's channels since it joined them, in order of publication. */
  function Heard<C(==)>(listener: Listener<C>, published: seq<(C, seq<bv8>)>): seq<Message<C>> {
    if published == [] then []
    else
      var n := |published| - 1;
      var (channel, payload) := published[n];
      Heard(listener, published[..n]) + (if Due(listener, n, channel) then [Message(n, channel, payload)] else [])
  }

  lemma {:induction false} HeardIsOrdered<C>(listener: Listener<C>, published: seq<(C, seq<bv8>)>)
    ensures forall i :: 0 <= i < |Heard(listener, published)| ==> Heard(listener, published)[i].index < |published|
    ensures forall i, j :: 0 <= i < j < |Heard(listener, published)| ==>
              Heard(listener, published)[i].index < Heard(listener, published)[j].index
    decreases |published|
  {
    if published != [] {
      HeardIsOrdered(listener, published[..|published| - 1]);
    }
  }

  /** They are exactly the log's entries on a channel that the listener had joined by then. */
  lemma {:induction false} HeardIsWhatWasPublished<C>(listener: Listener<C>, published: seq<(C, seq<bv8>)>, m: Message<C>)
    ensures m in Heard(listener, published) <==>
            && m.index < |published| && published[m.index] == (m.channel, m.payload)
            && exists k :: 0 <= k < |listener.since| && k < |listener.wanted|
                           && listener.wanted[k] == m.channel && listener.since[k] <= m.index
    decreases |published|
  {
    if published != [] {
      HeardIsWhatWasPublished(listener, published[..|published| - 1], m);
    }
  }

  /** Only the joined channels matter. */
  lemma {:induction false} HeardDependsOnDue<C>(a: Listener<C>, b: Listener<C>, published: seq<(C, seq<bv8>)>)
    requires forall n: nat, c :: n < |published| ==> (Due(a, n, c) <==> Due(b, n, c))
    ensures Heard(a, published) == Heard(b, published)
    decreases |published|
  {
    if published != [] {
      HeardDependsOnDue(a, b, published[..|published| - 1]);
    }
  }

  function Received<C>(listener: Listener<C>): seq<Message<C>> {
    listener.forwarded + listener.inbox
  }

  ghost predicate Delivers<C>(s: State<C>, listener: Listener<C>) {
    && |listener.since| <= |listener.wanted|
    && (forall k :: 0 <= k < |listener.since| ==> listener.since[k] <= |s.published|)
    && Received(listener) <= Heard(listener, s.published)
    && (Connected(listener) ==> Received(listener) == Heard(listener, s.published))
  }

  ghost predicate AllDeliver<C>(s: State<C>) {
    forall l :: 0 <= l < |s.listeners| ==> Delivers(s, s.listeners[l])
  }

  lemma JoinDelivers<C>(s: State<C>, l: nat)
    requires Enabled(s, Join(l)) && Delivers(s, s.listeners[l])
    ensures Delivers(s, s.listeners[l].(since := s.listeners[l].since + [|s.published|]))
  {
    var before := s.listeners[l];
    var after := before.(since := before.since + [|s.published|]);
    forall n: nat, c | n < |s.published|
      ensures Due(before, n, c) <==> Due(after, n, c)
    {
      if k :| 0 <= k < |before.since| && k < |before.wanted| && before.wanted[k] == c && before.since[k] <= n {
        assert after.since[k] == before.since[k];
      }
    }
    HeardDependsOnDue(before, after, s.published);
  }

  lemma PublishDelivers<C>(s: State<C>, listener: Listener<C>, channel: C, payload: seq<bv8>)
    requires Delivers(s, listener)
    ensures Delivers(s.(published := s.published + [(channel, payload)]),
                     Receive(listener, Message(|s.published|, channel, payload)))
  {
    var n := |s.published|;
    var published := s.published + [(channel, payload)];
    var after := Receive(listener, Message(n, channel, payload));
    assert published[..n] == s.published;
    HeardDependsOnDue(listener, after, s.published);
    HeardDependsOnDue(listener, after, published);
    assert Due(listener, n, channel) <==> Joined(listener, channel) by {
      if Joined(listener, channel) {
        var k :| 0 <= k < |listener.since| && k < |listener.wanted| && listener.wanted[k] == channel;
        assert listener.since[k] <= n;
      }
    }
    assert Heard(after, published) == Heard(listener, s.published)
      + (if Due(listener, n, channel) then [Message(n, channel, payload)] else []);
  }

  /** A listener whose queues, channels and connection stay as they are, or which disconnects. */
  ghost predicate Rests<C>(before: Listener<C>, after: Listener<C>) {
    && after.wanted == before.wanted && after.since == before.since
    && Received(after) == Received(before)
    && (Connected(after) ==> Connected(before))
  }

  lemma RestingDelivers<C>(s: State<C>, before: Listener<C>, after: Listener<C>)
    requires Delivers(s, before) && Rests(before, after)
    ensures Delivers(s, after)
  {
    HeardDependsOnDue(before, after, s.published);
  }

  /** Steps other than joining and publishing let every listener rest. */
  lemma OthersRest<C>(s: State<C>, a: Action<C>, l: nat)
    requires Enabled(s, a) && !a.Publish? && a != Join(l) && l < |s.listeners|
    ensures l < |Apply(s, a).listeners| && Rests(s.listeners[l], Apply(s, a).listeners[l])
    ensures Apply(s, a).listeners[l].sub == s.listeners[l].sub
  {
  }

  lemma SubsStay<C>(s: State<C>, a: Action<C>)
    requires Enabled(s, a)
    ensures |s.listeners| <= |Apply(s, a).listeners| <= |s.listeners| + 1
    ensures forall l :: 0 <= l < |s.listeners| ==> Apply(s, a).listeners[l].sub == s.listeners[l].sub
    ensures |s.listeners| < |Apply(s, a).listeners| ==>
              var added := Apply(s, a).listeners[|s.listeners|];
              added.since == [] && added.inbox == [] && added.forwarded == []
  {
  }

  lemma ListenerStillDelivers<C>(s: State<C>, a: Action<C>, l: nat)
    requires Enabled(s, a) && AllDeliver(s) && l < |s.listeners|
    ensures l < |Apply(s, a).listeners| && Delivers(Apply(s, a), Apply(s, a).listeners[l])
  {
    if a == Join(l) {
      JoinDelivers(s, l);
    } else if a.Publish? {
      PublishDelivers(s, s.listeners[l], a.channel, a.payload);
    } else {
      OthersRest(s, a, l);
      RestingDelivers(s, s.listeners[l], Apply(s, a).listeners[l]);
      LogStays(s, a);
    }
  }

  lemma LogStays<C>(s: State<C>, a: Action<C>)
    requires Enabled(s, a) && !a.Publish?
    ensures Apply(s, a).published == s.published
  {
  }

  lemma StepDelivers<C>(s: State<C>, a: Action<C>)
    requires Enabled(s, a) && AllDeliver(s)
    ensures AllDeliver(Apply(s, a))
  {
    var after := Apply(s, a);
    SubsStay(s, a);
    forall l | 0 <= l < |after.listeners|
      ensures Delivers(after, after.listeners[l])
    {
      if l >= |s.listeners| {
        HeardFromNothing(after.listeners[l], after.published);
      } else {
        ListenerStillDelivers(s, a, l);
      }
    }
  }

  lemma {:induction false} HeardFromNothing<C>(listener: Listener<C>, published: seq<(C, seq<bv8>)>)
    requires listener.since == []
    ensures Heard(listener, published) == []
    decreases |published|
  {
    if published != [] {
      HeardFromNothing(listener, published[..|published| - 1]);
    }
  }

  lemma {:induction false} RunDelivers<C>(s: State<C>, run: seq<Action<C>>)
    requires IsRun(s, run) && AllDeliver(s)
    ensures AllDeliver(After(s, run))
    decreases |run|
  {
    if run != [] {
      StepDelivers(s, run[0]);
      RunDelivers(Apply(s, run[0]), run[1..]);
    }
  }

  /** In every run, what a listener has forwarded to its subscription is an initial part of the messages
      published on its channels since it joined them: in order, without gaps, none twice. */
  lemma ForwardedIsPrefix<C>(run: seq<Action<C>>, l: nat)
    requires IsRun(Initial<C>(), run) && l < |After(Initial<C>(), run).listeners|
    ensures var s := After(Initial<C>(), run);
            var listener := s.listeners[l];
            && listener.forwarded <= Heard(listener, s.published)
            && (Connected(listener) ==> listener.forwarded + listener.inbox == Heard(listener, s.published))
            && (forall i, j :: 0 <= i < j < |listener.forwarded| ==>
                  listener.forwarded[i].index < listener.forwarded[j].index)
  {
    RunDelivers(Initial<C>(), run);
    var s := After(Initial<C>(), run);
    var listener := s.listeners[l];
    assert Delivers(s, listener);
    HeardIsOrdered(listener, s.published);
    assert forall i :: 0 <= i < |listener.forwarded| ==> listener.forwarded[i] == Received(listener)[i];
  }

  // ----- the listeners of one subscription -----

  /** No listener of a subscription joins a channel that another one of it still hears. */
  ghost predicate Apart<C>(s: State<C>, a: Action<C>)
    requires Enabled(s, a)
  {
    a.Join? ==>
      forall k :: 0 <= k < |s.listeners| && k != a.l && s.listeners[k].sub == s.listeners[a.l].sub ==>
        !Hears(s.listeners[k], s.listeners[a.l].wanted[|s.listeners[a.l].since|])
  }

  ghost predicate ApartRun<C>(s: State<C>, run: seq<Action<C>>)
    requires IsRun(s, run)
    decreases |run|
  {
    run == [] || (Apart(s, run[0]) && ApartRun(Apply(s, run[0]), run[1..]))
  }

  ghost predicate Share<C>(a: Listener<C>, b: Listener<C>) {
    exists i, j :: 0 <= i < |Received(a)| && 0 <= j < |Received(b)| && Received(a)[i].index == Received(b)[j].index
  }

  /** Two listeners of one subscription hear different channels and have received different messages. */
  ghost predicate Separate<C(!new)>(a: Listener<C>, b: Listener<C>) {
    && (forall c :: !(Hears(a, c) && Hears(b, c)))
    && !Share(a, b)
  }

  ghost predicate AllSeparate<C(!new)>(s: State<C>) {
    forall k, l :: 0 <= k < l < |s.listeners| && s.listeners[k].sub == s.listeners[l].sub ==>
      Separate(s.listeners[k], s.listeners[l])
  }

  lemma JoinedAfterJoin<C>(listener: Listener<C>, n: nat, c: C)
    requires |listener.since| < |listener.wanted|
    ensures Joined(listener.(since := listener.since + [n]), c) <==>
            Joined(listener, c) || c == listener.wanted[|listener.since|]
  {
    var after := listener.(since := listener.since + [n]);
    if c == listener.wanted[|listener.since|] {
      assert after.wanted[|listener.since|] == c;
    }
    if k :| 0 <= k < |listener.since| && k < |listener.wanted| && listener.wanted[k] == c {
      assert after.wanted[k] == c;
    }
  }

  lemma ReceiveSeparates<C(!new)>(s: State<C>, a: Listener<C>, b: Listener<C>, m: Message<C>)
    requires Separate(a, b) && Delivers(s, a) && Delivers(s, b) && m.index == |s.published|
    ensures Separate(Receive(a, m), Receive(b, m))
  {
    forall c ensures !(Hears(Receive(a, m), c) && Hears(Receive(b, m), c)) {
      assert Hears(Receive(a, m), c) <==> Hears(a, c);
      assert Hears(Receive(b, m), c) <==> Hears(b, c);
    }
    forall i, j | 0 <= i < |Received(Receive(a, m))| && 0 <= j < |Received(Receive(b, m))|
      ensures Received(Receive(a, m))[i].index != Received(Receive(b, m))[j].index
    {
      ReceivedIsNew(s, a, m, i);
      ReceivedIsNew(s, b, m, j);
    }
  }

  /** Whatever is in the listener's hands was there before, or is the message just published. */
  lemma ReceivedIsNew<C>(s: State<C>, a: Listener<C>, m: Message<C>, i: nat)
    requires Delivers(s, a) && m.index == |s.published| && i < |Received(Receive(a, m))|
    ensures if i < |Received(a)| then Received(Receive(a, m))[i] == Received(a)[i] && Received(a)[i].index < m.index
            else Received(Receive(a, m))[i] == m && Hears(a, m.channel)
  {
    HeardIsOrdered(a, s.published);
    if i < |Received(a)| {
      assert Received(a)[i] == Heard(a, s.published)[i];
    }
  }

  lemma JoinSeparates<C(!new)>(a: Listener<C>, b: Listener<C>, n: nat)
    requires Separate(a, b) && |a.since| < |a.wanted| && !Hears(b, a.wanted[|a.since|])
    ensures Separate(a.(since := a.since + [n]), b) && Separate(b, a.(since := a.since + [n]))
  {
    var after := a.(since := a.since + [n]);
    forall c ensures !(Hears(after, c) && Hears(b, c)) {
      JoinedAfterJoin(a, n, c);
    }
    assert Received(after) == Received(a);
  }

  lemma SeparateIsSymmetric<C(!new)>(a: Listener<C>, b: Listener<C>)
    requires Separate(a, b)
    ensures Separate(b, a)
  {
  }

  lemma RestingSeparates<C(!new)>(a: Listener<C>, b: Listener<C>, a': Listener<C>, b': Listener<C>)
    requires Separate(a, b) && Rests(a, a') && Rests(b, b')
    ensures Separate(a', b')
  {
    forall c ensures !(Hears(a', c) && Hears(b', c)) {
      assert Joined(a', c) <==> Joined(a, c);
      assert Joined(b', c) <==> Joined(b, c);
      assert !(Hears(a, c) && Hears(b, c));
    }
  }

  lemma NewcomerIsSeparate<C(!new)>(a: Listener<C>, b: Listener<C>)
    requires b.since == [] && b.inbox == [] && b.forwarded == []
    ensures Separate(a, b)
  {
    assert forall c :: !Joined(b, c);
  }

  lemma PairStaysSeparate<C(!new)>(s: State<C>, a: Action<C>, k: nat, l: nat)
    requires Enabled(s, a) && Apart(s, a) && AllDeliver(s)
    requires k < |s.listeners| && l < |s.listeners| && s.listeners[k].sub == s.listeners[l].sub && k != l
    requires Separate(s.listeners[k], s.listeners[l])
    ensures k < |Apply(s, a).listeners| && l < |Apply(s, a).listeners|
    ensures Separate(Apply(s, a).listeners[k], Apply(s, a).listeners[l])
  {
    if a == Join(k) {
      JoinSeparates(s.listeners[k], s.listeners[l], |s.published|);
    } else if a == Join(l) {
      SeparateIsSymmetric(s.listeners[k], s.listeners[l]);
      JoinSeparates(s.listeners[l], s.listeners[k], |s.published|);
    } else if a.Publish? {
      ReceiveSeparates(s, s.listeners[k], s.listeners[l], Message(|s.published|, a.channel, a.payload));
    } else {
      OthersRest(s, a, k);
      OthersRest(s, a, l);
      RestingSeparates(s.listeners[k], s.listeners[l], Apply(s, a).listeners[k], Apply(s, a).listeners[l]);
    }
  }

  lemma StepSeparates<C(!new)>(s: State<C>, a: Action<C>)
    requires Enabled(s, a) && Apart(s, a) && AllDeliver(s) && AllSeparate(s)
    ensures AllSeparate(Apply(s, a))
  {
    var after := Apply(s, a);
    SubsStay(s, a);
    forall k, l | 0 <= k < l < |after.listeners| && after.listeners[k].sub == after.listeners[l].sub
      ensures Separate(after.listeners[k], after.listeners[l])
    {
      if l >= |s.listeners| {
        NewcomerIsSeparate(after.listeners[k], after.listeners[l]);
      } else {
        PairStaysSeparate(s, a, k, l);
      }
    }
  }

  lemma {:induction false} RunSeparates<C(!new)>(s: State<C>, run: seq<Action<C>>)
    requires IsRun(s, run) && ApartRun(s, run) && AllDeliver(s) && AllSeparate(s)
    ensures AllSeparate(After(s, run))
    decreases |run|
  {
    if run != [] {
      StepDelivers(s, run[0]);
      StepSeparates(s, run[0]);
      RunSeparates(Apply(s, run[0]), run[1..]);
    }
  }

  /** In every run in which no listener joins a channel that another listener of its subscription still
      hears, a subscription is forwarded each published message at most once. */
  lemma DeliveredAtMostOnce<C(!new)>(run: seq<Action<C>>, k: nat, l: nat, i: nat, j: nat)
    requires IsRun(Initial<C>(), run) && ApartRun(Initial<C>(), run)
    requires k < |After(Initial<C>(), run).listeners| && l < |After(Initial<C>(), run).listeners|
    requires i < |After(Initial<C>(), run).listeners[k].forwarded| && j < |After(Initial<C>(), run).listeners[l].forwarded|
    requires After(Initial<C>(), run).listeners[k].sub == After(Initial<C>(), run).listeners[l].sub
    requires After(Initial<C>(), run).listeners[k].forwarded[i].index == After(Initial<C>(), run).listeners[l].forwarded[j].index
    ensures k == l && i == j
  {
    assert AllSeparate(Initial<C>());
    RunSeparates(Initial<C>(), run);
    var s := After(Initial<C>(), run);
    var a, b := s.listeners[k], s.listeners[l];
    assert a.forwarded[i] == Received(a)[i] && b.forwarded[j] == Received(b)[j];
    assert Share(a, b);
    if k != l {
      DifferentDoNotShare(s, k, l);
    } else {
      ForwardedIsPrefix(run, k);
    }
  }

  lemma DifferentDoNotShare<C(!new)>(s: State<C>, k: nat, l: nat)
    requires AllSeparate(s) && k < |s.listeners| && l < |s.listeners| && k != l
    requires s.listeners[k].sub == s.listeners[l].sub
    ensures !Share(s.listeners[k], s.listeners[l])
  {
    if k < l {
      assert Separate(s.listeners[k], s.listeners[l]);
    } else {
      assert Separate(s.listeners[l], s.listeners[k]);
      SeparateIsSymmetric(s.listeners[l], s.listeners[k]);
    }
  }
}
