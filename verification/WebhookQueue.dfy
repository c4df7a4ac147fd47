/** The append-only webhook stream and the reader that pages through it. The entry at position k of the
    stream has id k + 1, and id 0 stands for "0-0". */
module WebhookQueue {
  import opened Payments

  /** Webhook: a payload that parses. Malformed: a payload that does not. Bare: an entry without the
      payload field. */
  datatype Entry = Webhook(event: Event) | Malformed | Bare

  type Numbered = (nat, Entry)

  ghost predicate InWindow(stream: seq<Entry>, n: Numbered, lo: nat, hi: nat)
    requires hi <= |stream|
  {
    lo < n.0 <= hi && stream[n.0 - 1] == n.1 && !n.1.Bare?
  }

  /** The entries with a payload whose ids lie in (lo, hi], each with its id, in stream order. */
  function Deliverable(stream: seq<Entry>, lo: nat, hi: nat): (out: seq<Numbered>)
    requires lo <= hi <= |stream|
    ensures forall i :: 0 <= i < |out| ==> InWindow(stream, out[i], lo, hi)
    decreases hi
  {
    if lo == hi then []
    else
      var before := Deliverable(stream, lo, hi - 1);
      if stream[hi - 1].Bare? then before else before + [(hi, stream[hi - 1])]
  }

  function Min(a: nat, b: nat): nat {
    if a < b then a else b
  }

  /** The last id of the window a read may look at. */
  function WindowEnd(stream: seq<Entry>, lastId: nat, count: nat): (hi: nat)
    requires lastId <= |stream|
    ensures lastId <= hi <= |stream|
  {
    Min(lastId + count, |stream|)
  }

  function ReadAfter(stream: seq<Entry>, lastId: nat, count: nat): seq<Numbered>
    requires lastId <= |stream|
  {
    Deliverable(stream, lastId, WindowEnd(stream, lastId, count))
  }

  /** Ids strictly increase along a window: by at least one a step. */
  lemma {:induction false} DeliverableIsOrdered(stream: seq<Entry>, lo: nat, hi: nat, i: nat, j: nat)
    requires lo <= hi <= |stream| && i <= j < |Deliverable(stream, lo, hi)|
    ensures Deliverable(stream, lo, hi)[i].0 + (j - i) <= Deliverable(stream, lo, hi)[j].0
    decreases hi
  {
    var before := Deliverable(stream, lo, hi - 1);
    if j < |before| {
      DeliverableIsOrdered(stream, lo, hi - 1, i, j);
    } else if i < j {
      DeliverableIsOrdered(stream, lo, hi - 1, i, j - 1);
      assert InWindow(stream, before[j - 1], lo, hi - 1);
    }
  }

  /** No entry with a payload is left out of a window. */
  lemma {:induction false} DeliverableFinds(stream: seq<Entry>, lo: nat, hi: nat, k: nat) returns (i: nat)
    requires lo <= k < hi <= |stream| && !stream[k].Bare?
    ensures i < |Deliverable(stream, lo, hi)| && Deliverable(stream, lo, hi)[i] == (k + 1, stream[k])
    decreases hi
  {
    if k == hi - 1 {
      i := |Deliverable(stream, lo, hi - 1)|;
    } else {
      i := DeliverableFinds(stream, lo, hi - 1, k);
    }
  }

  lemma {:induction false} DeliverableSplits(stream: seq<Entry>, lo: nat, mid: nat, hi: nat)
    requires lo <= mid <= hi <= |stream|
    ensures Deliverable(stream, lo, hi) == Deliverable(stream, lo, mid) + Deliverable(stream, mid, hi)
    decreases hi
  {
    if mid < hi {
      DeliverableSplits(stream, lo, mid, hi - 1);
    }
  }

  lemma {:induction false} DeliverableIsStable(stream: seq<Entry>, more: seq<Entry>, lo: nat, hi: nat)
    requires lo <= hi <= |stream|
    ensures Deliverable(stream + more, lo, hi) == Deliverable(stream, lo, hi)
    decreases hi
  {
    if lo < hi {
      DeliverableIsStable(stream, more, lo, hi - 1);
      assert (stream + more)[hi - 1] == stream[hi - 1];
    }
  }

  /** Taking the first entry off a window moves its start to that entry's id. */
  lemma {:induction false} DeliverableHead(stream: seq<Entry>, lo: nat, hi: nat)
    requires lo <= hi <= |stream| && Deliverable(stream, lo, hi) != []
    ensures var id := Deliverable(stream, lo, hi)[0].0;
            && lo < id <= hi
            && Deliverable(stream, lo, id) == Deliverable(stream, lo, hi)[..1]
            && Deliverable(stream, id, hi) == Deliverable(stream, lo, hi)[1..]
  {
    var all := Deliverable(stream, lo, hi);
    var id := all[0].0;
    assert InWindow(stream, all[0], lo, hi);
    DeliverableSplits(stream, lo, id, hi);
    var front := Deliverable(stream, lo, id);
    var i := DeliverableFinds(stream, lo, id, id - 1);
    assert front[0] == all[0];
    DeliverableIsOrdered(stream, lo, id, 0, |front| - 1);
    assert InWindow(stream, front[|front| - 1], lo, id);
  }

  /** A poll hands out nothing although entries are waiting exactly when the next `count` of them have no
      payload; the cursor then stays where it is, so every later poll finds the same. */
  lemma PollIsStuck(stream: seq<Entry>, more: seq<Entry>, lastId: nat, count: nat)
    requires lastId + count <= |stream|
    ensures ReadAfter(stream, lastId, count) == [] <==>
            (forall k :: lastId <= k < lastId + count ==> stream[k].Bare?)
    ensures ReadAfter(stream + more, lastId, count) == ReadAfter(stream, lastId, count)
  {
    var out := ReadAfter(stream, lastId, count);
    if out != [] {
      assert InWindow(stream, out[0], lastId, lastId + count);
      assert !stream[out[0].0 - 1].Bare?;
    }
    if k :| lastId <= k < lastId + count && !stream[k].Bare? {
      var i := DeliverableFinds(stream, lastId, lastId + count, k);
    }
    DeliverableIsStable(stream, more, lastId, lastId + count);
  }

  /** A read hands out exactly the entries with a payload among the next `count`, also when fewer are waiting:
      each with its id, in order. */
  lemma {:induction false} ReadAfterIs(stream: seq<Entry>, lastId: nat, count: nat)
    requires lastId <= |stream|
    ensures forall k :: lastId <= k < |stream| && k < lastId + count && !stream[k].Bare? ==>
              (k + 1, stream[k]) in ReadAfter(stream, lastId, count)
    ensures forall n :: n in ReadAfter(stream, lastId, count) ==>
              lastId < n.0 <= |stream| && n.0 <= lastId + count && n.1 == stream[n.0 - 1] && !n.1.Bare?
    ensures forall i, j :: 0 <= i < j < |ReadAfter(stream, lastId, count)| ==>
              ReadAfter(stream, lastId, count)[i].0 < ReadAfter(stream, lastId, count)[j].0
  {
    var hi := WindowEnd(stream, lastId, count);
    var out := ReadAfter(stream, lastId, count);
    forall k | lastId <= k < |stream| && k < lastId + count && !stream[k].Bare?
      ensures (k + 1, stream[k]) in out
    {
      var i := DeliverableFinds(stream, lastId, hi, k);
    }
    forall n | n in out
      ensures lastId < n.0 <= |stream| && n.0 <= lastId + count && n.1 == stream[n.0 - 1] && !n.1.Bare?
    {
      assert InWindow(stream, n, lastId, hi);
    }
    forall i, j | 0 <= i < j < |out|
      ensures out[i].0 < out[j].0
    {
      DeliverableIsOrdered(stream, lastId, hi, i, j);
    }
  }

  // ----- one read after the other -----

  /** Where the cursor is after a read. */
  function NextCursor(stream: seq<Entry>, c: nat, count: nat): (d: nat)
    requires c <= |stream|
    ensures c <= d <= |stream|
  {
    var out := ReadAfter(stream, c, count);
    if out == [] then c
    else
      assert InWindow(stream, out[|out| - 1], c, WindowEnd(stream, c, count));
      out[|out| - 1].0
  }

  function CursorAfter(stream: seq<Entry>, c: nat, count: nat, times: nat): (d: nat)
    requires c <= |stream|
    ensures c <= d <= |stream|
    decreases times
  {
    if times == 0 then c else CursorAfter(stream, NextCursor(stream, c, count), count, times - 1)
  }

  /** One more read at the end. */
  lemma {:induction false} CursorAfterOneMore(stream: seq<Entry>, c: nat, count: nat, times: nat)
    requires c <= |stream|
    ensures CursorAfter(stream, c, count, times + 1) == NextCursor(stream, CursorAfter(stream, c, count, times), count)
    decreases times
  {
    if times > 0 {
      CursorAfterOneMore(stream, NextCursor(stream, c, count), count, times - 1);
    }
  }

  /** A read hands out all there is up to the new cursor. */
  lemma {:induction false} ReadReachesCursor(stream: seq<Entry>, c: nat, count: nat)
    requires c <= |stream|
    ensures ReadAfter(stream, c, count) == Deliverable(stream, c, NextCursor(stream, c, count))
  {
    var hi, d := WindowEnd(stream, c, count), NextCursor(stream, c, count);
    var out := ReadAfter(stream, c, count);
    if out == [] {
      assert Deliverable(stream, c, c) == [];
    } else {
      assert InWindow(stream, out[|out| - 1], c, hi);
      forall k | d <= k < hi
        ensures stream[k].Bare?
      {
        if !stream[k].Bare? {
          var i := DeliverableFinds(stream, c, hi, k);
          DeliverableIsOrdered(stream, c, hi, i, |out| - 1);
        }
      }
      BareWindowIsEmpty(stream, d, hi);
      DeliverableSplits(stream, c, d, hi);
    }
  }

  lemma {:induction false} BareWindowIsEmpty(stream: seq<Entry>, lo: nat, hi: nat)
    requires lo <= hi <= |stream| && forall k :: lo <= k < hi ==> stream[k].Bare?
    ensures Deliverable(stream, lo, hi) == []
    decreases hi
  {
    if lo < hi {
      BareWindowIsEmpty(stream, lo, hi - 1);
    }
  }

  /** Every entry from here on lacks a payload. */
  ghost predicate BareFrom(stream: seq<Entry>, c: nat) {
    forall k :: c <= k < |stream| ==> stream[k].Bare?
  }

  /** No block of `count` entries without payload lies between the cursor and an entry with one. */
  ghost predicate NoBlock(stream: seq<Entry>, c: nat, count: nat) {
    forall b: nat :: c <= b && b + count <= |stream| && (forall k :: b <= k < b + count ==> stream[k].Bare?) ==> BareFrom(stream, b)
  }

  lemma {:induction false} NoBlockFromNext(stream: seq<Entry>, c: nat, count: nat)
    requires c <= |stream| && ReadAfter(stream, c, count) != []
    ensures c < NextCursor(stream, c, count)
    ensures NoBlock(stream, NextCursor(stream, c, count), count) <==> NoBlock(stream, c, count)
  {
    var d := NextCursor(stream, c, count);
    var out := ReadAfter(stream, c, count);
    ReadAfterIs(stream, c, count);
    assert out[|out| - 1] in out;
    assert !stream[d - 1].Bare? && d <= c + count;
    if NoBlock(stream, d, count) {
      forall b: nat | c <= b && b + count <= |stream| && (forall k :: b <= k < b + count ==> stream[k].Bare?)
        ensures BareFrom(stream, b)
      {
        assert !(b <= d - 1 < b + count);
      }
    }
  }

  /** As many reads as there are entries leave nothing unread if and only if no such block is in the way. */
  lemma {:induction false} ReadsLeaveNothing(stream: seq<Entry>, c: nat, count: nat, times: nat)
    requires c <= |stream| && |stream| - c <= times
    ensures BareFrom(stream, CursorAfter(stream, c, count, times)) <==> NoBlock(stream, c, count)
    decreases times
  {
    if times > 0 {
      ReadAfterIs(stream, c, count);
      if ReadAfter(stream, c, count) == [] {
        StaysWhenEmpty(stream, c, count, times);
        assert forall k :: c <= k < |stream| && k < c + count ==> stream[k].Bare?;
        if c + count <= |stream| && NoBlock(stream, c, count) {
          assert BareFrom(stream, c);
        }
      } else {
        NoBlockFromNext(stream, c, count);
        ReadsLeaveNothing(stream, NextCursor(stream, c, count), count, times - 1);
      }
    }
  }

  lemma {:induction false} StaysWhenEmpty(stream: seq<Entry>, c: nat, count: nat, times: nat)
    requires c <= |stream| && ReadAfter(stream, c, count) == []
    ensures CursorAfter(stream, c, count, times) == c
    decreases times
  {
    if times > 0 {
      StaysWhenEmpty(stream, c, count, times - 1);
    }
  }

  class Queue {
    var stream: seq<Entry>

    constructor ()
      ensures stream == []
    {
      stream := [];
    }

    method Enqueue(entry: Entry)
      modifies this
      ensures stream == old(stream) + [entry]
    {
      stream := stream + [entry];
    }

    /** The webhook endpoint: the gateway in the event is the one of the request path. */
    method ReceiveWebhook(gateway: string, event: Event)
      modifies this
      ensures stream == old(stream) + [Webhook(event.(gateway := gateway))]
    {
      Enqueue(Webhook(event.(gateway := gateway)));
    }

    /** The reply lists at most one stream, and none when nothing is waiting. */
    method ReadAfterCall(lastId: nat, count: nat) returns (out: seq<Numbered>)
      requires lastId <= |stream|
      ensures out == ReadAfter(stream, lastId, count)
      ensures forall k :: lastId <= k < |stream| && k < lastId + count && !stream[k].Bare? ==> (k + 1, stream[k]) in out
      ensures forall n :: n in out ==>
                lastId < n.0 <= |stream| && n.0 <= lastId + count && n.1 == stream[n.0 - 1] && !n.1.Bare?
      ensures forall i, j :: 0 <= i < j < |out| ==> out[i].0 < out[j].0
    {
      ReadAfterIs(stream, lastId, count);
      var hi := WindowEnd(stream, lastId, count);
      var reply := if lastId < hi then [stream[lastId..hi]] else [];
      out := [];
      for key := 0 to |reply|
        invariant out == if key == 0 then [] else Deliverable(stream, lastId, hi)
      {
        var ids := reply[key];
        for i := 0 to |ids|
          invariant out == Deliverable(stream, lastId, lastId + i)
        {
          if !ids[i].Bare? {
            out := out + [(lastId + i + 1, ids[i])];
          }
        }
      }
    }
  }
}
