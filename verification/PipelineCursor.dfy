/** What one incarnation of a worker hands to handle_event: the stream, in order, each entry once. */
module PipelineCursor {
  import opened Faults
  import opened WebhookQueue
  import opened Pipeline

  /** The batch lists the entries of some stretch that starts at the cursor. */
  ghost predicate IsWindow(stream: seq<Entry>, worker: Worker) {
    && worker.cursor <= |stream|
    && (exists hi :: worker.cursor <= hi <= |stream| && worker.batch == Deliverable(stream, worker.cursor, hi))
  }

  /** The batch follows the cursor; what has been handed out is what precedes it, and the event in
      hand. */
  ghost predicate Aligned(stream: seq<Entry>, worker: Worker) {
    && IsWindow(stream, worker)
    && (!worker.pc.Idle? ==> worker.batch != [])
    && worker.handed == Deliverable(stream, 0, worker.cursor) + (if worker.pc.Idle? then [] else worker.batch[..1])
  }

  ghost predicate AllAligned(s: State) {
    forall w :: 0 <= w < |s.workers| ==> Aligned(s.stream, s.workers[w])
  }

  lemma AlignedAfterEnqueue(stream: seq<Entry>, entry: Entry, worker: Worker)
    requires Aligned(stream, worker)
    ensures Aligned(stream + [entry], worker)
  {
    var hi :| worker.cursor <= hi <= |stream| && worker.batch == Deliverable(stream, worker.cursor, hi);
    DeliverableIsStable(stream, [entry], worker.cursor, hi);
    DeliverableIsStable(stream, [entry], 0, worker.cursor);
  }

  /** Finishing with the head of the batch moves it from the batch to what precedes the cursor. */
  lemma AlignedAfterFinish(stream: seq<Entry>, worker: Worker)
    requires IsWindow(stream, worker) && worker.batch != []
    requires worker.handed == Deliverable(stream, 0, worker.cursor) + worker.batch[..1]
    ensures Aligned(stream, Finish(worker))
  {
    var hi :| worker.cursor <= hi <= |stream| && worker.batch == Deliverable(stream, worker.cursor, hi);
    DeliverableHead(stream, worker.cursor, hi);
    DeliverableSplits(stream, 0, worker.cursor, worker.batch[0].0);
  }

  lemma StepIsAligned(s: State, a: Action)
    requires Enabled(s, a) && AllAligned(s)
    ensures AllAligned(Apply(s, a))
  {
    match a
    case Enqueue(entry) =>
      forall w | 0 <= w < |s.workers|
        ensures Aligned(s.stream + [entry], s.workers[w])
      {
        AlignedAfterEnqueue(s.stream, entry, s.workers[w]);
      }
    case Read(w) =>
      var hi := WindowEnd(s.stream, s.workers[w].cursor, BATCH);
      assert Apply(s, a).workers[w].batch == Deliverable(s.stream, s.workers[w].cursor, hi);
    case Take(w) =>
      var worker := s.workers[w];
      AlignedAfterFinish(s.stream, worker.(handed := worker.handed + [worker.batch[0]]));
    case Work(w, outcome) =>
      AlignedAfterFinish(s.stream, s.workers[w]);
    case Crash(_) =>
      assert Deliverable(s.stream, 0, 0) == [];
    case _ =>
  }

  lemma {:induction false} RunIsAligned(s: State, run: seq<Action>)
    requires IsRun(s, run) && AllAligned(s)
    ensures AllAligned(After(s, run))
    decreases |run|
  {
    if run != [] {
      StepIsAligned(s, run[0]);
      RunIsAligned(Apply(s, run[0]), run[1..]);
    }
  }

  /** In every reachable state, with producers appending and calls failing at will, a worker between two
      events has handed out exactly the entries of the stream up to its cursor that have a payload: in
      order, each once, since its last restart. */
  lemma HandedOutIsThePrefix(now: nat, workers: nat, reconcilers: nat, run: seq<Action>, w: nat)
    requires IsRun(Initial(now, workers, reconcilers), run)
    requires w < |After(Initial(now, workers, reconcilers), run).workers|
    ensures var s := After(Initial(now, workers, reconcilers), run);
            var worker := s.workers[w];
            && worker.cursor <= |s.stream|
            && (worker.pc.Idle? ==> worker.handed == Deliverable(s.stream, 0, worker.cursor))
            && (!worker.pc.Idle? ==>
                  && worker.batch != []
                  && worker.cursor < worker.batch[0].0 <= |s.stream|
                  && worker.handed == Deliverable(s.stream, 0, worker.batch[0].0))
  {
    var s0 := Initial(now, workers, reconcilers);
    assert AllAligned(s0) by {
      assert Deliverable(s0.stream, 0, 0) == [];
    }
    RunIsAligned(s0, run);
    var s := After(s0, run);
    var worker := s.workers[w];
    assert Aligned(s.stream, worker);
    if !worker.pc.Idle? {
      var hi :| worker.cursor <= hi <= |s.stream| && worker.batch == Deliverable(s.stream, worker.cursor, hi);
      DeliverableHead(s.stream, worker.cursor, hi);
      DeliverableSplits(s.stream, 0, worker.cursor, worker.batch[0].0);
    }
  }

  /** A restarted worker begins the stream again: its next read is of the first fifty entries, whatever its
      predecessor has handed out. */
  lemma {:induction false} RestartBeginsAgain(s: State, w: nat)
    requires Enabled(s, Crash(w))
    ensures var run := [Crash(w), Read(w)];
            && IsRun(s, run) && w < |After(s, run).workers|
            && var worker := After(s, run).workers[w];
            && worker.handed == []
            && (forall k :: 0 <= k < |s.stream| && k < 50 && !s.stream[k].Bare? ==> (k + 1, s.stream[k]) in worker.batch)
            && (forall n :: n in worker.batch ==>
                  0 < n.0 <= |s.stream| && n.0 <= 50 && n.1 == s.stream[n.0 - 1] && !n.1.Bare?)
  {
    var s1 := Apply(s, Crash(w));
    TraceIsRun([s, s1, Apply(s1, Read(w))], [Crash(w), Read(w)]);
    ReadAfterIs(s.stream, 0, BATCH);
  }

  // ----- a block of entries without payload -----

  /** A whole batch of entries after position c has no payload. */
  ghost predicate Blocked(stream: seq<Entry>, c: nat) {
    c + 50 <= |stream| && forall k :: c <= k < c + 50 ==> stream[k].Bare?
  }

  /** All that the worker has handed out, or has read, lies before the block. */
  ghost predicate Behind(worker: Worker, c: nat) {
    && worker.cursor <= c
    && (forall i :: 0 <= i < |worker.batch| ==> worker.batch[i].0 <= c)
    && (forall i :: 0 <= i < |worker.handed| ==> worker.handed[i].0 <= c)
  }

  lemma BlockedReadStaysBehind(stream: seq<Entry>, cursor: nat, c: nat)
    requires Blocked(stream, c) && cursor <= c
    ensures forall i :: 0 <= i < |ReadAfter(stream, cursor, BATCH)| ==> ReadAfter(stream, cursor, BATCH)[i].0 <= c
  {
    var hi := WindowEnd(stream, cursor, BATCH);
    var out := ReadAfter(stream, cursor, BATCH);
    forall i | 0 <= i < |out|
      ensures out[i].0 <= c
    {
      assert InWindow(stream, out[i], cursor, hi);
    }
  }

  lemma StepStaysBehind(s: State, a: Action, w: nat, c: nat)
    requires Enabled(s, a) && Blocked(s.stream, c) && w < |s.workers| && Behind(s.workers[w], c)
    ensures Blocked(Apply(s, a).stream, c) && w < |Apply(s, a).workers| && Behind(Apply(s, a).workers[w], c)
  {
    if a == Read(w) {
      BlockedReadStaysBehind(s.stream, s.workers[w].cursor, c);
    }
  }

  /** However long the run, whatever is appended and however often it restarts, a worker that has not got past
      the block never does: nothing after it is ever handed to it. */
  lemma {:induction false} BlockedForEver(s: State, run: seq<Action>, w: nat, c: nat)
    requires IsRun(s, run) && Blocked(s.stream, c) && w < |s.workers| && Behind(s.workers[w], c)
    ensures w < |After(s, run).workers| && Behind(After(s, run).workers[w], c)
    decreases |run|
  {
    if run != [] {
      StepStaysBehind(s, run[0], w, c);
      BlockedForEver(Apply(s, run[0]), run[1..], w, c);
    }
  }
}
