/** Conservation and closing of the half-closing pipe, over every run. */
module BridgePipeProofs {

  import opened Text
  import opened BridgePipe

  /** The count of a writer outside the order does not show. */
  lemma {:induction false} CountedElsewhere(order: seq<nat>, ws: seq<Writer>, us: seq<Writer>)
    requires forall i :: 0 <= i < |order| ==>
      order[i] < |ws| && order[i] < |us| && Written(us[order[i]]) == Written(ws[order[i]])
    ensures Counted(order, us) == Counted(order, ws)
  {
    if order != [] {
      CountedElsewhere(order[..|order| - 1], ws, us);
    }
  }

  /** Moving a writer without changing its count. */
  lemma SameCount(s: State, w: nat, phase: WritePhase)
    requires OrderOk(s) && w < |s.writers| && CountOf(phase) == CountOf(s.writers[w].phase)
    ensures Counted(s.order, At(s, w, phase).writers) == s.acked
  {
    CountedElsewhere(s.order, s.writers, At(s, w, phase).writers);
  }

  lemma CallWriteKeeps(s: State, buf: Bytes)
    requires Inv(s)
    ensures Inv(Do(s, CallWrite(buf)))
  {
    CallWriteKeepsOrder(s, buf);
    CallWriteKeepsCalls(s, buf);
  }

  lemma CallWriteKeepsOrder(s: State, buf: Bytes)
    requires Inv(s)
    ensures OrderOk(s.(writers := s.writers + [Writer(buf, s.closed, Queued)]))
  {
    var t := s.(writers := s.writers + [Writer(buf, s.closed, Queued)]);
    CountedElsewhere(s.order, s.writers, t.writers);
    assert |s.writers| !in s.order;
  }

  lemma CallWriteKeepsCalls(s: State, buf: Bytes)
    requires Inv(s)
    ensures var t := s.(writers := s.writers + [Writer(buf, s.closed, Queued)]); CallsOk(t) && LockOk(t)
  {
  }

  lemma TakeLockKeeps(s: State, w: nat)
    requires Inv(s) && Enabled(s, TakeLock(w))
    ensures Inv(Do(s, TakeLock(w)))
  {
    TakeLockKeepsOrder(s, w);
    TakeLockKeepsCalls(s, w);
  }

  lemma TakeLockKeepsOrder(s: State, w: nat)
    requires Inv(s) && Enabled(s, TakeLock(w))
    ensures OrderOk(At(s, w, Testing(0, 0)).(lock := Some(w), order := s.order + [w]))
  {
    var t := At(s, w, Testing(0, 0)).(lock := Some(w), order := s.order + [w]);
    SameCount(s, w, Testing(0, 0));
    assert t.order[..|t.order| - 1] == s.order;
    assert Written(t.writers[w]) == [];
  }

  lemma TakeLockKeepsCalls(s: State, w: nat)
    requires Inv(s) && Enabled(s, TakeLock(w))
    ensures var t := At(s, w, Testing(0, 0)).(lock := Some(w), order := s.order + [w]); CallsOk(t) && LockOk(t)
  {
  }

  lemma TestClosedKeeps(s: State, w: nat)
    requires Inv(s) && Enabled(s, TestClosed(w))
    ensures Inv(Do(s, TestClosed(w)))
  {
    var t := AfterTest(s, w, s.writers[w].phase.test, s.writers[w].phase.n);
    SameCount(s, w, t.writers[w].phase);
    TestKeepsCalls(s, w);
    assert OrderOk(t);
  }

  lemma TestKeepsCalls(s: State, w: nat)
    requires Inv(s) && w < |s.writers| && s.writers[w].phase.Testing?
    ensures var t := AfterTest(s, w, s.writers[w].phase.test, s.writers[w].phase.n);
      CallsOk(t) && LockOk(t)
  {
  }

  lemma StopOfferingKeeps(s: State, w: nat)
    requires Inv(s) && Enabled(s, StopOffering(w))
    ensures Inv(Do(s, StopOffering(w)))
  {
    SameCount(s, w, Do(s, StopOffering(w)).writers[w].phase);
  }

  lemma ReaderMovesKeep(s: State, r: nat, phase: ReadPhase)
    requires Inv(s) && r < |s.readers| && !s.readers[r].phase.Acking? && !phase.Acking?
    requires ReaderOk(s.closed, s.delivered, s.readers[r].(phase := phase))
    ensures Inv(ReadAt(s, r, phase))
  {
  }

  lemma PeekKeeps(s: State, r: nat, expired: bool)
    requires Inv(s) && Enabled(s, Peek(r, expired))
    ensures Inv(Do(s, Peek(r, expired)))
  {
    var t := AfterPeek(s, r, s.readers[r].phase.test, expired);
    PeekIsOk(s, r, expired);
    ReaderMovesKeep(s, r, t.readers[r].phase);
  }

  lemma PeekIsOk(s: State, r: nat, expired: bool)
    requires CallsOk(s) && r < |s.readers| && s.readers[r].phase.Peeking?
    ensures var t := AfterPeek(s, r, s.readers[r].phase.test, expired);
      && t == ReadAt(s, r, t.readers[r].phase) && !t.readers[r].phase.Acking?
      && ReaderOk(s.closed, s.delivered, t.readers[r])
  {
  }

  lemma StopReceivingKeeps(s: State, r: nat, why: Why)
    requires Inv(s) && Enabled(s, StopReceiving(r, why))
    ensures Inv(Do(s, StopReceiving(r, why)))
  {
    ReaderMovesKeep(s, r, ReadFailed(why));
  }

  lemma CallReadKeeps(s: State, room: nat)
    requires Inv(s)
    ensures Inv(Do(s, CallRead(room)))
  {
    CallReadKeepsCalls(s, room);
  }

  lemma CallReadKeepsCalls(s: State, room: nat)
    requires Inv(s)
    ensures CallsOk(s.(readers := s.readers + [Reader(room, s.closed, Peeking(0))]))
  {
  }

  lemma ShutKeeps(s: State, also: Closed)
    requires Inv(s)
    ensures Inv(Do(s, Shut(also)))
  {
    ShutKeepsCalls(s, Do(s, Shut(also)));
  }

  lemma ShutKeepsCalls(s: State, t: State)
    requires CallsOk(s) && t == s.(closed := t.closed) && s.closed.Within(t.closed)
    ensures CallsOk(t)
  {
  }

  lemma ChunkIsSlice(buf: Bytes, n: nat, room: nat)
    requires n <= |buf|
    ensures Slice(buf, n, Chunk(buf, n, room)) && |Chunk(buf, n, room)| <= room
  {
  }

  lemma SliceGrows(all: Bytes, more: Bytes, at: nat, data: Bytes)
    requires Slice(all, at, data)
    ensures Slice(all + more, at, data)
  {
    assert (all + more)[at..at + |data|] == all[at..at + |data|];
  }

  lemma MeetKeeps(s: State, w: nat, r: nat)
    requires Inv(s) && Enabled(s, Meet(w, r))
    ensures Inv(Do(s, Meet(w, r)))
  {
    MeetKeepsOrder(s, w, r);
    MeetKeepsCalls(s, w, r);
    MeetKeepsStream(s, w, r);
  }

  lemma MeetKeepsOrder(s: State, w: nat, r: nat)
    requires Inv(s) && Enabled(s, Meet(w, r))
    ensures OrderOk(Do(s, Meet(w, r)))
  {
    SameCount(s, w, Awaiting(s.writers[w].phase.n));
  }

  lemma MeetKeepsStream(s: State, w: nat, r: nat)
    requires Inv(s) && Enabled(s, Meet(w, r))
    ensures var t := Do(s, Meet(w, r)); LockOk(t) && ShakeOk(t) && HandOk(t) && StreamOk(t)
  {
    ChunkIsSlice(s.writers[w].buf, s.writers[w].phase.n, s.readers[r].room);
    assert s.shake.None?;
  }

  lemma MeetKeepsCalls(s: State, w: nat, r: nat)
    requires Inv(s) && Enabled(s, Meet(w, r))
    ensures CallsOk(Do(s, Meet(w, r)))
  {
    var t := Do(s, Meet(w, r));
    var data := Chunk(s.writers[w].buf, s.writers[w].phase.n, s.readers[r].room);
    ChunkIsSlice(s.writers[w].buf, s.writers[w].phase.n, s.readers[r].room);
    forall q | 0 <= q < |t.readers| ensures ReaderOk(t.closed, t.delivered, t.readers[q]) {
      if q != r && (s.readers[q].phase.Acking? || s.readers[q].phase.ReadEnded?) {
        SliceGrows(s.delivered, data, s.readers[q].phase.at, s.readers[q].phase.data);
      }
    }
  }

  lemma LastCounted(order: seq<nat>, ws: seq<Writer>, us: seq<Writer>, w: nat, data: Bytes)
    requires order != [] && order[|order| - 1] == w && w < |ws| && |us| == |ws|
    requires forall i :: 0 <= i < |order| - 1 ==> order[i] < |ws| && us[order[i]] == ws[order[i]]
    requires Written(us[w]) == Written(ws[w]) + data
    ensures Counted(order, us) == Counted(order, ws) + data
  {
    var front := order[..|order| - 1];
    CountedElsewhere(front, ws, us);
    Regroup(Counted(front, ws), Written(ws[w]), data);
  }

  lemma Regroup(a: Bytes, b: Bytes, c: Bytes)
    ensures a + (b + c) == a + b + c
  {
  }

  lemma CountingKeepsOrder(s: State, t: State, w: nat, data: Bytes)
    requires OrderOk(s) && s.lock == Some(w) && w < |s.writers| && (t.lock == s.lock || t.lock == None)
    requires t.order == s.order && |t.writers| == |s.writers|
    requires forall v :: 0 <= v < |s.writers| && v != w ==> t.writers[v] == s.writers[v]
    requires !s.writers[w].phase.Queued? && !t.writers[w].phase.Queued?
    requires Written(t.writers[w]) == Written(s.writers[w]) + data && t.acked == s.acked + data
    ensures OrderOk(t)
  {
    LastCounted(s.order, s.writers, t.writers, w, data);
  }

  lemma TakeMore(buf: Bytes, n: nat, data: Bytes)
    requires Slice(buf, n, data)
    ensures buf[..n] + data == buf[..n + |data|]
  {
  }

  lemma ShakeIs(s: State, w: nat, r: nat)
    requires Inv(s) && Enabled(s, Answer(w, r))
    ensures s.lock == Some(w) && s.shake == Some(r)
    ensures Slice(s.writers[w].buf, s.writers[w].phase.n, s.readers[r].phase.data)
  {
  }

  lemma AnswerCounts(s: State, w: nat, r: nat, n: nat, at: nat, data: Bytes)
    requires w < |s.writers| && r < |s.readers| && Slice(s.writers[w].buf, n, data) && s.writers[w].phase == Awaiting(n)
    ensures Written(AfterAnswer(s, w, r, n, at, data).writers[w]) == Written(s.writers[w]) + data
  {
    TakeMore(s.writers[w].buf, n, data);
  }

  lemma AnswerKeepsOrder(s: State, w: nat, r: nat)
    requires Inv(s) && Enabled(s, Answer(w, r))
    ensures OrderOk(Do(s, Answer(w, r)))
  {
    ShakeIs(s, w, r);
    AnswerCounts(s, w, r, s.writers[w].phase.n, s.readers[r].phase.at, s.readers[r].phase.data);
    CountingKeepsOrder(s, Do(s, Answer(w, r)), w, s.readers[r].phase.data);
  }

  lemma AnswerKeepsCalls(s: State, w: nat, r: nat)
    requires Inv(s) && Enabled(s, Answer(w, r))
    ensures CallsOk(Do(s, Answer(w, r))) && LockOk(Do(s, Answer(w, r)))
  {
    ShakeIs(s, w, r);
    var n, at, data := s.writers[w].phase.n, s.readers[r].phase.at, s.readers[r].phase.data;
    var t := AfterAnswer(s, w, r, n, at, data);
    assert WriterOk(s.closed, s.writers[w]) && ReaderOk(s.closed, s.delivered, s.readers[r]);
    assert WriterOk(t.closed, t.writers[w]) && ReaderOk(t.closed, t.delivered, t.readers[r]);
  }

  lemma AnswerKeepsStream(s: State, w: nat, r: nat)
    requires Inv(s) && Enabled(s, Answer(w, r))
    ensures var t := Do(s, Answer(w, r)); ShakeOk(t) && HandOk(t) && StreamOk(t)
  {
    assert s.lock == Some(w) && s.shake == Some(r);
    AnswerKeepsCalls(s, w, r);
  }

  lemma {:induction false} RunsKeep(run: seq<Action>)
    requires Reached(run).Some?
    ensures Inv(Reached(run).value)
  {
    if run != [] {
      RunsKeep(run[..|run| - 1]);
      StepKeeps(Reached(run[..|run| - 1]).value, run[|run| - 1]);
    }
  }

  lemma StepKeeps(s: State, a: Action)
    requires Inv(s) && Enabled(s, a)
    ensures Inv(Do(s, a))
  {
    match a
    case CallWrite(buf) => CallWriteKeeps(s, buf);
    case TakeLock(w) => TakeLockKeeps(s, w);
    case TestClosed(w) => TestClosedKeeps(s, w);
    case StopOffering(w) => StopOfferingKeeps(s, w);
    case CallRead(room) => CallReadKeeps(s, room);
    case Peek(r, expired) => PeekKeeps(s, r, expired);
    case StopReceiving(r, why) => StopReceivingKeeps(s, r, why);
    case Meet(w, r) => MeetKeeps(s, w, r);
    case Answer(w, r) =>
      AnswerKeepsOrder(s, w, r);
      AnswerKeepsCalls(s, w, r);
      AnswerKeepsStream(s, w, r);
    case Shut(also) => ShutKeeps(s, also);
  }

  // ---------------------------------------------------------------- the promises

  /** What readers copied is what writers counted, in the order the writers took the mutex, and at
      most one chunk more, which one reader is about to answer for. */
  lemma {:induction false} BytesAreConserved(run: seq<Action>)
    requires Reached(run).Some?
    ensures var s := Reached(run).value;
      && s.delivered == Counted(s.order, s.writers) + InHand(s)
      && (forall i, j :: 0 <= i < j < |s.order| ==> s.order[i] != s.order[j])
      && (forall w :: 0 <= w < |s.writers| ==> (w in s.order <==> !s.writers[w].phase.Queued?))
  {
    RunsKeep(run);
  }

  /** A `Write` that comes back has delivered exactly the first `n` bytes of its buffer, at its place
      behind the writers before it: all of it when it did not fail, and it fails only once an end is
      closed. */
  lemma {:induction false} WriteCountsWhatWasDelivered(run: seq<Action>, i: nat)
    requires Reached(run).Some? && i < |Reached(run).value.order|
    ensures var s := Reached(run).value; s.order[i] < |s.writers|
    ensures var s := Reached(run).value; var call := s.writers[s.order[i]];
      call.phase.WriteEnded? ==>
        && call.phase.n <= |call.buf|
        && Slice(s.delivered, |Counted(s.order[..i], s.writers)|, call.buf[..call.phase.n])
        && (!call.phase.failed ==> call.phase.n == |call.buf|)
        && (call.phase.failed ==> s.closed.Any())
  {
    RunsKeep(run);
    var s := Reached(run).value;
    CountedHolds(s.order, s.writers, i);
    SliceGrows(s.acked, InHand(s), |Counted(s.order[..i], s.writers)|, Written(s.writers[s.order[i]]));
  }

  /** The bytes of the `i`-th writer follow those of the writers before it. */
  lemma {:induction false} CountedHolds(order: seq<nat>, ws: seq<Writer>, i: nat)
    requires i < |order| && forall k :: 0 <= k < |order| ==> order[k] < |ws|
    ensures Slice(Counted(order, ws), |Counted(order[..i], ws)|, Written(ws[order[i]]))
  {
    var front := order[..|order| - 1];
    var last := Written(ws[order[|order| - 1]]);
    if i == |front| {
      assert Counted(order, ws)[|Counted(front, ws)|..] == last;
    } else {
      CountedHolds(front, ws, i);
      assert front[..i] == order[..i];
      SliceGrows(Counted(front, ws), last, |Counted(order[..i], ws)|, Written(ws[order[i]]));
    }
  }

  /** A `Read` that returns bytes returns the stream at its place, never more than it has room for. */
  lemma {:induction false} ReadReturnsTheStream(run: seq<Action>, r: nat)
    requires Reached(run).Some? && r < |Reached(run).value.readers| && Reached(run).value.readers[r].phase.ReadEnded?
    ensures var s := Reached(run).value; var call := s.readers[r];
      Slice(s.delivered, call.phase.at, call.phase.data) && |call.phase.data| <= call.room
  {
    RunsKeep(run);
  }

  /** Whatever a reader is told, end of file included, every byte counted by a writer has already
      been copied by a reader; and end of file is told only after the writing end closed or half-closed. */
  lemma {:induction false} EndOfFileTruncatesNothing(run: seq<Action>, r: nat)
    requires Reached(run).Some? && r < |Reached(run).value.readers|
    requires Reached(run).value.readers[r].phase == ReadFailed(EOF)
    ensures var s := Reached(run).value;
      Counted(s.order, s.writers) <= s.delivered && (s.closed.writer || s.closed.halfWriter)
  {
    RunsKeep(run);
  }

  /** The answer never blocks: a reader that took a chunk can always hand its count to the one writer
      that waits. */
  lemma {:induction false} AnswerNeverBlocks(run: seq<Action>, r: nat)
    requires Reached(run).Some? && r < |Reached(run).value.readers| && Reached(run).value.readers[r].phase.Acking?
    ensures var s := Reached(run).value;
      s.shake == Some(r) && s.lock.Some? && Enabled(s, Answer(s.lock.value, r))
  {
    RunsKeep(run);
  }

  /** And a waiting writer always has its one reader. */
  lemma {:induction false} WaitingWriterIsAnswered(run: seq<Action>, w: nat)
    requires Reached(run).Some? && w < |Reached(run).value.writers| && Reached(run).value.writers[w].phase.Awaiting?
    ensures var s := Reached(run).value;
      s.lock == Some(w) && s.shake.Some? && Enabled(s, Answer(w, s.shake.value))
  {
    RunsKeep(run);
  }

  /** Writers never interleave: one at a time is past the mutex. */
  lemma {:induction false} OneWriterAtATime(run: seq<Action>, v: nat, w: nat)
    requires Reached(run).Some? && v < |Reached(run).value.writers| && w < |Reached(run).value.writers|
    requires Inside(Reached(run).value.writers[v].phase) && Inside(Reached(run).value.writers[w].phase)
    ensures v == w
  {
    RunsKeep(run);
  }

  /** A call made after a close moves nothing: a `Write` fails with count zero, and a `Read` fails
      with a closed pipe or end of file, by which end was closed. */
  lemma {:induction false} CallsAfterCloseMoveNothing(run: seq<Action>, w: nat, r: nat)
    requires Reached(run).Some? && w < |Reached(run).value.writers| && r < |Reached(run).value.readers|
    ensures var s := Reached(run).value;
      && (s.writers[w].begun.Any() ==>
        Written(s.writers[w]) == [] && (s.writers[w].phase.WriteEnded? ==> s.writers[w].phase.failed))
      && (s.readers[r].begun.Any() ==> !s.readers[r].phase.ReadEnded? && !s.readers[r].phase.Acking?)
      && (s.readers[r].begun.reader && s.readers[r].phase.ReadFailed? ==> s.readers[r].phase.why == ClosedPipe)
      && (s.readers[r].begun.Any() && s.readers[r].phase.ReadFailed? ==> s.readers[r].phase.why != DeadlineExceeded)
  {
    RunsKeep(run);
  }

  /** Once anything is closed no call is stranded: while one has not come back, some call can step. */
  lemma {:induction false} ClosingStrandsNoCall(run: seq<Action>, w: nat, r: nat)
    returns (forWriter: Action, forReader: Action)
    requires Reached(run).Some? && Reached(run).value.closed.Any()
    requires w < |Reached(run).value.writers| && !Reached(run).value.writers[w].phase.WriteEnded?
    requires r < |Reached(run).value.readers|
    requires !Reached(run).value.readers[r].phase.ReadEnded? && !Reached(run).value.readers[r].phase.ReadFailed?
    ensures Enabled(Reached(run).value, forWriter) && !forWriter.CallWrite? && !forWriter.CallRead? && !forWriter.Shut?
    ensures Enabled(Reached(run).value, forReader) && !forReader.CallWrite? && !forReader.CallRead? && !forReader.Shut?
  {
    RunsKeep(run);
    var s := Reached(run).value;
    forWriter := if s.lock.None? then TakeLock(w) else HolderMove(s, s.lock.value);
    match s.readers[r].phase
    case Peeking(_) => forReader := Peek(r, false);
    case Receiving => forReader := StopReceiving(r, if s.closed.reader then ClosedPipe else EOF);
    case Acking(_, _) => forReader := Answer(s.lock.value, r);
    case _ =>
  }

  function HolderMove(s: State, w: nat): (a: Action)
    requires LockOk(s) && ShakeOk(s) && s.closed.Any() && s.lock == Some(w)
    ensures Enabled(s, a) && !a.CallWrite? && !a.CallRead? && !a.Shut?
  {
    if s.writers[w].phase.Testing? then TestClosed(w)
    else if s.writers[w].phase.Offering? then StopOffering(w)
    else Answer(w, s.shake.value)
  }
}
