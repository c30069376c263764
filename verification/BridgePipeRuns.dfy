/** What runs of the half-closing pipe come to: a read takes all that fits, and while nothing is closed
    every write can be carried to its end. */
module BridgePipeRuns {

  import opened Text
  import opened BridgePipe
  import opened BridgePipeProofs
  import opened BridgePipeClosing

  function Least(a: nat, b: nat): nat {
    if a < b then a else b
  }

  /** A read that meets a write copies as much of the rest of its buffer as there is room for. */
  lemma {:induction false} ReadTakesAllThatFits(run: seq<Action>, w: nat, r: nat)
    requires Reached(run).Some? && Enabled(Reached(run).value, Meet(w, r))
    ensures var s, t := Reached(run).value, Do(Reached(run).value, Meet(w, r));
      var buf, n := s.writers[w].buf, s.writers[w].phase.n;
      && n <= |buf| && t.readers[r].phase.Acking?
      && t.readers[r].phase.data == buf[n..n + Least(s.readers[r].room, |buf| - n)]
      && t.delivered == s.delivered + t.readers[r].phase.data
  {
    RunsKeep(run);
    assert WriterOk(Reached(run).value.closed, Reached(run).value.writers[w]);
  }

  /** A read of an open pipe whose deadline has run out fails by it and copies nothing. */
  lemma {:induction false} ExpiredReadFails(run: seq<Action>, r: nat)
    requires Reached(run).Some? && Enabled(Reached(run).value, Peek(r, true))
    requires Reached(run).value.readers[r].phase == Peeking(3)
    ensures var s, t := Reached(run).value, Do(Reached(run).value, Peek(r, true));
      t.readers[r].phase == ReadFailed(DeadlineExceeded) && t.delivered == s.delivered && t.writers == s.writers
  {
  }

  // ---------------------------------------------------------------- a write alone with a reader

  const NOTHING_CLOSED := Closed(false, false, false)

  ghost predicate Open(run: seq<Action>) {
    Reached(run).Some? && Reached(run).value.closed == NOTHING_CLOSED
  }

  /** The run goes on to `next`, and every write but `w` is as it was. */
  ghost predicate OnlyWrite(run: seq<Action>, next: seq<Action>, w: nat) {
    && run <= next && Open(run) && Open(next)
    && var was, now := Reached(run).value.writers, Reached(next).value.writers;
       |now| == |was| && w < |was| && now == was[w := now[w]] && now[w].buf == was[w].buf
  }

  lemma OnlyWriteJoins(a: seq<Action>, b: seq<Action>, c: seq<Action>, w: nat)
    requires OnlyWrite(a, b, w) && OnlyWrite(b, c, w)
    ensures OnlyWrite(a, c, w)
  {
  }

  /** The pipe is open and write `w` of `buf` is at `phase`. */
  ghost predicate WriteAt(run: seq<Action>, w: nat, buf: Bytes, phase: WritePhase) {
    Open(run) && w < |Reached(run).value.writers| && Reached(run).value.writers[w].buf == buf
    && Reached(run).value.writers[w].phase == phase
  }

  ghost predicate Done(run: seq<Action>, w: nat, buf: Bytes) {
    WriteAt(run, w, buf, WriteEnded(|buf|, false)) && Reached(run).value.lock == None
  }

  /** A new read comes to its select beside the write in its own. */
  lemma MeetsANewRead(run: seq<Action>, w: nat, buf: Bytes, n: nat) returns (next: seq<Action>, r: nat)
    requires WriteAt(run, w, buf, Offering(n))
    ensures OnlyWrite(run, next, w) && WriteAt(next, w, buf, Offering(n)) && r < |Reached(next).value.readers|
    ensures Reached(next).value.readers[r].phase == Receiving && Reached(next).value.readers[r].room == |buf|
  {
    var s := Reached(run).value;
    r := |s.readers|;
    var called := run + [CallRead(|buf|)];
    Extended(run, CallRead(|buf|));
    var more := RoomyReadGetsThere(called, r);
    next := called + more;
  }

  lemma {:induction false} RoomyReadGetsThere(run: seq<Action>, r: nat) returns (more: seq<Action>)
    requires Open(run) && StillReceives(Reached(run).value, r)
    ensures Reached(run + more).Some?
    ensures var s, t := Reached(run).value, Reached(run + more).value;
      && r < |t.readers| && t.readers[r].phase == Receiving && t.readers[r].room == s.readers[r].room
      && t.closed == s.closed && t.writers == s.writers
    decreases PeeksLeft(Reached(run).value.readers[r].phase)
  {
    if Reached(run).value.readers[r].phase.Receiving? {
      more := [];
      assert run + more == run;
    } else {
      var next := NextPeek(run, r);
      PeekKeepsRoom(Reached(run).value, r);
      Extended(run, Peek(r, false));
      var rest := RoomyReadGetsThere(next, r);
      more := [Peek(r, false)] + rest;
      assert run + more == next + rest;
    }
  }

  lemma PeekKeepsRoom(s: State, r: nat)
    requires Enabled(s, Peek(r, false))
    ensures r < |Do(s, Peek(r, false)).readers| && Do(s, Peek(r, false)).readers[r].room == s.readers[r].room
  {
  }

  /** The chunk moves and the count comes back. */
  lemma ChunkIsAnswered(run: seq<Action>, w: nat, r: nat, buf: Bytes, n: nat) returns (next: seq<Action>)
    requires WriteAt(run, w, buf, Offering(n)) && r < |Reached(run).value.readers|
    requires Reached(run).value.readers[r].phase == Receiving && Reached(run).value.readers[r].room == |buf|
    ensures OnlyWrite(run, next, w) && Done(next, w, buf)
  {
    var s := Reached(run).value;
    RunsKeep(run);
    assert WriterOk(s.closed, s.writers[w]);
    Extended(run, Meet(w, r));
    var met := run + [Meet(w, r)];
    var t := Reached(met).value;
    ChunkOfAll(buf, n);
    assert t.writers[w].phase == Awaiting(n) && t.readers[r].phase.Acking? && |t.readers[r].phase.data| == |buf| - n;
    Extended(met, Answer(w, r));
    next := met + [Answer(w, r)];
  }

  lemma ChunkOfAll(buf: Bytes, n: nat)
    requires n <= |buf|
    ensures Chunk(buf, n, |buf|) == buf[n..]
  {
  }

  lemma {:induction false} TestsPass(run: seq<Action>, w: nat, buf: Bytes) returns (next: seq<Action>, n: nat)
    requires Open(run) && StillOffers(Reached(run).value, w) && Reached(run).value.writers[w].buf == buf
    ensures OnlyWrite(run, next, w) && WriteAt(next, w, buf, Offering(n))
    decreases TestsLeft(Reached(run).value.writers[w].phase)
  {
    if Reached(run).value.writers[w].phase.Offering? {
      next, n := run, Reached(run).value.writers[w].phase.n;
    } else {
      var tested := NextTest(run, w);
      TestKeepsBuffer(Reached(run).value, w);
      Extended(run, TestClosed(w));
      next, n := TestsPass(tested, w, buf);
      OnlyWriteJoins(run, tested, next, w);
    }
  }

  lemma TestKeepsBuffer(s: State, w: nat)
    requires Enabled(s, TestClosed(w))
    ensures var t := Do(s, TestClosed(w));
      |t.writers| == |s.writers| && t.writers == s.writers[w := t.writers[w]] && t.writers[w].buf == s.writers[w].buf
  {
  }

  /** A write inside the mutex comes to its end with all of its buffer counted. */
  lemma InsideWriteCompletes(run: seq<Action>, w: nat, buf: Bytes) returns (next: seq<Action>)
    requires Open(run) && w < |Reached(run).value.writers| && Reached(run).value.writers[w].buf == buf
    requires Inside(Reached(run).value.writers[w].phase)
    ensures OnlyWrite(run, next, w) && Done(next, w, buf)
  {
    if Reached(run).value.writers[w].phase.Awaiting? {
      var back := WaitEnds(run, w, buf);
      if Done(back, w, buf) {
        next := back;
      } else {
        next := FreeWriteCompletes(back, w, buf);
        OnlyWriteJoins(run, back, next, w);
      }
    } else {
      next := FreeWriteCompletes(run, w, buf);
    }
  }

  lemma FreeWriteCompletes(run: seq<Action>, w: nat, buf: Bytes) returns (next: seq<Action>)
    requires Open(run) && w < |Reached(run).value.writers| && Reached(run).value.writers[w].buf == buf
    requires Reached(run).value.writers[w].phase.Testing? || Reached(run).value.writers[w].phase.Offering?
    ensures OnlyWrite(run, next, w) && Done(next, w, buf)
  {
    var offering, n := TestsPass(run, w, buf);
    var met, r := MeetsANewRead(offering, w, buf, n);
    next := ChunkIsAnswered(met, w, r, buf, n);
    OnlyWriteJoins(run, offering, met, w);
    OnlyWriteJoins(run, met, next, w);
  }

  /** A write that waits for its count gets it from the one reader that has its chunk. */
  lemma WaitEnds(run: seq<Action>, w: nat, buf: Bytes) returns (next: seq<Action>)
    requires Open(run) && w < |Reached(run).value.writers| && Reached(run).value.writers[w].buf == buf
    requires Reached(run).value.writers[w].phase.Awaiting?
    ensures OnlyWrite(run, next, w)
    ensures Done(next, w, buf) || Reached(next).value.writers[w].phase.Testing?
  {
    WaitingWriterIsAnswered(run, w);
    var a := Answer(w, Reached(run).value.shake.value);
    Extended(run, a);
    next := run + [a];
    CountFits(next, w);
    AnswerReturns(Reached(run).value, a);
  }

  lemma CountFits(run: seq<Action>, w: nat)
    requires Reached(run).Some? && w < |Reached(run).value.writers|
    ensures CountOf(Reached(run).value.writers[w].phase) <= |Reached(run).value.writers[w].buf|
  {
    RunsKeep(run);
    assert WriterOk(Reached(run).value.closed, Reached(run).value.writers[w]);
  }

  lemma AnswerReturns(s: State, a: Action)
    requires a.Answer? && Enabled(s, a)
    ensures var t := Do(s, a);
      && t.closed == s.closed && |t.writers| == |s.writers| && t.writers == s.writers[a.w := t.writers[a.w]]
      && t.writers[a.w].buf == s.writers[a.w].buf
      && (t.writers[a.w].phase.Testing?
          || (t.lock == None && t.writers[a.w].phase.WriteEnded? && !t.writers[a.w].phase.failed
              && t.writers[a.w].phase.n >= |s.writers[a.w].buf|))
  {
  }

  /** While nothing is closed every write that has not returned can return with no error and all of its
      buffer counted, whoever holds the mutex. */
  lemma {:induction false} OpenPipeCompletesWrites(run: seq<Action>, w: nat) returns (next: seq<Action>)
    requires Open(run) && w < |Reached(run).value.writers| && !Reached(run).value.writers[w].phase.WriteEnded?
    ensures run <= next && Done(next, w, Reached(run).value.writers[w].buf)
  {
    RunsKeep(run);
    var s := Reached(run).value;
    var buf := s.writers[w].buf;
    if s.writers[w].phase.Queued? {
      var free := run;
      if s.lock.Some? {
        assert Inside(s.writers[s.lock.value].phase);
        free := InsideWriteCompletes(run, s.lock.value, s.writers[s.lock.value].buf);
      }
      Extended(free, TakeLock(w));
      next := InsideWriteCompletes(free + [TakeLock(w)], w, buf);
    } else {
      next := InsideWriteCompletes(run, w, buf);
    }
  }
}
