/** The half-closing pipe after a close: which calls can still move a chunk, and that none made later
    can. */
module BridgePipeClosing {

  import opened Text
  import opened BridgePipe
  import opened BridgePipeProofs

  // ---------------------------------------------------------------- calls that can reach their select

  /** A write past the tests of every channel closed by now goes on into its select. */
  predicate WriteGoesOn(c: Closed, p: WritePhase) {
    match p
    case Offering(_) => true
    case Testing(t, _) => (c.writer ==> t > 0) && (c.halfWriter ==> t > 1) && (c.reader ==> t > 2)
    case _ => false
  }

  predicate ReadGoesOn(c: Closed, p: ReadPhase) {
    match p
    case Receiving => true
    case Peeking(t) => (c.reader ==> t > 0) && (c.writer ==> t > 1) && (c.halfWriter ==> t > 2)
    case _ => false
  }

  predicate StillOffers(s: State, w: nat) {
    w < |s.writers| && WriteGoesOn(s.closed, s.writers[w].phase)
  }

  predicate StillReceives(s: State, r: nat) {
    r < |s.readers| && ReadGoesOn(s.closed, s.readers[r].phase)
  }

  // ---------------------------------------------------------------- what is lost stays lost

  lemma LostWriteStaysLost(s: State, a: Action, w: nat)
    requires Enabled(s, a) && s.closed.Any() && !StillOffers(s, w)
    ensures Do(s, a).closed.Any() && !StillOffers(Do(s, a), w)
  {
  }

  lemma LostReadStaysLost(s: State, a: Action, r: nat)
    requires Enabled(s, a) && s.closed.Any() && !StillReceives(s, r)
    ensures Do(s, a).closed.Any() && !StillReceives(Do(s, a), r)
  {
  }

  lemma {:induction false} LostForGood(run: seq<Action>, more: seq<Action>, w: nat, r: nat)
    requires Reached(run).Some? && Reached(run + more).Some? && Reached(run).value.closed.Any()
    ensures Reached(run + more).value.closed.Any()
    ensures !StillOffers(Reached(run).value, w) ==> !StillOffers(Reached(run + more).value, w)
    ensures !StillReceives(Reached(run).value, r) ==> !StillReceives(Reached(run + more).value, r)
    decreases |more|
  {
    if more == [] {
      assert run + more == run;
    } else {
      var front, a := BeforeLast(run, more);
      LostForGood(run, front, w, r);
      LostStep(Reached(run + front).value, a, w, r);
    }
  }

  lemma LostStep(s: State, a: Action, w: nat, r: nat)
    requires Enabled(s, a) && s.closed.Any()
    ensures Do(s, a).closed.Any()
    ensures !StillOffers(s, w) ==> !StillOffers(Do(s, a), w)
    ensures !StillReceives(s, r) ==> !StillReceives(Do(s, a), r)
  {
    if !StillOffers(s, w) {
      LostWriteStaysLost(s, a, w);
    }
    if !StillReceives(s, r) {
      LostReadStaysLost(s, a, r);
    }
  }

  /** The last action of a continuation, and the run before it. */
  lemma BeforeLast(run: seq<Action>, more: seq<Action>) returns (front: seq<Action>, a: Action)
    requires more != [] && Reached(run + more).Some?
    ensures more == front + [a] && Reached(run + front).Some? && Enabled(Reached(run + front).value, a)
    ensures Reached(run + more).value == Do(Reached(run + front).value, a)
  {
    var all, n := run + more, |more| - 1;
    front, a := more[..n], more[n];
    assert all[..|all| - 1] == run + front && all[|all| - 1] == a;
  }

  // ---------------------------------------------------------------- what goes on gets there

  lemma WriteStep(s: State, w: nat)
    requires Inv(s) && StillOffers(s, w) && s.writers[w].phase.Testing?
    ensures Enabled(s, TestClosed(w))
    ensures var t := Do(s, TestClosed(w));
      && StillOffers(t, w) && t.closed == s.closed && t.readers == s.readers
      && (t.writers[w].phase.Testing? ==> t.writers[w].phase.test == s.writers[w].phase.test + 1)
  {
    assert WriterOk(s.closed, s.writers[w]);
  }

  lemma ReadStep(s: State, r: nat)
    requires Inv(s) && StillReceives(s, r) && s.readers[r].phase.Peeking?
    ensures Enabled(s, Peek(r, false))
    ensures var t := Do(s, Peek(r, false));
      && StillReceives(t, r) && t.closed == s.closed && t.writers == s.writers
      && (t.readers[r].phase.Peeking? ==> t.readers[r].phase.test == s.readers[r].phase.test + 1)
  {
    assert ReaderOk(s.closed, s.delivered, s.readers[r]);
  }

  function TestsLeft(p: WritePhase): nat {
    if p.Testing? && p.test <= 2 then 3 - p.test else 0
  }

  function PeeksLeft(p: ReadPhase): nat {
    if p.Peeking? && p.test <= 3 then 4 - p.test else 0
  }

  lemma {:induction false} NextTest(run: seq<Action>, w: nat) returns (next: seq<Action>)
    requires Reached(run).Some? && StillOffers(Reached(run).value, w) && Reached(run).value.writers[w].phase.Testing?
    ensures next == run + [TestClosed(w)] && Reached(next).Some? && StillOffers(Reached(next).value, w)
    ensures var s, t := Reached(run).value, Reached(next).value;
      && t.closed == s.closed && t.readers == s.readers
      && TestsLeft(t.writers[w].phase) < TestsLeft(s.writers[w].phase)
  {
    RunsKeep(run);
    assert WriterOk(Reached(run).value.closed, Reached(run).value.writers[w]);
    WriteStep(Reached(run).value, w);
    Extended(run, TestClosed(w));
    next := run + [TestClosed(w)];
  }

  lemma {:induction false} NextPeek(run: seq<Action>, r: nat) returns (next: seq<Action>)
    requires Reached(run).Some? && StillReceives(Reached(run).value, r) && Reached(run).value.readers[r].phase.Peeking?
    ensures next == run + [Peek(r, false)] && Reached(next).Some? && StillReceives(Reached(next).value, r)
    ensures var s, t := Reached(run).value, Reached(next).value;
      && t.closed == s.closed && t.writers == s.writers
      && PeeksLeft(t.readers[r].phase) < PeeksLeft(s.readers[r].phase)
  {
    RunsKeep(run);
    assert ReaderOk(Reached(run).value.closed, Reached(run).value.delivered, Reached(run).value.readers[r]);
    ReadStep(Reached(run).value, r);
    Extended(run, Peek(r, false));
    next := run + [Peek(r, false)];
  }

  lemma {:induction false} WriteGetsThere(run: seq<Action>, w: nat) returns (more: seq<Action>)
    requires Reached(run).Some? && StillOffers(Reached(run).value, w)
    ensures Reached(run + more).Some?
    ensures var s, t := Reached(run).value, Reached(run + more).value;
      w < |t.writers| && t.writers[w].phase.Offering? && t.closed == s.closed && t.readers == s.readers
    decreases TestsLeft(Reached(run).value.writers[w].phase)
  {
    if Reached(run).value.writers[w].phase.Offering? {
      more := [];
      assert run + more == run;
    } else {
      var next := NextTest(run, w);
      var rest := WriteGetsThere(next, w);
      more := [TestClosed(w)] + rest;
      assert run + more == next + rest;
    }
  }

  lemma {:induction false} ReadGetsThere(run: seq<Action>, r: nat) returns (more: seq<Action>)
    requires Reached(run).Some? && StillReceives(Reached(run).value, r)
    ensures Reached(run + more).Some?
    ensures var s, t := Reached(run).value, Reached(run + more).value;
      r < |t.readers| && t.readers[r].phase.Receiving? && t.closed == s.closed && t.writers == s.writers
    decreases PeeksLeft(Reached(run).value.readers[r].phase)
  {
    if Reached(run).value.readers[r].phase.Receiving? {
      more := [];
      assert run + more == run;
    } else {
      var next := NextPeek(run, r);
      var rest := ReadGetsThere(next, r);
      more := [Peek(r, false)] + rest;
      assert run + more == next + rest;
    }
  }

  // ---------------------------------------------------------------- the exact condition

  ghost predicate MeetAfter(run: seq<Action>, more: seq<Action>, w: nat, r: nat) {
    Reached(run + more).Some? && Enabled(Reached(run + more).value, Meet(w, r))
  }

  lemma BothGetThere(run: seq<Action>, w: nat, r: nat) returns (more: seq<Action>)
    requires Reached(run).Some? && StillOffers(Reached(run).value, w) && StillReceives(Reached(run).value, r)
    ensures MeetAfter(run, more, w, r)
  {
    var first := WriteGetsThere(run, w);
    var second := ReadGetsThere(run + first, r);
    more := first + second;
    assert run + more == run + first + second;
  }

  /** After any close, in every run, a write and a read can still come to move a chunk exactly when
      each is in its select or past the tests of every channel closed by now. */
  lemma {:induction false} ClosedPipeMovesExactly(run: seq<Action>, w: nat, r: nat)
    requires Reached(run).Some? && Reached(run).value.closed.Any()
    ensures (exists more :: MeetAfter(run, more, w, r)) <==>
      StillOffers(Reached(run).value, w) && StillReceives(Reached(run).value, r)
  {
    if StillOffers(Reached(run).value, w) && StillReceives(Reached(run).value, r) {
      var more := BothGetThere(run, w, r);
    }
    forall more | MeetAfter(run, more, w, r)
      ensures StillOffers(Reached(run).value, w) && StillReceives(Reached(run).value, r)
    {
      LostForGood(run, more, w, r);
    }
  }

  // ---------------------------------------------------------------- end of file

  /** A call that is not among the calls of `s` was made later, with what was closed then closed. */
  ghost predicate LaterCallsLate(s: State, t: State) {
    && t.closed.Any() && |s.writers| <= |t.writers| && |s.readers| <= |t.readers|
    && (forall w :: |s.writers| <= w < |t.writers| ==> t.writers[w].begun.Any())
    && (forall r :: |s.readers| <= r < |t.readers| ==> t.readers[r].begun.Any())
  }

  lemma LaterStep(s: State, t: State, a: Action)
    requires LaterCallsLate(s, t) && Enabled(t, a)
    ensures LaterCallsLate(s, Do(t, a))
  {
  }

  lemma {:induction false} LaterCallsAreLate(run: seq<Action>, more: seq<Action>)
    requires Reached(run).Some? && Reached(run + more).Some? && Reached(run).value.closed.Any()
    ensures LaterCallsLate(Reached(run).value, Reached(run + more).value)
    decreases |more|
  {
    if more == [] {
      assert run + more == run;
    } else {
      var front, a := BeforeLast(run, more);
      LaterCallsAreLate(run, front);
      LaterStep(Reached(run).value, Reached(run + front).value, a);
    }
  }

  /** Once a reader was told end of file, no read called afterwards gets a byte and no write called
      afterwards is counted, however the run goes on. */
  lemma {:induction false} EndOfFileIsFinal(run: seq<Action>, more: seq<Action>, told: nat)
    requires Reached(run).Some? && told < |Reached(run).value.readers|
    requires Reached(run).value.readers[told].phase == ReadFailed(EOF)
    requires Reached(run + more).Some?
    ensures var s, t := Reached(run).value, Reached(run + more).value;
      && (forall r :: |s.readers| <= r < |t.readers| ==> !t.readers[r].phase.ReadEnded? && !t.readers[r].phase.Acking?)
      && (forall w :: |s.writers| <= w < |t.writers| ==> Written(t.writers[w]) == [])
  {
    EndOfFileTruncatesNothing(run, told);
    LaterCallsAreLate(run, more);
    RunsKeep(run + more);
    var s, t := Reached(run).value, Reached(run + more).value;
    forall r | |s.readers| <= r < |t.readers|
      ensures !t.readers[r].phase.ReadEnded? && !t.readers[r].phase.Acking?
    {
      assert ReaderOk(t.closed, t.delivered, t.readers[r]);
    }
    forall w | |s.writers| <= w < |t.writers| ensures Written(t.writers[w]) == [] {
      assert WriterOk(t.closed, t.writers[w]);
    }
  }

  // ---------------------------------------------------------------- two runs

  lemma {:induction false} Extended(run: seq<Action>, a: Action)
    requires Reached(run).Some? && Enabled(Reached(run).value, a)
    ensures Reached(run + [a]) == Some(Do(Reached(run).value, a))
  {
    var all := run + [a];
    assert all[..|all| - 1] == run && all[|all| - 1] == a;
  }

  const ONE: Bytes := [1]
  const OPEN := Closed(false, false, false)
  const ALL_CLOSED := Closed(true, true, true)

  /** One write of a byte and one read with room for it, and nothing moved yet. */
  ghost predicate OneCallEach(s: State, closed: Closed, w: WritePhase, r: ReadPhase) {
    && s.closed == closed && s.delivered == []
    && s.writers == [Writer(ONE, OPEN, w)] && s.readers == [Reader(1, OPEN, r)]
  }

  lemma WriteOffers() returns (run: seq<Action>)
    ensures Reached(run).Some?
    ensures var s := Reached(run).value;
      s.closed == OPEN && s.delivered == [] && s.writers == [Writer(ONE, OPEN, Offering(0))] && s.readers == []
  {
    run := [];
    Extended(run, CallWrite(ONE));
    run := run + [CallWrite(ONE)];
    Extended(run, TakeLock(0));
    run := run + [TakeLock(0)];
    run := Tested3(run);
  }

  lemma Tested3(run: seq<Action>) returns (run': seq<Action>)
    requires Reached(run).Some?
    requires var s := Reached(run).value;
      s.closed == OPEN && s.delivered == [] && s.writers == [Writer(ONE, OPEN, Testing(0, 0))] && s.readers == []
    ensures Reached(run').Some?
    ensures var s := Reached(run').value;
      s.closed == OPEN && s.delivered == [] && s.writers == [Writer(ONE, OPEN, Offering(0))] && s.readers == []
  {
    run' := run;
    for k := 0 to 3
      invariant Reached(run').Some?
      invariant var s := Reached(run').value;
        && s.closed == OPEN && s.delivered == [] && s.readers == []
        && s.writers == [Writer(ONE, OPEN, if k < 3 then Testing(k, 0) else Offering(0))]
    {
      Extended(run', TestClosed(0));
      run' := run' + [TestClosed(0)];
    }
  }

  lemma ReadReceives(run: seq<Action>) returns (run': seq<Action>)
    requires Reached(run).Some? && OneCallEach(Reached(run).value, OPEN, Offering(0), Peeking(0))
    ensures Reached(run').Some? && OneCallEach(Reached(run').value, OPEN, Offering(0), Receiving)
  {
    run' := run;
    for k := 0 to 4
      invariant Reached(run').Some?
      invariant OneCallEach(Reached(run').value, OPEN, Offering(0), if k < 4 then Peeking(k) else Receiving)
    {
      Extended(run', Peek(0, false));
      run' := run' + [Peek(0, false)];
    }
  }

  /** A run in which both ends close, and the half-close too, while a write and a read wait in their
      selects; the byte still moves. */
  lemma ChunkMovesAfterClose() returns (run: seq<Action>)
    ensures Reached(run).Some? && OneCallEach(Reached(run).value, ALL_CLOSED, Offering(0), Receiving)
    ensures Reached(run + [Meet(0, 0)]).Some? && Reached(run + [Meet(0, 0)]).value.delivered == ONE
  {
    run := WriteOffers();
    Extended(run, CallRead(1));
    run := run + [CallRead(1)];
    run := ReadReceives(run);
    Extended(run, Shut(ALL_CLOSED));
    run := run + [Shut(ALL_CLOSED)];
    Extended(run, Meet(0, 0));
  }

  lemma WriteTested() returns (run: seq<Action>)
    ensures Reached(run).Some?
    ensures var s := Reached(run).value;
      s.closed == OPEN && s.delivered == [] && s.writers == [Writer(ONE, OPEN, Testing(1, 0))] && s.readers == []
  {
    run := [];
    Extended(run, CallWrite(ONE));
    run := run + [CallWrite(ONE)];
    Extended(run, TakeLock(0));
    run := run + [TakeLock(0)];
    Extended(run, TestClosed(0));
    run := run + [TestClosed(0)];
  }

  /** The write has passed its test of the writing end, the read its tests of both ends. */
  lemma BothPastTheWriter() returns (run: seq<Action>)
    ensures Reached(run).Some? && OneCallEach(Reached(run).value, OPEN, Testing(1, 0), Peeking(2))
  {
    run := WriteTested();
    run := StepOn(run, CallRead(1), OPEN, Testing(1, 0), Peeking(0));
    run := StepOn(run, Peek(0, false), OPEN, Testing(1, 0), Peeking(1));
    run := StepOn(run, Peek(0, false), OPEN, Testing(1, 0), Peeking(2));
  }

  /** A run in which neither call is in its select when the writing end closes; the byte still moves. */
  lemma ChunkMovesPastItsTests() returns (run: seq<Action>, more: seq<Action>)
    ensures Reached(run).Some?
    ensures OneCallEach(Reached(run).value, Closed(true, false, false), Testing(1, 0), Peeking(2))
    ensures more == [TestClosed(0), TestClosed(0), Peek(0, false), Peek(0, false), Meet(0, 0)]
    ensures Reached(run + more).Some? && Reached(run + more).value.delivered == ONE
  {
    var shut := Closed(true, false, false);
    run := BothPastTheWriter();
    run := StepOn(run, Shut(shut), shut, Testing(1, 0), Peeking(2));
    var now := StepOn(run, TestClosed(0), shut, Testing(2, 0), Peeking(2));
    now := StepOn(now, TestClosed(0), shut, Offering(0), Peeking(2));
    now := StepOn(now, Peek(0, false), shut, Offering(0), Peeking(3));
    now := StepOn(now, Peek(0, false), shut, Offering(0), Receiving);
    Extended(now, Meet(0, 0));
    more := [TestClosed(0), TestClosed(0), Peek(0, false), Peek(0, false), Meet(0, 0)];
    assert run + more == now + [Meet(0, 0)];
  }

  lemma StepOn(run: seq<Action>, a: Action, closed: Closed, w: WritePhase, r: ReadPhase) returns (next: seq<Action>)
    requires Reached(run).Some? && Enabled(Reached(run).value, a)
    requires OneCallEach(Do(Reached(run).value, a), closed, w, r)
    ensures next == run + [a] && Reached(next).Some? && OneCallEach(Reached(next).value, closed, w, r)
  {
    Extended(run, a);
    next := run + [a];
  }
}
