/** One way of the half-closing pipe (internal/core/bridge_pipe.go): any number of `Write` calls on
    one end and `Read` calls on the other, stepping between their channel operations in any order.
    The two ways share nothing but the closed channels, which close here at any moment. */
module BridgePipe {

  import opened Text

  type Bytes = seq<bv8>

  /** `localDone` of the writing end, its `writeDone`, and `localDone` of the reading end. */
  datatype Closed = Closed(writer: bool, halfWriter: bool, reader: bool) {
    predicate Any() {
      writer || halfWriter || reader
    }

    predicate Within(later: Closed) {
      (writer ==> later.writer) && (halfWriter ==> later.halfWriter) && (reader ==> later.reader)
    }
  }

  /** Where a `Write` stands: before the mutex, at one of the three closed tests of an iteration, in
      the select, waiting for the count taken, or back with its count and whether it failed. `n` is
      the count so far. */
  datatype WritePhase =
    | Queued
    | Testing(test: nat, n: nat)
    | Offering(n: nat)
    | Awaiting(n: nat)
    | WriteEnded(n: nat, failed: bool)

  datatype Why = ClosedPipe | EOF | DeadlineExceeded

  /** Where a `Read` stands. `at` is the place in the stream of the bytes it copied. */
  datatype ReadPhase =
    | Peeking(test: nat)
    | Receiving
    | Acking(at: nat, data: Bytes)
    | ReadEnded(at: nat, data: Bytes)
    | ReadFailed(why: Why)

  /** `begun` records what was closed when the call was made. */
  datatype Writer = Writer(buf: Bytes, begun: Closed, phase: WritePhase)
  datatype Reader = Reader(room: nat, begun: Closed, phase: ReadPhase)

  /** The pipe and its calls; then the record of the run: the writers in the order they took the
      mutex, the bytes counted by writers, the bytes copied by readers, and the reader that has
      taken a chunk and not yet answered. */
  datatype State = State(
    closed: Closed,
    lock: Option<nat>,
    writers: seq<Writer>,
    readers: seq<Reader>,
    order: seq<nat>,
    acked: Bytes,
    delivered: Bytes,
    shake: Option<nat>)

  const START := State(Closed(false, false, false), None, [], [], [], [], [], None)

  datatype Action =
    | CallWrite(buf: Bytes)
    | TakeLock(w: nat)
    | TestClosed(w: nat)
    | StopOffering(w: nat)
    | CallRead(room: nat)
    | Peek(r: nat, expired: bool)
    | StopReceiving(r: nat, why: Why)
    | Meet(w: nat, r: nat)
    | Answer(w: nat, r: nat)
    | Shut(also: Closed)

  predicate MayEndReceiving(c: Closed, why: Why) {
    match why
    case ClosedPipe => c.reader
    case EOF => c.writer || c.halfWriter
    case DeadlineExceeded => true
  }

  predicate Enabled(s: State, a: Action) {
    match a
    case CallWrite(_) => true
    case TakeLock(w) => w < |s.writers| && s.writers[w].phase.Queued? && s.lock.None?
    case TestClosed(w) => w < |s.writers| && s.writers[w].phase.Testing?
    case StopOffering(w) => w < |s.writers| && s.writers[w].phase.Offering? && s.closed.Any()
    case CallRead(_) => true
    case Peek(r, _) => r < |s.readers| && s.readers[r].phase.Peeking?
    case StopReceiving(r, why) => r < |s.readers| && s.readers[r].phase.Receiving? && MayEndReceiving(s.closed, why)
    case Meet(w, r) =>
      && w < |s.writers| && s.writers[w].phase.Offering?
      && r < |s.readers| && s.readers[r].phase.Receiving?
    case Answer(w, r) =>
      && w < |s.writers| && s.writers[w].phase.Awaiting?
      && r < |s.readers| && s.readers[r].phase.Acking?
    case Shut(_) => true
  }

  function At(s: State, w: nat, phase: WritePhase): State
    requires w < |s.writers|
  {
    s.(writers := s.writers[w := s.writers[w].(phase := phase)])
  }

  function ReadAt(s: State, r: nat, phase: ReadPhase): State
    requires r < |s.readers|
  {
    s.(readers := s.readers[r := s.readers[r].(phase := phase)])
  }

  function WriteEnds(s: State, w: nat, n: nat, failed: bool): State
    requires w < |s.writers|
  {
    At(s, w, WriteEnded(n, failed)).(lock := None)
  }

  function Tested(c: Closed, test: nat): bool {
    if test == 0 then c.writer else if test == 1 then c.halfWriter else c.reader
  }

  function AfterTest(s: State, w: nat, test: nat, n: nat): State
    requires w < |s.writers|
  {
    if Tested(s.closed, test) then WriteEnds(s, w, n, true)
    else if test < 2 then At(s, w, Testing(test + 1, n))
    else At(s, w, Offering(n))
  }

  function AfterPeek(s: State, r: nat, test: nat, expired: bool): State
    requires r < |s.readers|
  {
    if test == 0 then ReadAt(s, r, if s.closed.reader then ReadFailed(ClosedPipe) else Peeking(1))
    else if test == 1 then ReadAt(s, r, if s.closed.writer then ReadFailed(EOF) else Peeking(2))
    else if test == 2 then ReadAt(s, r, if s.closed.halfWriter then ReadFailed(EOF) else Peeking(3))
    else ReadAt(s, r, if expired then ReadFailed(DeadlineExceeded) else Receiving)
  }

  /** What `copy` moves of the rest of a buffer. */
  function Chunk(buf: Bytes, n: nat, room: nat): Bytes {
    if n + room <= |buf| then buf[n..n + room] else if n <= |buf| then buf[n..] else []
  }

  function AfterMeet(s: State, w: nat, r: nat, n: nat): State
    requires w < |s.writers| && r < |s.readers|
  {
    var data := Chunk(s.writers[w].buf, n, s.readers[r].room);
    ReadAt(At(s, w, Awaiting(n)), r, Acking(|s.delivered|, data)).(delivered := s.delivered + data, shake := Some(r))
  }

  function AfterAnswer(s: State, w: nat, r: nat, n: nat, at: nat, data: Bytes): State
    requires w < |s.writers| && r < |s.readers|
  {
    var t := ReadAt(s, r, ReadEnded(at, data)).(acked := s.acked + data, shake := None);
    var m := n + |data|;
    if m < |s.writers[w].buf| then At(t, w, Testing(0, m)) else WriteEnds(t, w, m, false)
  }

  function Do(s: State, a: Action): State
    requires Enabled(s, a)
  {
    match a
    case CallWrite(buf) => s.(writers := s.writers + [Writer(buf, s.closed, Queued)])
    case TakeLock(w) => At(s, w, Testing(0, 0)).(lock := Some(w), order := s.order + [w])
    case TestClosed(w) => AfterTest(s, w, s.writers[w].phase.test, s.writers[w].phase.n)
    case StopOffering(w) => WriteEnds(s, w, s.writers[w].phase.n, true)
    case CallRead(room) => s.(readers := s.readers + [Reader(room, s.closed, Peeking(0))])
    case Peek(r, expired) => AfterPeek(s, r, s.readers[r].phase.test, expired)
    case StopReceiving(r, why) => ReadAt(s, r, ReadFailed(why))
    case Meet(w, r) => AfterMeet(s, w, r, s.writers[w].phase.n)
    case Answer(w, r) => AfterAnswer(s, w, r, s.writers[w].phase.n, s.readers[r].phase.at, s.readers[r].phase.data)
    case Shut(also) =>
      s.(closed := Closed(
           s.closed.writer || also.writer, s.closed.halfWriter || also.halfWriter, s.closed.reader || also.reader))
  }

  function Reached(run: seq<Action>): Option<State> {
    if run == [] then Some(START) else
    match Reached(run[..|run| - 1])
    case None => None
    case Some(s) => if Enabled(s, run[|run| - 1]) then Some(Do(s, run[|run| - 1])) else None
  }

  // ---------------------------------------------------------------- what every run keeps

  function CountOf(p: WritePhase): nat {
    match p
    case Queued => 0
    case Testing(_, n) => n
    case Offering(n) => n
    case Awaiting(n) => n
    case WriteEnded(n, _) => n
  }

  predicate Inside(p: WritePhase) {
    p.Testing? || p.Offering? || p.Awaiting?
  }

  /** What a write closed before it was called can have reached: its first tests, or its failure. */
  predicate LateWrite(begun: Closed, p: WritePhase) {
    match p
    case Queued => true
    case Testing(test, n) => n == 0 && (begun.writer ==> test == 0) && (begun.halfWriter ==> test <= 1)
    case Offering(_) => false
    case Awaiting(_) => false
    case WriteEnded(n, failed) => n == 0 && failed
  }

  predicate WriterOk(c: Closed, w: Writer) {
    && w.begun.Within(c)
    && CountOf(w.phase) <= |w.buf|
    && (w.phase.Testing? ==> w.phase.test <= 2)
    && (w.begun.Any() ==> LateWrite(w.begun, w.phase))
    && (w.phase.WriteEnded? && !w.phase.failed ==> w.phase.n == |w.buf|)
    && (w.phase.WriteEnded? && w.phase.failed ==> c.Any())
  }

  predicate LateRead(begun: Closed, p: ReadPhase) {
    match p
    case Peeking(test) =>
      (begun.reader ==> test == 0) && (begun.writer ==> test <= 1) && (begun.halfWriter ==> test <= 2)
    case Receiving => false
    case Acking(_, _) => false
    case ReadEnded(_, _) => false
    case ReadFailed(why) => if begun.reader then why.ClosedPipe? else !why.DeadlineExceeded?
  }

  predicate Slice(all: Bytes, at: nat, data: Bytes) {
    at + |data| <= |all| && all[at..at + |data|] == data
  }

  predicate ReaderOk(c: Closed, delivered: Bytes, r: Reader) {
    && r.begun.Within(c)
    && (r.phase.Peeking? ==> r.phase.test <= 3)
    && (r.begun.Any() ==> LateRead(r.begun, r.phase))
    && (r.phase.Acking? || r.phase.ReadEnded? ==>
        Slice(delivered, r.phase.at, r.phase.data) && |r.phase.data| <= r.room)
    && (r.phase.ReadFailed? ==> MayEndReceiving(c, r.phase.why))
  }

  predicate CallsOk(s: State) {
    && (forall w :: 0 <= w < |s.writers| ==> WriterOk(s.closed, s.writers[w]))
    && (forall r :: 0 <= r < |s.readers| ==> ReaderOk(s.closed, s.delivered, s.readers[r]))
  }

  predicate LockOk(s: State) {
    && (s.lock.Some? ==> s.lock.value < |s.writers|)
    && forall w :: 0 <= w < |s.writers| ==> (Inside(s.writers[w].phase) <==> s.lock == Some(w))
  }

  /** A chunk in hand: one reader has it, and the holder of the mutex waits for that reader. */
  predicate ShakeOk(s: State) {
    && (s.shake.Some? ==> s.shake.value < |s.readers|)
    && (forall r :: 0 <= r < |s.readers| ==> (s.readers[r].phase.Acking? <==> s.shake == Some(r)))
    && (s.shake.Some? <==> s.lock.Some? && s.lock.value < |s.writers| && s.writers[s.lock.value].phase.Awaiting?)
  }

  function InHand(s: State): Bytes {
    if s.shake.Some? && s.shake.value < |s.readers| && s.readers[s.shake.value].phase.Acking?
    then s.readers[s.shake.value].phase.data else []
  }

  predicate HandOk(s: State) {
    s.shake.Some? ==>
      && LockOk(s) && ShakeOk(s)
      && Slice(s.writers[s.lock.value].buf, s.writers[s.lock.value].phase.n, InHand(s))
  }

  predicate StreamOk(s: State) {
    s.delivered == s.acked + InHand(s)
  }

  function Written(w: Writer): Bytes {
    if CountOf(w.phase) <= |w.buf| then w.buf[..CountOf(w.phase)] else w.buf
  }

  function Counted(order: seq<nat>, ws: seq<Writer>): Bytes {
    if order == [] then [] else
    Counted(order[..|order| - 1], ws) +
    if order[|order| - 1] < |ws| then Written(ws[order[|order| - 1]]) else []
  }

  ghost predicate OrderOk(s: State) {
    && (forall i, j :: 0 <= i < j < |s.order| ==> s.order[i] != s.order[j])
    && (forall i :: 0 <= i < |s.order| ==> s.order[i] < |s.writers|)
    && (forall w :: 0 <= w < |s.writers| ==> (w in s.order <==> !s.writers[w].phase.Queued?))
    && (s.lock.Some? ==> s.order != [] && s.order[|s.order| - 1] == s.lock.value)
    && s.acked == Counted(s.order, s.writers)
  }

  ghost predicate Inv(s: State) {
    CallsOk(s) && LockOk(s) && ShakeOk(s) && HandOk(s) && StreamOk(s) && OrderOk(s)
  }
}
