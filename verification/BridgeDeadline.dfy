/** The movable read deadline (internal/core/bridge_flow.go): `set` and `wait` under the mutex, and
    timers that fire and close their channel whenever they like. */
module BridgeDeadline {

  import opened Text

  /** A timer from `time.AfterFunc`: once it has fired its function runs on a goroutine of its own,
      which has not (`Firing`) or has (`Fired`) closed the channel. */
  datatype TimerPhase = Armed | Firing | Fired | Stopped
  datatype Timer = Timer(target: nat, phase: TimerPhase)

  /** Where the holder of the mutex stands in `set`: before stopping the timer, waiting for a timer
      it came too late for, before looking at the channel, and with what it saw. */
  datatype SetPhase = Stopping | Draining | Looking | Acting(closed: bool)

  /** `expired` is the current channel, `timer` the field. `closes` counts the closes of every
      channel made; `waiters` records the channel each `wait` returned. */
  datatype State = State(
    expired: nat,
    timer: Option<nat>,
    holder: Option<SetPhase>,
    closes: seq<nat>,
    timers: seq<Timer>,
    waiters: seq<nat>)

  const START := State(0, None, None, [0], [], [])

  /** The deadline asked for, told from the clock when it is acted on. */
  datatype Deadline = Never | Ahead | Past

  datatype Action =
    | Enter
    | StopTimer
    | Drained
    | Look
    | Act(deadline: Deadline)
    | Wait
    | Fire(fired: nat)
    | CloseBy(closing: nat)

  predicate Shut(s: State, c: nat) {
    c < |s.closes| && s.closes[c] > 0
  }

  predicate Enabled(s: State, a: Action) {
    match a
    case Enter => s.holder.None?
    case StopTimer => s.holder == Some(Stopping)
    case Drained => s.holder == Some(Draining) && Shut(s, s.expired)
    case Look => s.holder == Some(Looking)
    case Act(_) => s.holder.Some? && s.holder.value.Acting?
    case Wait => s.holder.None?
    case Fire(i) => i < |s.timers| && s.timers[i].phase == Armed
    case CloseBy(i) => i < |s.timers| && s.timers[i].phase == Firing
  }

  function Set(s: State, i: nat, phase: TimerPhase): State
    requires i < |s.timers|
  {
    s.(timers := s.timers[i := s.timers[i].(phase := phase)])
  }

  function AfterStop(s: State): State {
    match s.timer
    case None => s.(holder := Some(Looking))
    case Some(i) =>
      if i < |s.timers| && s.timers[i].phase == Armed then Set(s, i, Stopped).(holder := Some(Looking), timer := None)
      else s.(holder := Some(Draining))
  }

  /** The current channel, or a new one in place of a closed one. */
  function Renewed(s: State, closed: bool): State {
    if closed then s.(expired := |s.closes|, closes := s.closes + [0]) else s
  }

  function Close(closes: seq<nat>, c: nat): seq<nat> {
    if c < |closes| then closes[c := closes[c] + 1] else closes
  }

  function AfterAct(s: State, closed: bool, deadline: Deadline): State {
    match deadline
    case Never => Renewed(s, closed).(holder := None)
    case Ahead =>
      var t := Renewed(s, closed);
      t.(holder := None, timer := Some(|t.timers|), timers := t.timers + [Timer(t.expired, Armed)])
    case Past =>
      if closed then s.(holder := None) else s.(holder := None, closes := Close(s.closes, s.expired))
  }

  function Do(s: State, a: Action): State
    requires Enabled(s, a)
  {
    match a
    case Enter => s.(holder := Some(Stopping))
    case StopTimer => AfterStop(s)
    case Drained => s.(holder := Some(Looking), timer := None)
    case Look => s.(holder := Some(Acting(Shut(s, s.expired))))
    case Act(deadline) => AfterAct(s, s.holder.value.closed, deadline)
    case Wait => s.(waiters := s.waiters + [s.expired])
    case Fire(i) => Set(s, i, Firing)
    case CloseBy(i) => Set(s, i, Fired).(closes := Close(s.closes, s.timers[i].target))
  }

  function Reached(run: seq<Action>): Option<State> {
    if run == [] then Some(START) else
    match Reached(run[..|run| - 1])
    case None => None
    case Some(s) => if Enabled(s, run[|run| - 1]) then Some(Do(s, run[|run| - 1])) else None
  }

  // ---------------------------------------------------------------- what every run keeps

  predicate Live(t: Timer) {
    t.phase == Armed || t.phase == Firing
  }

  predicate ChannelsOk(s: State) {
    && s.expired < |s.closes|
    && (forall c :: 0 <= c < |s.closes| ==> s.closes[c] <= 1)
    && (forall c :: 0 <= c < |s.closes| && c != s.expired ==> s.closes[c] == 1)
    && (forall k :: 0 <= k < |s.waiters| ==> s.waiters[k] < |s.closes|)
  }

  predicate FieldOk(s: State, i: nat) {
    && i < |s.timers| && s.timers[i].target == s.expired && s.timers[i].phase != Stopped
    && (Live(s.timers[i]) <==> !Shut(s, s.expired))
  }

  predicate TimersOk(s: State) {
    && (s.timer.Some? ==> FieldOk(s, s.timer.value))
    && (forall i :: 0 <= i < |s.timers| ==> s.timers[i].target < |s.closes|)
    && (forall i :: 0 <= i < |s.timers| && Live(s.timers[i]) ==> s.timer == Some(i))
  }

  predicate HolderOk(s: State) {
    match s.holder
    case None => true
    case Some(Stopping) => true
    case Some(Draining) => s.timer.Some? && s.timer.value < |s.timers| && s.timers[s.timer.value].phase != Armed
    case Some(Looking) => s.timer.None?
    case Some(Acting(closed)) => s.timer.None? && closed == Shut(s, s.expired)
  }

  predicate Inv(s: State) {
    ChannelsOk(s) && TimersOk(s) && HolderOk(s)
  }

  lemma StepKeeps(s: State, a: Action)
    requires Inv(s) && Enabled(s, a)
    ensures Inv(Do(s, a))
  {
    match a
    case Act(deadline) => ActKeeps(s, deadline);
    case StopTimer => StopKeeps(s);
    case CloseBy(i) => CloseByKeeps(s, i);
    case _ =>
  }

  lemma ActKeeps(s: State, deadline: Deadline)
    requires Inv(s) && Enabled(s, Act(deadline))
    ensures Inv(Do(s, Act(deadline)))
  {
  }

  lemma StopKeeps(s: State)
    requires Inv(s) && Enabled(s, StopTimer)
    ensures Inv(Do(s, StopTimer))
  {
  }

  lemma CloseByKeeps(s: State, i: nat)
    requires Inv(s) && Enabled(s, CloseBy(i))
    ensures Inv(Do(s, CloseBy(i)))
  {
  }

  lemma {:induction false} RunsKeep(run: seq<Action>)
    requires Reached(run).Some?
    ensures Inv(Reached(run).value)
  {
    if run != [] {
      RunsKeep(run[..|run| - 1]);
      StepKeeps(Reached(run[..|run| - 1]).value, run[|run| - 1]);
    }
  }

  // ---------------------------------------------------------------- the promises

  /** No channel is closed twice, whatever timers and callers do. */
  lemma {:induction false} NoChannelIsClosedTwice(run: seq<Action>, c: nat)
    requires Reached(run).Some? && c < |Reached(run).value.closes|
    ensures Reached(run).value.closes[c] <= 1
  {
    RunsKeep(run);
  }

  /** A timer still to close its channel is the one in the field, and its channel is the current one,
      open. */
  lemma {:induction false} OneLiveTimerForTheCurrentChannel(run: seq<Action>, i: nat)
    requires Reached(run).Some? && i < |Reached(run).value.timers| && Live(Reached(run).value.timers[i])
    ensures var s := Reached(run).value;
      s.timer == Some(i) && s.timers[i].target == s.expired && !Shut(s, s.expired)
  {
    RunsKeep(run);
  }

  /** A read waiting on a channel `wait` gave it either holds the current channel, which the latest
      deadline will close, or its channel is closed already. */
  lemma {:induction false} WaiterSeesTheLatestDeadline(run: seq<Action>, k: nat)
    requires Reached(run).Some? && k < |Reached(run).value.waiters|
    ensures var s := Reached(run).value; s.waiters[k] == s.expired || Shut(s, s.waiters[k])
  {
    RunsKeep(run);
  }

  /** `wait` gives the current channel: open until the deadline in force runs out. */
  lemma {:induction false} WaitGivesTheCurrentChannel(run: seq<Action>)
    requires Reached(run).Some? && Enabled(Reached(run).value, Wait)
    ensures var s, t := Reached(run).value, Do(Reached(run).value, Wait);
      && |t.waiters| == |s.waiters| + 1 && t.waiters[|s.waiters|] == t.expired == s.expired
      && (forall i :: 0 <= i < |t.timers| && Live(t.timers[i]) ==> !Shut(t, t.waiters[|s.waiters|]))
  {
    RunsKeep(run);
  }

  /** The channel is replaced only when it was closed. */
  lemma {:induction false} ReplacedOnlyIfClosed(run: seq<Action>, a: Action)
    requires Reached(run).Some? && Enabled(Reached(run).value, a)
    ensures var s := Reached(run).value;
      Do(s, a).expired != s.expired ==>
        Shut(s, s.expired) && Do(s, a).expired == |s.closes| && !Shut(Do(s, a), Do(s, a).expired)
  {
    RunsKeep(run);
  }

  /** How `set` leaves the deadline: open with no timer, open with one armed timer of its own, or closed. */
  lemma {:induction false} SetTakesEffect(run: seq<Action>, deadline: Deadline)
    requires Reached(run).Some? && Enabled(Reached(run).value, Act(deadline))
    ensures var t := Do(Reached(run).value, Act(deadline));
      && t.holder.None?
      && (Shut(t, t.expired) <==> deadline.Past?)
      && (deadline.Ahead? ==>
          t.timer.Some? && t.timer.value < |t.timers| && t.timers[t.timer.value] == Timer(t.expired, Armed))
      && (!deadline.Ahead? ==> t.timer.None? && forall i :: 0 <= i < |t.timers| ==> !Live(t.timers[i]))
  {
    RunsKeep(run);
  }

  /** `set` never waits for a close that will not come: the channel is closed, or the timer that
      closes it is on its way. */
  lemma {:induction false} SetNeverWaitsForEver(run: seq<Action>)
    requires Reached(run).Some? && Reached(run).value.holder == Some(Draining)
    ensures var s := Reached(run).value;
      || Enabled(s, Drained)
      || (&& s.timer.Some? && Enabled(s, CloseBy(s.timer.value))
          && Enabled(Do(s, CloseBy(s.timer.value)), Drained))
  {
    RunsKeep(run);
  }

  lemma Next(run: seq<Action>, a: Action)
    requires Reached(run).Some? && Enabled(Reached(run).value, a)
    ensures Reached(run + [a]) == Some(Do(Reached(run).value, a))
  {
    assert (run + [a])[..|run|] == run;
  }

  /** A deadline that is set runs out: its timer can fire, and then the channel every waiter holds is
      closed. */
  lemma {:induction false} SetDeadlineRunsOut(run: seq<Action>, i: nat)
    requires Reached(run).Some? && i < |Reached(run).value.timers| && Reached(run).value.timers[i].phase == Armed
    ensures Reached(run + [Fire(i)] + [CloseBy(i)]).Some?
    ensures var s := Reached(run + [Fire(i)] + [CloseBy(i)]).value;
      Shut(s, s.expired) && s.waiters == Reached(run).value.waiters
      && forall k :: 0 <= k < |s.waiters| ==> Shut(s, s.waiters[k])
  {
    RunsKeep(run);
    Next(run, Fire(i));
    Next(run + [Fire(i)], CloseBy(i));
    RunsKeep(run + [Fire(i)] + [CloseBy(i)]);
    OneLiveTimerForTheCurrentChannel(run, i);
    forall k | 0 <= k < |Reached(run).value.waiters|
      ensures Shut(Reached(run + [Fire(i)] + [CloseBy(i)]).value, Reached(run).value.waiters[k])
    {
      WaiterSeesTheLatestDeadline(run, k);
    }
  }

  /** The moves `set` has before it, at most. */
  function MovesLeft(p: SetPhase): nat {
    match p
    case Stopping => 4
    case Draining => 3
    case Looking => 2
    case Acting(_) => 0
  }

  lemma {:induction false} SetMovesOn(run: seq<Action>) returns (next: seq<Action>)
    requires Reached(run).Some? && Reached(run).value.holder.Some? && !Reached(run).value.holder.value.Acting?
    ensures Reached(run + next).Some? && Reached(run + next).value.holder.Some?
    ensures MovesLeft(Reached(run + next).value.holder.value) < MovesLeft(Reached(run).value.holder.value)
  {
    var s := Reached(run).value;
    match s.holder.value
    case Stopping => next := [StopTimer]; Next(run, StopTimer);
    case Looking => next := [Look]; Next(run, Look);
    case Draining =>
      SetNeverWaitsForEver(run);
      if Enabled(s, Drained) {
        next := [Drained];
        Next(run, Drained);
      } else {
        var a := CloseBy(s.timer.value);
        Next(run, a);
        Next(run + [a], Drained);
        next := [a, Drained];
        assert run + next == run + [a] + [Drained];
      }
  }

  /** A `set` under way can always come to act on its deadline. */
  lemma {:induction false} SetGetsToAct(run: seq<Action>, deadline: Deadline) returns (more: seq<Action>)
    requires Reached(run).Some? && Reached(run).value.holder.Some?
    ensures Reached(run + more).Some? && Enabled(Reached(run + more).value, Act(deadline))
    decreases MovesLeft(Reached(run).value.holder.value)
  {
    if Reached(run).value.holder.value.Acting? {
      more := [];
      assert run + more == run;
    } else {
      var next := SetMovesOn(run);
      var rest := SetGetsToAct(run + next, deadline);
      more := next + rest;
      assert run + more == run + next + rest;
    }
  }
}
