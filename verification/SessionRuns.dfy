/** What runs of the session protocol come to: a start or a stop left to itself does its work, a stale
    start never comes up, and every task can be carried to its end. */
module SessionRuns {
  import opened Text
  import opened Session
  import opened SessionProofs

  // ---------------------------------------------------------------- a start left to itself

  datatype Instance = AsBefore | Down | Fresh

  /** How far start `t` of engine `e` has come, asked for in state `s0` and alone since. */
  datatype Look = Look(phase: StartPhase, instance: Instance, held: bool, counted: bool, published: bool)

  predicate InstanceIs(was: EngineState, now: EngineState, mark: int, instance: Instance) {
    match instance
    case AsBefore => now.running == was.running && now.instanceGen == was.instanceGen
    case Down => !now.running
    case Fresh => now.running && now.instanceGen == mark
  }

  ghost predicate At(s: State, s0: State, t: nat, e: Engine, look: Look) {
    && WellFormed(s) && WellFormed(s0) && s.gen == s0.gen
    && s.lock == (if look.held then Some(t) else None)
    && s.tasks == s0.tasks[t := Start(e, s0.gen, look.phase, look.published)]
    && (forall d: Engine :: d != e ==> s.engines[d] == s0.engines[d])
    && s.engines[e].startsInFlight == s0.engines[e].startsInFlight + (if look.counted then 1 else 0)
    && InstanceIs(s0.engines[e], s.engines[e], s0.gen, look.instance)
  }

  const ENTER := [Count, TakeLock, CheckGeneration]
  const ENTERING := [
    Look(Marked, AsBefore, false, false, false), Look(Counted, AsBefore, false, true, false),
    Look(Locked, AsBefore, true, true, false), Look(Current, AsBefore, true, true, false)]

  const CLIMB := [LookAtOthers, BringUp, Succeed, Release, TakeTailLock, TailCheck, ReleaseTail, EndCount]
  const CLIMBING := [
    Look(Clear, Down, true, true, false), Look(Alone, Down, true, true, false), Look(Up, Fresh, true, true, false),
    Look(Leaving(Ready), Fresh, true, true, false), Look(Tail(Ready), Fresh, false, true, false),
    Look(TailLocked, Fresh, true, true, false), Look(TailLeaving, Fresh, true, true, true),
    Look(Closing, Fresh, false, true, true), Look(StartDone, Fresh, false, false, true)]

  lemma Act(r: Run, a: Action)
    requires Legal(r) && WellFormed(Reached(r).value) && Enabled(Reached(r).value, a)
    ensures Reached(Then(r, a)) == Some(Do(Reached(r).value, a)) && Legal(Then(r, a))
  {
  }

  lemma Entered(s: State, s0: State, t: nat, e: Engine, k: nat)
    requires k < 3 && At(s, s0, t, e, ENTERING[k])
    ensures Enabled(s, ByStart(t, ENTER[k])) && At(StartStep(s, t, ENTER[k]), s0, t, e, ENTERING[k + 1])
  {
  }

  lemma Climbed(s: State, s0: State, t: nat, e: Engine, k: nat)
    requires k < 8 && At(s, s0, t, e, CLIMBING[k]) && !OthersRun(s0, e)
    ensures Enabled(s, ByStart(t, CLIMB[k])) && At(StartStep(s, t, CLIMB[k]), s0, t, e, CLIMBING[k + 1])
  {
    if k < 4 {
      ClimbedUp(s, s0, t, e, k);
    } else if k < 6 {
      ClimbedToTheCheck(s, s0, t, e, k);
    } else {
      ClimbedOut(s, s0, t, e, k);
    }
  }

  lemma ClimbedUp(s: State, s0: State, t: nat, e: Engine, k: nat)
    requires k < 4 && At(s, s0, t, e, CLIMBING[k]) && !OthersRun(s0, e)
    ensures Enabled(s, ByStart(t, CLIMB[k])) && At(StartStep(s, t, CLIMB[k]), s0, t, e, CLIMBING[k + 1])
  {
  }

  lemma ClimbedToTheCheck(s: State, s0: State, t: nat, e: Engine, k: nat)
    requires 4 <= k < 6 && At(s, s0, t, e, CLIMBING[k])
    ensures Enabled(s, ByStart(t, CLIMB[k])) && At(StartStep(s, t, CLIMB[k]), s0, t, e, CLIMBING[k + 1])
  {
  }

  lemma ClimbedOut(s: State, s0: State, t: nat, e: Engine, k: nat)
    requires 6 <= k < 8 && At(s, s0, t, e, CLIMBING[k])
    ensures Enabled(s, ByStart(t, CLIMB[k])) && At(StartStep(s, t, CLIMB[k]), s0, t, e, CLIMBING[k + 1])
  {
  }

  lemma {:induction false} Enters(r: Run, t: nat, e: Engine, k: nat) returns (late: Run)
    requires Legal(r) && Reached(r).value.lock == None && t !in Reached(r).value.tasks && k <= 3
    ensures Extends(r, late) && Legal(late) && At(Reached(late).value, Reached(r).value, t, e, ENTERING[k])
  {
    var s0 := Reached(r).value;
    RunsKeep(r);
    if k == 0 {
      Act(r, RequestStart(t, e));
      late := Then(r, RequestStart(t, e));
    } else {
      var before := Enters(r, t, e, k - 1);
      Entered(Reached(before).value, s0, t, e, k - 1);
      Act(before, ByStart(t, ENTER[k - 1]));
      late := Then(before, ByStart(t, ENTER[k - 1]));
    }
  }

  /** Its engine does not run, or no longer. */
  lemma Clears(r: Run, t: nat, e: Engine) returns (late: Run)
    requires Legal(r) && Reached(r).value.lock == None && t !in Reached(r).value.tasks
    requires var st := Reached(r).value.engines; e in st && (st[e].running ==> st[e].instanceGen < Reached(r).value.gen)
    ensures Extends(r, late) && Legal(late) && At(Reached(late).value, Reached(r).value, t, e, CLIMBING[0])
  {
    var s0 := Reached(r).value;
    var current := Enters(r, t, e, 3);
    var looked := Then(current, ByStart(t, LookAtOwn));
    LooksAtOwn(Reached(current).value, s0, t, e);
    Act(current, ByStart(t, LookAtOwn));
    if s0.engines[e].running {
      StopsTheOld(Reached(looked).value, s0, t, e);
      Act(looked, ByStart(t, StopOld));
      late := Then(looked, ByStart(t, StopOld));
    } else {
      late := looked;
    }
  }

  const STOPPING_OLD := Look(Replacing, AsBefore, true, true, false)

  lemma LooksAtOwn(s: State, s0: State, t: nat, e: Engine)
    requires At(s, s0, t, e, ENTERING[3]) && (s0.engines[e].running ==> s0.engines[e].instanceGen < s0.gen)
    ensures Enabled(s, ByStart(t, LookAtOwn))
    ensures At(StartStep(s, t, LookAtOwn), s0, t, e, if s0.engines[e].running then STOPPING_OLD else CLIMBING[0])
  {
  }

  lemma StopsTheOld(s: State, s0: State, t: nat, e: Engine)
    requires At(s, s0, t, e, STOPPING_OLD)
    ensures Enabled(s, ByStart(t, StopOld)) && At(StartStep(s, t, StopOld), s0, t, e, CLIMBING[0])
  {
  }

  lemma {:induction false} Climbs(r: Run, t: nat, e: Engine, k: nat) returns (late: Run)
    requires Legal(r) && Reached(r).value.lock == None && t !in Reached(r).value.tasks && k <= 8
    requires var st := Reached(r).value.engines; e in st && (st[e].running ==> st[e].instanceGen < Reached(r).value.gen)
    requires WellFormed(Reached(r).value) && !OthersRun(Reached(r).value, e)
    ensures Extends(r, late) && Legal(late) && At(Reached(late).value, Reached(r).value, t, e, CLIMBING[k])
  {
    if k == 0 {
      late := Clears(r, t, e);
    } else {
      var before := Climbs(r, t, e, k - 1);
      Climbed(Reached(before).value, Reached(r).value, t, e, k - 1);
      Act(before, ByStart(t, CLIMB[k - 1]));
      late := Then(before, ByStart(t, CLIMB[k - 1]));
    }
  }

  /** A start asked for while nobody holds the mutex, no other engine runs and its own runs no
      instance of the current session can come up and publish: its engine then runs an instance of
      the session it was asked in, and the generation and the other engines are as they were. */
  lemma StartAloneConnects(r: Run, t: nat, e: Engine) returns (late: Run)
    requires Legal(r) && Reached(r).value.lock == None && t !in Reached(r).value.tasks
    requires WellFormed(Reached(r).value) && !OthersRun(Reached(r).value, e)
    requires var st := Reached(r).value.engines[e]; st.running ==> st.instanceGen < Reached(r).value.gen
    ensures Extends(r, late) && Legal(late) && WellFormed(Reached(late).value)
    ensures
      var s0, s := Reached(r).value, Reached(late).value;
      && s.engines[e].running && s.engines[e].instanceGen == s0.gen == s.gen
      && s.tasks == s0.tasks[t := Start(e, s0.gen, StartDone, true)] && s.lock == None
      && s.engines[e].startsInFlight == s0.engines[e].startsInFlight
      && forall d: Engine :: d != e ==> s.engines[d] == s0.engines[d]
  {
    late := Climbs(r, t, e, 8);
  }

  // ---------------------------------------------------------------- a start beside another engine

  const REFUSAL := [LookAtOthers, Release, FinishFailed, EndCount]
  const REFUSING := [
    Look(Clear, Down, true, true, false), Look(Leaving(Failed), Down, true, true, false),
    Look(Tail(Failed), Down, false, true, false), Look(Closing, Down, false, true, false),
    Look(StartDone, Down, false, false, false)]

  ghost predicate RefusedAt(s: State, s0: State, t: nat, e: Engine, k: nat)
    requires k <= 4
  {
    At(s.(gen := s0.gen), s0, t, e, REFUSING[k]) && s.gen == s0.gen + if k < 3 then 0 else 1
  }

  lemma Refused(s: State, s0: State, t: nat, e: Engine, k: nat)
    requires k < 4 && RefusedAt(s, s0, t, e, k) && OthersRun(s0, e)
    ensures Enabled(s, ByStart(t, REFUSAL[k])) && RefusedAt(StartStep(s, t, REFUSAL[k]), s0, t, e, k + 1)
  {
  }

  lemma {:induction false} Refuses(r: Run, t: nat, e: Engine, k: nat) returns (late: Run)
    requires Legal(r) && Reached(r).value.lock == None && t !in Reached(r).value.tasks && k <= 4
    requires WellFormed(Reached(r).value) && OthersRun(Reached(r).value, e) && !Reached(r).value.engines[e].running
    ensures Extends(r, late) && Legal(late) && RefusedAt(Reached(late).value, Reached(r).value, t, e, k)
  {
    if k == 0 {
      late := Clears(r, t, e);
    } else {
      var before := Refuses(r, t, e, k - 1);
      Refused(Reached(before).value, Reached(r).value, t, e, k - 1);
      Act(before, ByStart(t, REFUSAL[k - 1]));
      late := Then(before, ByStart(t, REFUSAL[k - 1]));
    }
  }

  /** A start asked for while another engine runs ends unpublished with its own engine down and every
      other as it was; the session it was asked in is over. */
  lemma StartBesideAnotherIsRefused(r: Run, t: nat, e: Engine) returns (late: Run)
    requires Legal(r) && Reached(r).value.lock == None && t !in Reached(r).value.tasks
    requires WellFormed(Reached(r).value) && OthersRun(Reached(r).value, e)
    ensures Extends(r, late) && Legal(late) && WellFormed(Reached(late).value)
    ensures
      var s0, s := Reached(r).value, Reached(late).value;
      && !s.engines[e].running && s.gen == s0.gen + 1 && s.lock == None
      && s.tasks == s0.tasks[t := Start(e, s0.gen, StartDone, false)]
      && forall d: Engine :: d != e ==> s.engines[d] == s0.engines[d]
  {
    RunsKeep(r);
    late := Refuses(r, t, e, 4);
  }

  // ---------------------------------------------------------------- a stop left to itself

  const STOPS := [Bump, TakeStopLock, Judge, TearDown, ReleaseStop]
  const STOPPING := [Asked, Bumped, StopLocked, Tearing, StopLeaving, StopDone]

  ghost predicate StopAt(s: State, s0: State, u: nat, e: Engine, k: nat)
    requires k <= 5
  {
    && WellFormed(s) && WellFormed(s0)
    && s.gen == s0.gen + (if k == 0 then 0 else 1)
    && s.lock == (if 2 <= k <= 4 then Some(u) else None)
    && s.tasks == s0.tasks[u := Stop(e, if k == 0 then 0 else s0.gen + 1, STOPPING[k])]
    && (forall d: Engine :: d != e ==> s.engines[d] == s0.engines[d])
    && s.engines[e] == if k < 4 then s0.engines[e] else Settle(s0.engines[e].(running := false), s0.gen + 1)
  }

  lemma Stopped(s: State, s0: State, u: nat, e: Engine, k: nat)
    requires k < 5 && StopAt(s, s0, u, e, k) && (s0.engines[e].running ==> s0.engines[e].instanceGen <= s0.gen)
    ensures Enabled(s, ByStop(u, STOPS[k])) && StopAt(StopStep(s, u, STOPS[k]), s0, u, e, k + 1)
  {
  }

  lemma {:induction false} Stops(r: Run, u: nat, e: Engine, k: nat) returns (late: Run)
    requires Legal(r) && Reached(r).value.lock == None && u !in Reached(r).value.tasks && k <= 5
    requires WellFormed(Reached(r).value) && Reached(r).value.engines[e].running
    ensures Extends(r, late) && Legal(late) && StopAt(Reached(late).value, Reached(r).value, u, e, k)
  {
    var s0 := Reached(r).value;
    RunsKeep(r);
    if k == 0 {
      StopsAreTakenExactly(r, u, e);
      Act(r, RequestStop(u, e));
      late := Then(r, RequestStop(u, e));
    } else {
      var before := Stops(r, u, e, k - 1);
      assert EngineOK(s0, s0.engines[e]);
      Stopped(Reached(before).value, s0, u, e, k - 1);
      Act(before, ByStop(u, STOPS[k - 1]));
      late := Then(before, ByStop(u, STOPS[k - 1]));
    }
  }

  /** A stop of a running engine, asked for while nobody holds the mutex, can bring it down at the next
      generation and leave every other engine as it was. */
  lemma StopAloneBringsDown(r: Run, u: nat, e: Engine) returns (late: Run)
    requires Legal(r) && Reached(r).value.lock == None && u !in Reached(r).value.tasks
    requires WellFormed(Reached(r).value) && Reached(r).value.engines[e].running
    ensures Extends(r, late) && Legal(late) && WellFormed(Reached(late).value)
    ensures
      var s0, s := Reached(r).value, Reached(late).value;
      && s.engines[e] == Settle(s0.engines[e].(running := false), s.gen) && s.gen == s0.gen + 1 && s.lock == None
      && s.tasks == s0.tasks[u := Stop(e, s.gen, StopDone)]
      && forall d: Engine :: d != e ==> s.engines[d] == s0.engines[d]
  {
    late := Stops(r, u, e, 5);
  }

  // ---------------------------------------------------------------- nobody waits for the mutex to ask

  /** Whoever holds the mutex, a start can be asked for and counted, and a stop of an engaged engine can
      be asked for and end the session. */
  lemma AskingNeverWaits(r: Run, t: nat, e: Engine)
    requires Legal(r) && t !in Reached(r).value.tasks
    ensures Legal(Then(Then(r, RequestStart(t, e)), ByStart(t, Count)))
    ensures WellFormed(Reached(r).value)
    ensures Reached(r).value.engines[e].running || Starting(Reached(r).value, e) != {} ==>
      var stop := Then(Then(r, RequestStop(t, e)), ByStop(t, Bump));
      Legal(stop) && Reached(stop).value.gen == Reached(r).value.gen + 1
  {
    RunsKeep(r);
    Act(r, RequestStart(t, e));
    Act(Then(r, RequestStart(t, e)), ByStart(t, Count));
    StopsAreTakenExactly(r, t, e);
    if Legal(Then(r, RequestStop(t, e))) {
      Act(Then(r, RequestStop(t, e)), ByStop(t, Bump));
    }
  }

  /** Nor does a start that has let go of the mutex wait for it to fail or to end. */
  lemma EndingNeverWaits(r: Run, t: nat)
    requires Legal(r) && t in Reached(r).value.tasks && Reached(r).value.tasks[t].Start?
    ensures Reached(r).value.tasks[t].phase == Tail(Failed) ==> Legal(Then(r, ByStart(t, FinishFailed)))
    ensures Reached(r).value.tasks[t].phase == Tail(Ended) ==> Legal(Then(r, ByStart(t, FinishEnded)))
    ensures Reached(r).value.tasks[t].phase == Closing ==> Legal(Then(r, ByStart(t, EndCount)))
  {
    RunsKeep(r);
    var s := Reached(r).value;
    match s.tasks[t].phase
    case Tail(Failed) => Act(r, ByStart(t, FinishFailed));
    case Tail(Ended) => Act(r, ByStart(t, FinishEnded));
    case Closing => Act(r, ByStart(t, EndCount));
    case _ =>
  }

  // ---------------------------------------------------------------- a stale start never comes up

  /** The start has not yet compared its mark with the generation, or found it moved. */
  predicate Grounded(task: Task) {
    && task.Start? && !task.published
    && match task.phase
       case Marked => true
       case Counted => true
       case Locked => true
       case Leaving(result) => result == Ended
       case Tail(result) => result == Ended
       case Closing => true
       case StartDone => true
       case _ => false
  }

  ghost predicate Stale(s: State, t: nat) {
    t in s.tasks && Grounded(s.tasks[t]) && s.tasks[t].mark < s.gen
  }

  lemma StaleStaysStale(s: State, a: Action, t: nat)
    requires WellFormed(s) && Enabled(s, a) && Stale(s, t)
    ensures Stale(Do(s, a), t)
  {
    StepMovesTasks(s, a);
    match a
    case ByStart(u, move) =>
      StartMovesOn(s, u, move);
      if u == t {
        GroundedStays(s, t, move);
      }
    case ByStop(u, move) =>
    case RequestStart(u, _) =>
    case RequestStop(u, _) =>
  }

  lemma StartMovesOn(s: State, t: nat, move: StartMove)
    requires WellFormed(s) && Enabled(s, ByStart(t, move))
    ensures s.gen <= StartStep(s, t, move).gen
  {
  }

  lemma GroundedStays(s: State, t: nat, move: StartMove)
    requires WellFormed(s) && Enabled(s, ByStart(t, move)) && Stale(s, t)
    ensures Grounded(StartStep(s, t, move).tasks[t])
  {
  }

  /** A start whose session ended before it compared its mark never comes up, however the run goes on. */
  lemma {:induction false} StaleStartNeverComesUp(early: Run, late: Run, t: nat)
    requires Extends(early, late) && Legal(late) && Legal(early) && Stale(Reached(early).value, t)
    ensures Stale(Reached(late).value, t)
  {
    if early != late {
      StaleStartNeverComesUp(early, late.before, t);
      RunsKeep(late.before);
      StaleStaysStale(Reached(late.before).value, late.action, t);
    }
  }

  predicate Unchecked(task: Task) {
    task.Start? && !task.published && (task.phase == Marked || task.phase == Counted || task.phase == Locked)
  }

  /** What moves the generation: a stop, a start that failed, and awg's without a link. */
  predicate MovesGeneration(a: Action) {
    match a
    case ByStart(_, move) => move == FinishFailed || move == PickFails
    case ByStop(_, move) => move == Bump
    case _ => false
  }

  lemma GenerationMovesExactly(s: State, a: Action)
    requires WellFormed(s) && Enabled(s, a)
    ensures Do(s, a).gen == s.gen + if MovesGeneration(a) then 1 else 0
  {
  }

  /** A start that fails ends its session: every start of the same mark, or an older one, that has not
      yet compared its mark stays down for good. */
  lemma FailedStartEndsItsSession(r: Run, t: nat, move: StartMove, late: Run, u: nat)
    requires move == FinishFailed || move == PickFails
    requires Legal(Then(r, ByStart(t, move))) && Extends(Then(r, ByStart(t, move)), late) && Legal(late)
    requires u != t && u in Reached(r).value.tasks && Unchecked(Reached(r).value.tasks[u])
    requires Reached(r).value.tasks[u].mark <= Reached(r).value.tasks[t].mark
    ensures u in Reached(late).value.tasks && Grounded(Reached(late).value.tasks[u])
  {
    RunsKeep(r);
    assert TaskOK(Reached(r).value, t);
    StaleAfter(Reached(r).value, ByStart(t, move), u);
    StaleStartNeverComesUp(Then(r, ByStart(t, move)), late, u);
  }

  lemma StaleAfter(s: State, a: Action, u: nat)
    requires Inv(s) && Enabled(s, a) && MovesGeneration(a) && u != a.t && u in s.tasks && Unchecked(s.tasks[u])
    ensures Stale(Do(s, a), u)
  {
    assert TaskOK(s, u);
    StepMovesTasks(s, a);
    GenerationMovesExactly(s, a);
  }

  // ---------------------------------------------------------------- every task can end

  predicate Over(task: Task) {
    if task.Start? then task.phase == StartDone else task.stop == StopDone
  }

  /** How many moves the task has left, at most. */
  function MovesLeft(task: Task): nat {
    if task.Stop? then
      (match task.stop case Asked => 5 case Bumped => 4 case StopLocked => 3 case Tearing => 2 case StopLeaving => 1
       case StopDone => 0)
    else match task.phase
      case Marked => 14
      case Counted => 13
      case Locked => 12
      case Current => 11
      case Replacing => 10
      case Clear => 9
      case Alone => 8
      case Up => 7
      case Leaving(_) => 6
      case Tail(_) => 5
      case TailLocked => 4
      case TailLeaving => 3
      case Closing => 1
      case StartDone => 0
  }

  /** A move the task can make while nobody else holds the mutex. */
  function MoveOf(t: nat, task: Task): Action {
    if task.Stop? then
      ByStop(t, match task.stop case Asked => Bump case Bumped => TakeStopLock case StopLocked => Judge
        case Tearing => TearDown case _ => ReleaseStop)
    else ByStart(t, match task.phase
      case Marked => Count
      case Counted => TakeLock
      case Locked => CheckGeneration
      case Current => LookAtOwn
      case Replacing => StopOld
      case Clear => LookAtOthers
      case Alone => BringUpFails
      case Up => Succeed
      case Leaving(_) => Release
      case Tail(result) =>
        (match result case Failed => FinishFailed case Ended => FinishEnded case Ready => TakeTailLock)
      case TailLocked => TailCheck
      case TailLeaving => ReleaseTail
      case _ => EndCount)
  }

  lemma MoveIsEnabled(s: State, t: nat)
    requires Inv(s) && t in s.tasks && !Over(s.tasks[t]) && (s.lock == None || s.lock == Some(t))
    ensures ByTask(MoveOf(t, s.tasks[t]), t) && Enabled(s, MoveOf(t, s.tasks[t]))
  {
    assert TaskOK(s, t);
  }

  lemma StartMoveNears(s: State, t: nat, move: StartMove)
    requires WellFormed(s) && Enabled(s, ByStart(t, move))
    ensures MovesLeft(StartStep(s, t, move).tasks[t]) < MovesLeft(s.tasks[t])
  {
  }

  lemma MoveNears(s: State, t: nat, a: Action)
    requires WellFormed(s) && ByTask(a, t) && Enabled(s, a)
    ensures t in Do(s, a).tasks && MovesLeft(Do(s, a).tasks[t]) < MovesLeft(s.tasks[t])
  {
    match a
    case ByStart(_, move) => StartMoveNears(s, t, move);
    case ByStop(_, move) =>
  }

  lemma LockByMover(s: State, t: nat, a: Action)
    requires WellFormed(s) && ByTask(a, t) && Enabled(s, a) && (s.lock == None || s.lock == Some(t))
    ensures Do(s, a).lock == None || Do(s, a).lock == Some(t)
  {
  }

  /** The task goes on alone to its end. */
  lemma {:induction false} RunsToItsEnd(r: Run, t: nat) returns (late: Run)
    requires Legal(r) && t in Reached(r).value.tasks
    requires Reached(r).value.lock == None || Reached(r).value.lock == Some(t)
    ensures Extends(r, late) && Legal(late) && t in Reached(late).value.tasks && Over(Reached(late).value.tasks[t])
    ensures Reached(late).value.lock == None
    decreases MovesLeft(Reached(r).value.tasks[t])
  {
    var s := Reached(r).value;
    RunsKeep(r);
    assert TaskOK(s, t);
    if Over(s.tasks[t]) {
      late := r;
    } else {
      var a := MoveOf(t, s.tasks[t]);
      MoveIsEnabled(s, t);
      MoveNears(s, t, a);
      LockByMover(s, t, a);
      Act(r, a);
      late := RunsToItsEnd(Then(r, a), t);
      ExtendsThrough(r, a, late);
    }
  }

  lemma {:induction false} ExtendsThrough(r: Run, a: Action, late: Run)
    requires Extends(Then(r, a), late)
    ensures Extends(r, late)
  {
    if late == Then(r, a) {
      assert Extends(r, r);
    } else {
      ExtendsThrough(r, a, late.before);
    }
  }

  lemma {:induction false} ExtendsJoin(a: Run, b: Run, c: Run)
    requires Extends(a, b) && Extends(b, c)
    ensures Extends(a, c)
  {
    if b != c {
      ExtendsJoin(a, b, c.before);
    }
  }

  /** From every reachable state every start and every stop can be carried to its end: no run is ever
      stuck. */
  lemma EveryTaskCanEnd(r: Run, t: nat) returns (late: Run)
    requires Legal(r) && t in Reached(r).value.tasks
    ensures Extends(r, late) && Legal(late) && t in Reached(late).value.tasks && Over(Reached(late).value.tasks[t])
  {
    var s := Reached(r).value;
    if s.lock == None || s.lock == Some(t) {
      late := RunsToItsEnd(r, t);
    } else {
      RunsKeep(r);
      var first := RunsToItsEnd(r, s.lock.value);
      TasksStay(r, first, t);
      late := RunsToItsEnd(first, t);
      ExtendsJoin(r, first, late);
    }
  }

  lemma {:induction false} TasksStay(early: Run, late: Run, t: nat)
    requires Extends(early, late) && Legal(early) && Legal(late) && t in Reached(early).value.tasks
    ensures t in Reached(late).value.tasks
  {
    if early != late {
      TasksStay(early, late.before, t);
      StepMovesTasks(Reached(late.before).value, late.action);
    }
  }
}
