/** What every run of the session protocol keeps. */
module SessionProofs {
  import opened Text
  import opened Session

  // ---------------------------------------------------------------- the invariant

  predicate Holds(task: Task) {
    if task.Start?
    then match task.phase
      case Locked => true
      case Current => true
      case Replacing => true
      case Clear => true
      case Alone => true
      case Up => true
      case Leaving(_) => true
      case TailLocked => true
      case TailLeaving => true
      case _ => false
    else task.stop == StopLocked || task.stop == Tearing || task.stop == StopLeaving
  }

  /** The stop has judged the instance running and, if it was older, torn it down. */
  predicate Finished(task: Task) {
    task.Stop? && (task.stop == StopLeaving || task.stop == StopDone)
  }

  predicate EngineOK(s: State, st: EngineState) {
    && st.settled <= s.gen
    && st.served <= s.gen
    && (st.running ==> st.settled <= st.instanceGen <= s.gen)
    && (st.served == s.gen ==> st.running && st.instanceGen == s.gen)
  }

  /** What a task knows of its engine, `st`. */
  predicate StartOK(s: State, task: Task, st: EngineState)
    requires task.Start?
  {
    && task.mark <= s.gen
    && match task.phase
       case Current => st.settled <= task.mark && (st.running ==> st.instanceGen <= task.mark)
       case Replacing => st.settled <= task.mark && (st.running ==> st.instanceGen < task.mark)
       case Clear => st.settled <= task.mark && !st.running
       case Alone => st.settled <= task.mark && !st.running
       case Up => st.settled <= task.mark && st.running && st.instanceGen == task.mark && st.served < s.gen
       case Leaving(r) => r == Ready ==> task.mark <= st.served
       case Tail(r) => r == Ready ==> task.mark <= st.served
       case TailLocked => task.mark <= st.served
       case _ => true
  }

  predicate StopOK(s: State, task: Task, st: EngineState)
    requires task.Stop?
  {
    && (task.stop != Asked ==> task.stopGen <= s.gen)
    && (task.stop == Tearing && st.running ==> st.instanceGen < task.stopGen)
    && (Finished(task) ==> task.stopGen <= st.settled)
  }

  predicate TaskOK(s: State, t: nat)
    requires t in s.tasks && s.tasks[t].engine in s.engines
  {
    var task, st := s.tasks[t], s.engines[s.tasks[t].engine];
    && (Holds(task) <==> s.lock == Some(t))
    && (if task.Start? then StartOK(s, task, st) else StopOK(s, task, st))
  }

  /** No second engine runs, also while a start that found itself alone has not brought its own up. */
  ghost predicate OneEngine(s: State)
    requires WellFormed(s)
  {
    && (forall d: Engine, e: Engine :: s.engines[d].running && s.engines[e].running ==> d == e)
    && (forall t :: t in s.tasks && s.tasks[t].Start? && s.tasks[t].phase == Alone ==> !OthersRun(s, s.tasks[t].engine))
  }

  ghost predicate Inv(s: State) {
    && WellFormed(s)
    && (forall e: Engine :: EngineOK(s, s.engines[e]))
    && (forall t :: t in s.tasks ==> TaskOK(s, t))
    && (s.lock.Some? ==> s.lock.value in s.tasks)
    && OneEngine(s)
  }

  // ---------------------------------------------------------------- one step of a start

  /** Everything but task `t` and its engine is as it was; the generation may have grown. */
  ghost predicate OnlyMoved(s: State, s': State, t: nat)
    requires t in s'.tasks
  {
    && WellFormed(s) && WellFormed(s')
    && s.gen <= s'.gen
    && s'.tasks.Keys == s.tasks.Keys + {t}
    && (forall u :: u in s.tasks && u != t ==> s'.tasks[u] == s.tasks[u])
    && (forall e: Engine :: e != s'.tasks[t].engine ==> s'.engines[e] == s.engines[e])
    && var was, now := s.engines[s'.tasks[t].engine], s'.engines[s'.tasks[t].engine];
       was.settled <= now.settled && was.served <= now.served
  }

  /** A task that does not hold the mutex keeps what it knows whatever the holder does. */
  lemma OthersKeep(s: State, s': State, t: nat, u: nat)
    requires Inv(s) && t in s'.tasks && OnlyMoved(s, s', t) && u in s.tasks && u != t
    requires s'.lock == s.lock || (s.lock == None && s'.lock == Some(t)) || (s.lock == Some(t) && s'.lock == None)
    requires
      var e := s'.tasks[t].engine;
      s.lock == Some(t) || (s'.engines[e] == s.engines[e].(startsInFlight := s'.engines[e].startsInFlight))
    ensures TaskOK(s', u)
  {
    assert TaskOK(s, u);
  }

  lemma StartMoves(s: State, t: nat, move: StartMove)
    requires WellFormed(s) && Enabled(s, ByStart(t, move))
    ensures OnlyMoved(s, StartStep(s, t, move), t)
  {
  }

  lemma StartEngine(s: State, t: nat, move: StartMove)
    requires Inv(s) && Enabled(s, ByStart(t, move))
    ensures EngineOK(StartStep(s, t, move), StartStep(s, t, move).engines[s.tasks[t].engine])
  {
    assert TaskOK(s, t);
    assert EngineOK(s, s.engines[s.tasks[t].engine]);
  }

  predicate BeforeUp(move: StartMove) {
    move.Count? || move.PickFails? || move.TakeLock? || move.CheckGeneration? || move.LookAtOwn? || move.StopOld?
    || move.LookAtOthers?
  }

  lemma StartTaskBeforeUp(s: State, t: nat, move: StartMove)
    requires Inv(s) && Enabled(s, ByStart(t, move)) && BeforeUp(move)
    ensures TaskOK(StartStep(s, t, move), t)
  {
    assert TaskOK(s, t);
    assert EngineOK(s, s.engines[s.tasks[t].engine]);
  }

  lemma StartTaskFromUp(s: State, t: nat, move: StartMove)
    requires WellFormed(s) && Enabled(s, ByStart(t, move)) && !BeforeUp(move)
    requires TaskOK(s, t) && EngineOK(s, s.engines[s.tasks[t].engine])
    ensures TaskOK(StartStep(s, t, move), t)
  {
  }

  lemma StartFrame(s: State, t: nat, move: StartMove)
    requires Inv(s) && Enabled(s, ByStart(t, move))
    ensures var s' := StartStep(s, t, move);
            s'.lock == s.lock || (s.lock == None && s'.lock == Some(t)) || (s.lock == Some(t) && s'.lock == None)
    ensures var s', e := StartStep(s, t, move), s.tasks[t].engine;
            s.lock == Some(t) || s'.engines[e] == s.engines[e].(startsInFlight := s'.engines[e].startsInFlight)
  {
    assert TaskOK(s, t);
  }

  lemma StartOneEngine(s: State, t: nat, move: StartMove)
    requires Inv(s) && Enabled(s, ByStart(t, move))
    requires OnlyMoved(s, StartStep(s, t, move), t)
    ensures OneEngine(StartStep(s, t, move))
  {
    AloneStaysAlone(s, t, move);
    OneStaysOne(s, t, move);
  }

  lemma AloneStaysAlone(s: State, t: nat, move: StartMove)
    requires Inv(s) && Enabled(s, ByStart(t, move))
    requires OnlyMoved(s, StartStep(s, t, move), t)
    ensures var s' := StartStep(s, t, move);
            forall u :: u in s'.tasks && s'.tasks[u].Start? && s'.tasks[u].phase == Alone ==>
              !OthersRun(s', s'.tasks[u].engine)
  {
    var s' := StartStep(s, t, move);
    var mine := s.tasks[t].engine;
    assert TaskOK(s, t);
    forall u | u in s'.tasks && s'.tasks[u].Start? && s'.tasks[u].phase == Alone
      ensures !OthersRun(s', s'.tasks[u].engine)
    {
      assert TaskOK(s, u);
      if u != t {
        assert s.lock == Some(u) && s'.engines[mine].running == s.engines[mine].running;
        assert !OthersRun(s, s.tasks[u].engine);
      }
    }
  }

  lemma OneStaysOne(s: State, t: nat, move: StartMove)
    requires Inv(s) && Enabled(s, ByStart(t, move))
    requires OnlyMoved(s, StartStep(s, t, move), t)
    ensures var s' := StartStep(s, t, move);
            forall d: Engine, e: Engine :: s'.engines[d].running && s'.engines[e].running ==> d == e
  {
    var s' := StartStep(s, t, move);
    var mine := s.tasks[t].engine;
    assert TaskOK(s, t);
    forall d: Engine, e: Engine | s'.engines[d].running && s'.engines[e].running ensures d == e {
      if move == BringUp {
        assert !OthersRun(s, mine);
      } else {
        assert s.engines[d].running && s.engines[e].running;
      }
    }
  }

  lemma StartKeeps(s: State, t: nat, move: StartMove)
    requires Inv(s) && Enabled(s, ByStart(t, move))
    ensures Inv(StartStep(s, t, move))
  {
    var s' := StartStep(s, t, move);
    StartMoves(s, t, move);
    StartEngine(s, t, move);
    assert TaskOK(s, t) && EngineOK(s, s.engines[s.tasks[t].engine]);
    if BeforeUp(move) {
      StartTaskBeforeUp(s, t, move);
    } else {
      StartTaskFromUp(s, t, move);
    }
    StartFrame(s, t, move);
    StartOneEngine(s, t, move);
    forall u | u in s'.tasks ensures TaskOK(s', u) {
      if u != t {
        OthersKeep(s, s', t, u);
      }
    }
    forall e: Engine ensures EngineOK(s', s'.engines[e]) {
      assert EngineOK(s, s.engines[e]);
    }
  }

  // ---------------------------------------------------------------- one step of a stop, a request

  lemma StopMoves(s: State, t: nat, move: StopMove)
    requires Inv(s) && Enabled(s, ByStop(t, move))
    ensures OnlyMoved(s, StopStep(s, t, move), t)
    ensures forall e: Engine :: StopStep(s, t, move).engines[e].running ==> s.engines[e].running
  {
    assert TaskOK(s, t);
  }

  lemma StopTask(s: State, t: nat, move: StopMove)
    requires WellFormed(s) && Enabled(s, ByStop(t, move)) && TaskOK(s, t)
    ensures TaskOK(StopStep(s, t, move), t)
  {
  }

  lemma StopEngine(s: State, t: nat, move: StopMove)
    requires Inv(s) && Enabled(s, ByStop(t, move))
    ensures EngineOK(StopStep(s, t, move), StopStep(s, t, move).engines[s.tasks[t].engine])
  {
    assert TaskOK(s, t);
    assert EngineOK(s, s.engines[s.tasks[t].engine]);
  }

  lemma StopKeeps(s: State, t: nat, move: StopMove)
    requires Inv(s) && Enabled(s, ByStop(t, move))
    ensures Inv(StopStep(s, t, move))
  {
    var s' := StopStep(s, t, move);
    assert TaskOK(s, t);
    StopMoves(s, t, move);
    StopTask(s, t, move);
    StopEngine(s, t, move);
    forall e: Engine ensures EngineOK(s', s'.engines[e]) {
      assert EngineOK(s, s.engines[e]);
    }
    forall u | u in s'.tasks ensures TaskOK(s', u) {
      if u != t {
        OthersKeep(s, s', t, u);
      }
    }
    forall u | u in s'.tasks && s'.tasks[u].Start? && s'.tasks[u].phase == Alone
      ensures !OthersRun(s', s'.tasks[u].engine)
    {
      assert !OthersRun(s, s.tasks[u].engine);
    }
  }

  lemma RequestKeeps(s: State, a: Action)
    requires Inv(s) && Enabled(s, a) && (a.RequestStart? || a.RequestStop?)
    ensures Inv(Do(s, a))
  {
    var s', t := Do(s, a), a.t;
    forall u | u in s'.tasks ensures TaskOK(s', u) {
      if u != t {
        assert TaskOK(s, u);
      }
    }
    forall u | u in s'.tasks && s'.tasks[u].Start? && s'.tasks[u].phase == Alone
      ensures !OthersRun(s', s'.tasks[u].engine)
    {
      assert !OthersRun(s, s.tasks[u].engine);
    }
  }

  /** Every action keeps the invariant. */
  lemma StepKeeps(s: State, a: Action)
    requires Inv(s) && Enabled(s, a)
    ensures Inv(Do(s, a))
  {
    match a
    case ByStart(t, move) => StartKeeps(s, t, move);
    case ByStop(t, move) => StopKeeps(s, t, move);
    case RequestStart(t, e) => RequestKeeps(s, a);
    case RequestStop(t, e) => RequestKeeps(s, a);
  }

  lemma {:induction false} RunsKeep(r: Run)
    requires Legal(r)
    ensures Inv(Reached(r).value)
  {
    match r
    case Begin =>
      forall e: Engine ensures e in Initial().engines {
        match e
        case XrayEngine =>
        case AwgEngine =>
        case MihomoEngine =>
      }
    case Then(before, a) =>
      RunsKeep(before);
      StepKeeps(Reached(before).value, a);
  }

  // ---------------------------------------------------------------- what runs cannot do

  /** A completed stop is final: in every reachable state, an engine that runs after a finished stop
      runs an instance of a start no older than that stop. */
  lemma CompletedStopIsFinal(r: Run, t: nat)
    requires Legal(r) && t in Reached(r).value.tasks && Finished(Reached(r).value.tasks[t])
    ensures var s := Reached(r).value;
            var stop := s.tasks[t];
            WellFormed(s) && (s.engines[stop.engine].running ==> s.engines[stop.engine].instanceGen >= stop.stopGen)
  {
    RunsKeep(r);
    var s := Reached(r).value;
    assert TaskOK(s, t);
    assert EngineOK(s, s.engines[s.tasks[t].engine]);
  }

  /** At most one engine runs in every reachable state. */
  lemma AtMostOneEngineRuns(r: Run, d: Engine, e: Engine)
    requires Legal(r)
    ensures var s := Reached(r).value;
            WellFormed(s) && (s.engines[d].running && s.engines[e].running ==> d == e)
  {
    RunsKeep(r);
  }

  /** The actions that tear an instance of generation `i` down: of a stop of a later generation, of a
      start of a later mark that replaces it, and of the very start that brought it up, when xray fails
      after it was marked running. */
  predicate TearsDown(a: Action, task: Task, e: Engine, i: int) {
    && task.engine == e
    && match a
       case ByStop(_, move) => move == TearDown && task.Stop? && task.stopGen > i
       case ByStart(_, move) =>
         && task.Start?
         && ((move == StopOld && task.mark > i) || (move == RollBack && e == XrayEngine && task.mark == i))
       case _ => false
  }

  lemma StartTearsDown(s: State, t: nat, move: StartMove, e: Engine)
    requires Inv(s) && Enabled(s, ByStart(t, move)) && s.engines[e].running
    ensures StartStep(s, t, move).engines[e].running ==>
              StartStep(s, t, move).engines[e].instanceGen == s.engines[e].instanceGen
    ensures !StartStep(s, t, move).engines[e].running <==>
              TearsDown(ByStart(t, move), s.tasks[t], e, s.engines[e].instanceGen)
    ensures !StartStep(s, t, move).engines[e].running ==> s.lock == Some(t)
  {
    assert TaskOK(s, t);
  }

  lemma StopTearsDown(s: State, t: nat, move: StopMove, e: Engine)
    requires Inv(s) && Enabled(s, ByStop(t, move)) && s.engines[e].running
    ensures StopStep(s, t, move).engines[e].running ==>
              StopStep(s, t, move).engines[e].instanceGen == s.engines[e].instanceGen
    ensures !StopStep(s, t, move).engines[e].running <==>
              TearsDown(ByStop(t, move), s.tasks[t], e, s.engines[e].instanceGen)
    ensures !StopStep(s, t, move).engines[e].running ==> s.lock == Some(t)
  {
    assert TaskOK(s, t);
  }

  /** An instance keeps its generation as long as it runs, and it goes down exactly by an action of one
      of its owners, under the mutex. */
  lemma OnlyOwnersTearDown(r: Run, a: Action, e: Engine)
    requires Legal(Then(r, a)) && Reached(r).value.engines[e].running
    ensures WellFormed(Reached(Then(r, a)).value)
    ensures var s, now := Reached(r).value, Reached(Then(r, a)).value.engines[e];
            && (now.running ==> now.instanceGen == s.engines[e].instanceGen)
            && (!now.running <==> a.t in s.tasks && TearsDown(a, s.tasks[a.t], e, s.engines[e].instanceGen))
            && (!now.running ==> s.lock == Some(a.t))
  {
    RunsKeep(r);
    RunsKeep(Then(r, a));
    var s := Reached(r).value;
    match a
    case ByStart(t, move) => StartTearsDown(s, t, move, e);
    case ByStop(t, move) => StopTearsDown(s, t, move, e);
    case RequestStart(t, _) =>
    case RequestStop(t, _) =>
  }

  // ---------------------------------------------------------------- a start that ends its own instance

  /** One start of xray, the first ever asked for, has come to phase `p`. */
  ghost predicate OneXrayStart(s: State, p: StartPhase, running: bool, locked: bool) {
    && WellFormed(s) && s.gen == 0 && s.lock == (if locked then Some(0) else None)
    && s.tasks == map[0 := Start(XrayEngine, 0, p, false)]
    && s.engines[XrayEngine].running == running && (running ==> s.engines[XrayEngine].instanceGen == 0)
    && !s.engines[AwgEngine].running && !s.engines[MihomoEngine].running
  }

  lemma AskForXray() returns (r: Run)
    ensures Legal(r) && OneXrayStart(Reached(r).value, Marked, false, false)
  {
    r := Then(Begin, RequestStart(0, XrayEngine));
    assert Reached(Begin) == Some(Initial());
    forall e: Engine ensures e in Initial().engines {
      assert e == XrayEngine || e == AwgEngine || e == MihomoEngine;
    }
    assert WellFormed(Initial()) && Enabled(Initial(), RequestStart(0, XrayEngine));
    assert Reached(r) == Some(Do(Initial(), RequestStart(0, XrayEngine)));
  }

  const LATE_FAILURE := [Count, TakeLock, CheckGeneration, LookAtOwn, LookAtOthers, BringUp, RollBack]
  const PHASES := [Marked, Counted, Locked, Current, Clear, Alone, Up, Leaving(Failed)]

  ghost predicate After(s: State, k: nat)
    requires k <= 7
  {
    OneXrayStart(s, PHASES[k], k == 6, k >= 2)
  }

  lemma NextMove(s: State, k: nat)
    requires k < 7 && After(s, k)
    ensures Enabled(s, ByStart(0, LATE_FAILURE[k])) && After(StartStep(s, 0, LATE_FAILURE[k]), k + 1)
  {
  }

  lemma {:induction false} XrayAlone(k: nat) returns (r: Run)
    requires k <= 7
    ensures Legal(r) && After(Reached(r).value, k)
    ensures k > 0 ==>
      && r.Then? && r.action == ByStart(0, LATE_FAILURE[k - 1])
      && Legal(r.before) && After(Reached(r.before).value, k - 1)
  {
    if k == 0 {
      r := AskForXray();
    } else {
      var before := XrayAlone(k - 1);
      NextMove(Reached(before).value, k - 1);
      r := Then(before, ByStart(0, LATE_FAILURE[k - 1]));
    }
  }

  /** A start of xray that fails after it was marked running tears its own instance down, though no
      stop and no other start was ever asked for. */
  lemma OwnStartTearsDown() returns (r: Run)
    ensures Legal(Then(r, ByStart(0, RollBack)))
    ensures Reached(r).value.tasks == map[0 := Start(XrayEngine, 0, Up, false)]
    ensures Reached(r).value.engines[XrayEngine].running && Reached(r).value.engines[XrayEngine].instanceGen == 0
    ensures !Reached(Then(r, ByStart(0, RollBack))).value.engines[XrayEngine].running
  {
    var done := XrayAlone(7);
    r := done.before;
  }

  /** A start passes the tail check, and so publishes that it is connected, exactly when the session's
      generation is still its mark; and then, at that check and under the mutex, its engine runs the
      instance of exactly its own mark and no other engine runs. */
  lemma PublishedMeansConnected(r: Run, t: nat)
    requires Legal(Then(r, ByStart(t, TailCheck)))
    ensures var s, s' := Reached(r).value, Reached(Then(r, ByStart(t, TailCheck))).value;
            var task := s.tasks[t];
            && s.lock == Some(t)
            && (s'.tasks[t].published <==> s.gen == task.mark)
            && (s'.tasks[t].published ==>
                  s.engines[task.engine].running && s.engines[task.engine].instanceGen == task.mark)
            && (s'.tasks[t].published ==> !OthersRun(s, task.engine))
  {
    RunsKeep(r);
    CheckedUnderTheMutex(Reached(r).value, t);
  }

  lemma CheckedUnderTheMutex(s: State, t: nat)
    requires Inv(s) && Enabled(s, ByStart(t, TailCheck))
    ensures s.lock == Some(t)
    ensures var task := s.tasks[t];
            s.gen == task.mark ==>
              && s.engines[task.engine].running && s.engines[task.engine].instanceGen == task.mark
              && !OthersRun(s, task.engine)
  {
    assert TaskOK(s, t);
    assert EngineOK(s, s.engines[s.tasks[t].engine]);
  }

  // ---------------------------------------------------------------- starts asked for before a stop

  ghost predicate Extends(early: Run, late: Run) {
    early == late || (late.Then? && Extends(early, late.before))
  }

  lemma {:induction false} ExtendsLegal(early: Run, late: Run)
    requires Extends(early, late) && Legal(late)
    ensures Legal(early)
  {
    if early != late {
      ExtendsLegal(early, late.before);
    }
  }

  /** What an action does to the tasks: it moves one, which keeps its kind, its engine and its mark; a
      stop's generation is set once, past every generation before. */
  ghost predicate TasksMoved(s: State, s': State, a: Action) {
    && a.t in s'.tasks
    && s'.tasks.Keys == s.tasks.Keys + {a.t}
    && (forall u :: u in s.tasks && u != a.t ==> s'.tasks[u] == s.tasks[u])
    && (a.t in s.tasks ==>
          var was, now := s.tasks[a.t], s'.tasks[a.t];
          && now.engine == was.engine && (now.Start? <==> was.Start?)
          && (was.Start? ==> now.mark == was.mark)
          && (was.Stop? && was.stop != Asked ==> now.stop != Asked && now.stopGen == was.stopGen)
          && (was.Stop? && was.stop == Asked && now.stop != Asked ==> now.stopGen > s.gen))
    && (a.t !in s.tasks ==> s'.tasks[a.t].Start? || s'.tasks[a.t].stop == Asked)
  }

  lemma StepMovesTasks(s: State, a: Action)
    requires WellFormed(s) && Enabled(s, a)
    ensures TasksMoved(s, Do(s, a), a)
  {
    match a
    case ByStart(t, move) => StartMovesTasks(s, t, move);
    case ByStop(t, move) =>
    case RequestStart(t, _) =>
    case RequestStop(t, _) =>
  }

  lemma StartMovesTasks(s: State, t: nat, move: StartMove)
    requires WellFormed(s) && Enabled(s, ByStart(t, move))
    ensures TasksMoved(s, StartStep(s, t, move), ByStart(t, move))
  {
  }

  /** A start keeps its engine and its mark for good. */
  lemma {:induction false} MarksAreForGood(early: Run, late: Run, t: nat)
    requires Extends(early, late) && Legal(late) && Legal(early)
    requires t in Reached(early).value.tasks && Reached(early).value.tasks[t].Start?
    ensures t in Reached(late).value.tasks && Reached(late).value.tasks[t].Start?
    ensures Reached(late).value.tasks[t].mark == Reached(early).value.tasks[t].mark
    ensures Reached(late).value.tasks[t].engine == Reached(early).value.tasks[t].engine
  {
    if early != late {
      MarksAreForGood(early, late.before, t);
      StepMovesTasks(Reached(late.before).value, late.action);
    }
  }

  ghost predicate NotYetBumped(s: State, u: nat) {
    u in s.tasks ==> s.tasks[u].Stop? && s.tasks[u].stop == Asked
  }

  /** A stop that moves the generation after a start read it moves it past the start's mark. */
  lemma {:induction false} LaterStopsPassTheMark(early: Run, late: Run, t: nat, u: nat)
    requires Extends(early, late) && Legal(late) && Legal(early)
    requires t in Reached(early).value.tasks && Reached(early).value.tasks[t].Start?
    requires NotYetBumped(Reached(early).value, u)
    ensures var s := Reached(late).value;
            u in s.tasks && s.tasks[u].Stop? && s.tasks[u].stop != Asked ==>
              s.tasks[u].stopGen > Reached(early).value.tasks[t].mark
  {
    if early != late {
      LaterStopsPassTheMark(early, late.before, t, u);
      MarksAreForGood(early, late.before, t);
      StepMovesTasks(Reached(late.before).value, late.action);
      RunsKeep(late.before);
      assert TaskOK(Reached(late.before).value, t);
    }
  }

  /** No start asked for before a stop is left running once that stop is done, whatever ran between. */
  lemma EarlierStartIsGone(early: Run, late: Run, t: nat, u: nat)
    requires Extends(early, late) && Legal(late) && Legal(early)
    requires t in Reached(early).value.tasks && Reached(early).value.tasks[t].Start?
    requires NotYetBumped(Reached(early).value, u)
    requires u in Reached(late).value.tasks && Finished(Reached(late).value.tasks[u])
    requires Reached(late).value.tasks[u].engine == Reached(early).value.tasks[t].engine
    ensures var s, start := Reached(late).value, Reached(early).value.tasks[t];
            WellFormed(s) && !(s.engines[start.engine].running && s.engines[start.engine].instanceGen == start.mark)
  {
    CompletedStopIsFinal(late, u);
    LaterStopsPassTheMark(early, late, t, u);
  }

  // ---------------------------------------------------------------- a start counts as engaged

  predicate InFlight(task: Task) {
    task.Start? && task.phase != Marked && task.phase != StartDone
  }

  ghost function Starting(s: State, e: Engine): set<nat> {
    set t | t in s.tasks && InFlight(s.tasks[t]) && s.tasks[t].engine == e
  }

  lemma StartCounts(s: State, t: nat, move: StartMove, e: Engine)
    requires WellFormed(s) && Enabled(s, ByStart(t, move))
    ensures var s', mine := StartStep(s, t, move), s.tasks[t].engine == e;
            && InFlight(s.tasks[t]) == (move != Count)
            && InFlight(s'.tasks[t]) == (move != EndCount)
            && s'.engines[e].startsInFlight
               == s.engines[e].startsInFlight
                + (if !mine then 0 else if move == Count then 1 else if move == EndCount then -1 else 0)
  {
  }

  lemma CountStep(s: State, a: Action, e: Engine)
    requires WellFormed(s) && Enabled(s, a) && WellFormed(Do(s, a))
    requires s.engines[e].startsInFlight == |Starting(s, e)|
    ensures Do(s, a).engines[e].startsInFlight == |Starting(Do(s, a), e)|
  {
    var s', t := Do(s, a), a.t;
    StepMovesTasks(s, a);
    if a.ByStart? {
      StartCounts(s, t, a.start, e);
    }
    SetCount(Starting(s, e), Starting(s', e), t);
  }

  lemma SetCount(was: set<nat>, now: set<nat>, t: nat)
    requires forall x :: x != t ==> (x in was <==> x in now)
    ensures |now| == |was| + (if t in now && t !in was then 1 else if t !in now && t in was then -1 else 0)
  {
    if t in now && t !in was {
      assert now == was + {t};
    } else if t !in now && t in was {
      assert was == now + {t};
    } else {
      assert now == was;
    }
  }

  lemma {:induction false} StartsAreCounted(r: Run, e: Engine)
    requires Legal(r)
    ensures WellFormed(Reached(r).value)
    ensures Reached(r).value.engines[e].startsInFlight == |Starting(Reached(r).value, e)|
  {
    RunsKeep(r);
    match r
    case Begin => assert Starting(Initial(), e) == {};
    case Then(before, a) =>
      StartsAreCounted(before, e);
      CountStep(Reached(before).value, a, e);
  }

  /** A stop is taken exactly when its engine runs or a start of it is in flight. */
  lemma StopsAreTakenExactly(r: Run, u: nat, e: Engine)
    requires Legal(r) && u !in Reached(r).value.tasks
    ensures WellFormed(Reached(r).value)
    ensures Legal(Then(r, RequestStop(u, e)))
        <==> Reached(r).value.engines[e].running || Starting(Reached(r).value, e) != {}
  {
    StartsAreCounted(r, e);
  }

  // ---------------------------------------------------------------- the mutex is let go

  /** How many actions the holder still takes before it lets go of the mutex, at most. */
  function Remaining(task: Task): nat {
    if task.Stop? then (match task.stop case StopLocked => 3 case Tearing => 2 case StopLeaving => 1 case _ => 0)
    else match task.phase
      case Locked => 8
      case Current => 7
      case Replacing => 6
      case Clear => 5
      case Alone => 4
      case Up => 3
      case Leaving(_) => 1
      case TailLocked => 2
      case TailLeaving => 1
      case _ => 0
  }

  ghost predicate ByTask(a: Action, t: nat) {
    a.t == t && (a.ByStart? || a.ByStop?)
  }

  lemma StartNears(s: State, t: nat, move: StartMove)
    requires WellFormed(s) && Enabled(s, ByStart(t, move)) && Holds(s.tasks[t])
    ensures Remaining(StartStep(s, t, move).tasks[t]) < Remaining(s.tasks[t])
  {
  }

  lemma StopNears(s: State, t: nat, move: StopMove)
    requires WellFormed(s) && Enabled(s, ByStop(t, move)) && Holds(s.tasks[t])
    ensures Remaining(StopStep(s, t, move).tasks[t]) < Remaining(s.tasks[t])
  {
  }

  lemma HolderNears(s: State, t: nat, a: Action)
    requires WellFormed(s) && t in s.tasks && Holds(s.tasks[t]) && ByTask(a, t) && Enabled(s, a)
    ensures t in Do(s, a).tasks && Remaining(Do(s, a).tasks[t]) < Remaining(s.tasks[t])
  {
    match a
    case ByStart(_, move) => StartNears(s, t, move);
    case ByStop(_, move) => StopNears(s, t, move);
  }

  lemma HolderCanAct(s: State, t: nat)
    requires WellFormed(s) && t in s.tasks && Holds(s.tasks[t])
    ensures Remaining(s.tasks[t]) > 0
    ensures ByTask(HolderAction(t, s.tasks[t]), t) && Enabled(s, HolderAction(t, s.tasks[t]))
  {
  }

  /** Whoever holds the mutex can always act, and each of its acts brings it nearer to letting go. */
  lemma HolderLetsGo(r: Run, t: nat, a: Action)
    requires Legal(r) && Reached(r).value.lock == Some(t)
    ensures t in Reached(r).value.tasks && Remaining(Reached(r).value.tasks[t]) > 0
    ensures exists b :: ByTask(b, t) && Legal(Then(r, b))
    ensures ByTask(a, t) && Legal(Then(r, a)) ==>
              && t in Reached(Then(r, a)).value.tasks
              && Remaining(Reached(Then(r, a)).value.tasks[t]) < Remaining(Reached(r).value.tasks[t])
  {
    RunsKeep(r);
    var s := Reached(r).value;
    assert TaskOK(s, t);
    HolderCanAct(s, t);
    var b := HolderAction(t, s.tasks[t]);
    assert ByTask(b, t) && Legal(Then(r, b));
    if ByTask(a, t) && Legal(Then(r, a)) {
      HolderNears(s, t, a);
    }
  }

  function HolderAction(t: nat, task: Task): Action {
    if task.Stop?
    then ByStop(t, match task.stop case StopLocked => Judge case Tearing => TearDown case _ => ReleaseStop)
    else ByStart(t, match task.phase
      case Locked => CheckGeneration
      case Current => LookAtOwn
      case Replacing => StopOld
      case Clear => LookAtOthers
      case Alone => BringUpFails
      case Up => Succeed
      case TailLocked => TailCheck
      case TailLeaving => ReleaseTail
      case _ => Release)
  }
}
