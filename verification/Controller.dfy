/** The session's fields and the code that changes them (internal/core/engine_session.go and the
    engines' start and stop bodies), each body shown to be moves of the protocol of module Session. */
module Controller {
  import opened Text
  import opened Session

  class EngineSession {
    var running: bool
    var startsInFlight: int
    var instanceGen: int

    constructor ()
      ensures !running && startsInFlight == 0 && instanceGen == 0
    {
      running, startsInFlight, instanceGen := false, 0, 0;
    }

    predicate Supersedes(stopGen: int)
      reads this
    {
      running && instanceGen >= stopGen
    }

    method MarkUp(mark: int)
      modifies this`running, this`instanceGen
      ensures running && instanceGen == mark
    {
      instanceGen := mark;
      running := true;
    }

    /** The teardown, which does nothing to an engine that is down. */
    method StopLocked()
      modifies this`running
      ensures !running
    {
      if !running {
        return;
      }
      running := false;
    }
  }

  // ---------------------------------------------------------------- moves of one task

  ghost predicate Can(s: State, t: nat, move: StartMove) {
    WellFormed(s) && t in s.tasks && s.tasks[t].Start? && StartCan(s, s.tasks[t], move)
  }

  /** The state task `t` reaches from `s` by `moves` of its own, if it can make them. */
  ghost function Played(s: State, t: nat, moves: seq<StartMove>): Option<State> {
    if moves == [] then Some(s)
    else
      var n := |moves| - 1;
      match Played(s, t, moves[..n])
      case None => None
      case Some(mid) => if Can(mid, t, moves[n]) then Some(StartStep(mid, t, moves[n])) else None
  }

  ghost predicate StartMade(s: State, t: nat, moves: seq<StartMove>, s': State) {
    Played(s, t, moves) == Some(s')
  }

  lemma OneMore(s: State, t: nat, moves: seq<StartMove>, mid: State, move: StartMove)
    requires StartMade(s, t, moves, mid) && Can(mid, t, move)
    ensures StartMade(s, t, moves + [move], StartStep(mid, t, move))
  {
    var all := moves + [move];
    assert all[..|all| - 1] == moves;
  }

  ghost predicate IsStart(s: State, t: nat, e: Engine, mark: int, phase: StartPhase) {
    t in s.tasks && s.tasks[t].Start? && s.tasks[t].engine == e && s.tasks[t].mark == mark && s.tasks[t].phase == phase
  }

  /** Only engine `e` may differ, and not in its count. */
  ghost predicate OnlyEngine(s: State, s': State, e: Engine) {
    && WellFormed(s) && WellFormed(s') && s'.gen == s.gen
    && (forall d: Engine :: d != e ==> s'.engines[d] == s.engines[d])
    && s'.engines[e].startsInFlight == s.engines[e].startsInFlight
  }

  function Prepared(gen: int, running: bool, instanceGen: int, mark: int): StartPhase {
    if gen != mark then Leaving(Ended) else if running && instanceGen == mark then Leaving(Ready) else Clear
  }

  /** What the locked part of a start has left of its engine. */
  ghost predicate Left(s: State, s': State, t: nat, e: Engine, mark: int, phase: StartPhase, running: bool) {
    OnlyEngine(s, s', e) && IsStart(s', t, e, mark, phase) && s'.engines[e].running == running
  }

  lemma CheckMove(s: State, t: nat, e: Engine, mark: int)
    requires WellFormed(s) && IsStart(s, t, e, mark, Locked)
    ensures Can(s, t, CheckGeneration)
    ensures var s' := StartStep(s, t, CheckGeneration);
      && Left(s, s', t, e, mark, if s.gen == mark then Current else Leaving(Ended), s.engines[e].running)
      && s'.engines[e] == s.engines[e]
  {
  }

  lemma LookMove(s: State, t: nat, e: Engine, mark: int)
    requires WellFormed(s) && IsStart(s, t, e, mark, Current)
    ensures Can(s, t, LookAtOwn)
    ensures var s', st := StartStep(s, t, LookAtOwn), s.engines[e];
      var p := if !st.running then Clear else if st.instanceGen == mark then Leaving(Ready) else Replacing;
      Left(s, s', t, e, mark, p, st.running) && s'.engines[e].instanceGen == st.instanceGen
  {
  }

  lemma ReplaceMove(s: State, t: nat, e: Engine, mark: int)
    requires WellFormed(s) && IsStart(s, t, e, mark, Replacing)
    ensures Can(s, t, StopOld)
    ensures var s' := StartStep(s, t, StopOld);
      Left(s, s', t, e, mark, Clear, false) && s'.engines[e].instanceGen == s.engines[e].instanceGen
  {
  }

  lemma FirstMove(s: State, t: nat, move: StartMove)
    requires Can(s, t, move)
    ensures StartMade(s, t, [move], StartStep(s, t, move))
  {
    OneMore(s, t, [], s, move);
    assert [] + [move] == [move];
  }

  lemma PrepareMoves(s: State, t: nat, e: Engine, mark: int) returns (moves: seq<StartMove>, s': State)
    requires WellFormed(s) && IsStart(s, t, e, mark, Locked)
    ensures StartMade(s, t, moves, s')
    ensures var st := s.engines[e]; var p := Prepared(s.gen, st.running, st.instanceGen, mark);
      Left(s, s', t, e, mark, p, st.running && p != Clear) && s'.engines[e].instanceGen == st.instanceGen
  {
    CheckMove(s, t, e, mark);
    FirstMove(s, t, CheckGeneration);
    moves, s' := [CheckGeneration], StartStep(s, t, CheckGeneration);
    if s.gen == mark {
      var at := s';
      LookMove(at, t, e, mark);
      OneMore(s, t, moves, at, LookAtOwn);
      moves, s' := moves + [LookAtOwn], StartStep(at, t, LookAtOwn);
      if s'.tasks[t].phase == Replacing {
        var found := s';
        ReplaceMove(found, t, e, mark);
        OneMore(s, t, moves, found, StopOld);
        moves, s' := moves + [StopOld], StartStep(found, t, StopOld);
      }
    }
  }

  /** How bringing the instance up goes; only xray fails after it has marked the instance running. */
  datatype Launch = Fails | Succeeds | FailsLate

  function Launched(others: bool, launch: Launch): Result {
    if !others && launch == Succeeds then Ready else Failed
  }

  lemma OthersMove(s: State, t: nat, e: Engine, mark: int)
    requires WellFormed(s) && IsStart(s, t, e, mark, Clear)
    ensures Can(s, t, LookAtOthers)
    ensures var s' := StartStep(s, t, LookAtOthers);
      && Left(s, s', t, e, mark, if OthersRun(s, e) then Leaving(Failed) else Alone, s.engines[e].running)
      && s'.engines[e] == s.engines[e]
  {
  }

  lemma UpMove(s: State, t: nat, e: Engine, mark: int, launch: Launch)
    requires WellFormed(s) && IsStart(s, t, e, mark, Alone) && !s.engines[e].running
    ensures var move := if launch == Fails then BringUpFails else BringUp;
      && Can(s, t, move)
      && var s' := StartStep(s, t, move);
         && Left(s, s', t, e, mark, if launch == Fails then Leaving(Failed) else Up, launch != Fails)
         && (launch != Fails ==> s'.engines[e].instanceGen == mark)
  {
  }

  lemma LastMove(s: State, t: nat, e: Engine, mark: int, late: bool)
    requires WellFormed(s) && IsStart(s, t, e, mark, Up) && s.engines[e].running && s.engines[e].instanceGen == mark
    requires late ==> e == XrayEngine
    ensures var move := if late then RollBack else Succeed;
      && Can(s, t, move)
      && var s' := StartStep(s, t, move);
         Left(s, s', t, e, mark, Leaving(if late then Failed else Ready), !late) && s'.engines[e].instanceGen == mark
  {
  }

  /** From a clear engine on: the rest of the moves the start makes under the mutex. */
  lemma LaunchMoves(
      s: State, t: nat, before: seq<StartMove>, clear: State, e: Engine, mark: int, launch: Launch)
    returns (moves: seq<StartMove>, s': State)
    requires StartMade(s, t, before, clear)
    requires WellFormed(clear) && IsStart(clear, t, e, mark, Clear) && !clear.engines[e].running
    requires launch == FailsLate ==> e == XrayEngine
    ensures StartMade(s, t, moves, s')
    ensures var result := Launched(OthersRun(clear, e), launch);
            Left(clear, s', t, e, mark, Leaving(result), result == Ready)
    ensures s'.engines[e].running ==> s'.engines[e].instanceGen == mark
  {
    OthersMove(clear, t, e, mark);
    OneMore(s, t, before, clear, LookAtOthers);
    moves, s' := before + [LookAtOthers], StartStep(clear, t, LookAtOthers);
    if !OthersRun(clear, e) {
      moves, s' := AloneMoves(s, t, moves, s', e, mark, launch);
    }
  }

  lemma AloneMoves(
      s: State, t: nat, before: seq<StartMove>, alone: State, e: Engine, mark: int, launch: Launch)
    returns (moves: seq<StartMove>, s': State)
    requires StartMade(s, t, before, alone)
    requires WellFormed(alone) && IsStart(alone, t, e, mark, Alone) && !alone.engines[e].running
    requires launch == FailsLate ==> e == XrayEngine
    ensures StartMade(s, t, moves, s')
    ensures Left(alone, s', t, e, mark, Leaving(Launched(false, launch)), launch == Succeeds)
    ensures s'.engines[e].running ==> s'.engines[e].instanceGen == mark
  {
    var move := if launch == Fails then BringUpFails else BringUp;
    UpMove(alone, t, e, mark, launch);
    OneMore(s, t, before, alone, move);
    moves, s' := before + [move], StartStep(alone, t, move);
    if launch != Fails {
      var up, next := s', if launch == FailsLate then RollBack else Succeed;
      LastMove(up, t, e, mark, launch == FailsLate);
      OneMore(s, t, moves, up, next);
      moves, s' := moves + [next], StartStep(up, t, next);
    }
  }

  // ---------------------------------------------------------------- the controller

  class CoreController {
    var sessionGen: int
    const xray: EngineSession
    const awg: EngineSession
    const mihomo: EngineSession

    constructor ()
      ensures Valid() && Shows(Initial()) && fresh(xray) && fresh(awg) && fresh(mihomo)
    {
      sessionGen := 0;
      xray := new EngineSession();
      awg := new EngineSession();
      mihomo := new EngineSession();
      new;
      forall e: Engine ensures e in Initial().engines && ShowsEngine(e, Initial().engines[e]) {
        assert e == XrayEngine || e == AwgEngine || e == MihomoEngine;
      }
    }

    predicate Valid() {
      xray != awg && awg != mihomo && xray != mihomo
    }

    function Of(e: Engine): EngineSession {
      match e
      case XrayEngine => xray
      case AwgEngine => awg
      case MihomoEngine => mihomo
    }

    /** An instance's generation counts only while it runs. */
    ghost predicate ShowsEngine(e: Engine, st: EngineState)
      reads Of(e)
    {
      && Of(e).running == st.running && Of(e).startsInFlight == st.startsInFlight
      && (Of(e).running ==> Of(e).instanceGen == st.instanceGen)
    }

    /** The fields are those of the protocol's state. */
    ghost predicate Shows(s: State)
      reads this, xray, awg, mihomo
    {
      WellFormed(s) && sessionGen == s.gen && forall e: Engine :: ShowsEngine(e, s.engines[e])
    }

    method ClearSessionState() returns (gen: int)
      modifies this`sessionGen
      ensures sessionGen == old(sessionGen) + 1 == gen
    {
      sessionGen := sessionGen + 1;
      gen := sessionGen;
    }

    /** `prepareStartLocked`. */
    method PrepareStartLocked(e: Engine, mark: int, ghost s: State, ghost t: nat)
      returns (already: bool, ended: bool, ghost moves: seq<StartMove>, ghost s': State)
      requires Valid() && Shows(s) && IsStart(s, t, e, mark, Locked)
      modifies Of(e)`running
      ensures Shows(s') && StartMade(s, t, moves, s')
      ensures IsStart(s', t, e, mark, if ended then Leaving(Ended) else if already then Leaving(Ready) else Clear)
      ensures !ended && !already ==> !Of(e).running
    {
      assert ShowsEngine(e, s.engines[e]);
      moves, s' := PrepareMoves(s, t, e, mark);
      already, ended := false, sessionGen != mark;
      if !ended && Of(e).running {
        if Of(e).instanceGen == mark {
          already := true;
        } else {
          Of(e).StopLocked();
        }
      }
      forall d: Engine ensures ShowsEngine(d, s'.engines[d]) {
        assert old(ShowsEngine(d, s.engines[d]));
      }
    }

    /** `xrayStart`, `awgStart` and `mihomoStart` between taking and releasing the mutex. */
    method StartLocked(e: Engine, mark: int, launch: Launch, ghost s: State, ghost t: nat)
      returns (result: Result, ghost moves: seq<StartMove>, ghost s': State)
      requires Valid() && Shows(s) && IsStart(s, t, e, mark, Locked)
      requires launch == FailsLate ==> e == XrayEngine
      modifies Of(e)`running, Of(e)`instanceGen
      ensures Shows(s') && StartMade(s, t, moves, s') && IsStart(s', t, e, mark, Leaving(result))
    {
      var already, ended := false, false;
      already, ended, moves, s' := PrepareStartLocked(e, mark, s, t);
      if ended {
        return Ended, moves, s';
      }
      if already {
        return Ready, moves, s';
      }
      result, moves, s' := LaunchLocked(e, mark, launch, s, t, moves, s');
    }

    method LaunchLocked(
        e: Engine, mark: int, launch: Launch, ghost s: State, ghost t: nat, ghost before: seq<StartMove>,
        ghost clear: State)
      returns (result: Result, ghost moves: seq<StartMove>, ghost s': State)
      requires Valid() && Shows(clear) && StartMade(s, t, before, clear) && IsStart(clear, t, e, mark, Clear)
      requires !Of(e).running && (launch == FailsLate ==> e == XrayEngine)
      modifies Of(e)`running, Of(e)`instanceGen
      ensures Shows(s') && StartMade(s, t, moves, s') && IsStart(s', t, e, mark, Leaving(result))
    {
      assert ShowsEngine(e, clear.engines[e]);
      moves, s' := LaunchMoves(s, t, before, clear, e, mark, launch);
      var others := OtherRunning(e, clear);
      result := Failed;
      if !others && launch != Fails {
        Of(e).MarkUp(mark);
        if launch == FailsLate {
          Of(e).StopLocked();
        } else {
          result := Ready;
        }
      }
      forall d: Engine ensures ShowsEngine(d, s'.engines[d]) {
        assert old(ShowsEngine(d, clear.engines[d]));
      }
    }

    method OtherRunning(e: Engine, ghost s: State) returns (others: bool)
      requires Shows(s)
      ensures others == OthersRun(s, e)
    {
      assert ShowsEngine(XrayEngine, s.engines[XrayEngine]);
      assert ShowsEngine(AwgEngine, s.engines[AwgEngine]);
      assert ShowsEngine(MihomoEngine, s.engines[MihomoEngine]);
      match e
      case XrayEngine => others := awg.running || mihomo.running;
      case AwgEngine => others := xray.running || mihomo.running;
      case MihomoEngine => others := xray.running || awg.running;
    }

    /** `stopEngineInstance` between taking and releasing the mutex: the moves Judge and, unless a
        later start owns the instance, TearDown. */
    method StopInstanceLocked(e: Engine, stopGen: int, ghost s: State, ghost t: nat)
      returns (superseded: bool, ghost s': State)
      requires Valid() && Shows(s) && t in s.tasks && s.tasks[t] == Stop(e, stopGen, StopLocked)
      modifies Of(e)`running
      ensures Shows(s') && t in s'.tasks && s'.tasks[t] == Stop(e, stopGen, StopLeaving)
      ensures superseded ==> s' == StopStep(s, t, Judge)
      ensures !superseded ==>
        var judged := StopStep(s, t, Judge);
        judged.tasks[t].stop == Tearing && s' == StopStep(judged, t, TearDown)
    {
      assert ShowsEngine(e, s.engines[e]);
      ghost var judged := StopStep(s, t, Judge);
      superseded := Of(e).Supersedes(stopGen);
      s' := judged;
      if !superseded {
        Of(e).StopLocked();
        s' := StopStep(judged, t, TearDown);
      }
      forall d: Engine ensures ShowsEngine(d, s'.engines[d]) {
        assert old(ShowsEngine(d, s.engines[d]));
      }
    }
  }
}
