/** The engine session protocol (internal/core/engine_session.go and the engines' start and stop
    bodies): starts and stops run as goroutines ordered by one mutex and by a session generation that
    stops and failed starts move without holding it. Every atomic access is one action, so a run is
    any interleaving of any number of starts and stops of the three engines. Two pairs of accesses are
    one action each. `engaged` loads the running flag and then the count, but passes at the load that
    is true, where the single test passes too. `up` stores the generation and then the flag, under the
    mutex; without it only the flag is ever read, and the generation counts only where the flag is up. */
module Session {
  import opened Text

  datatype Engine = XrayEngine | AwgEngine | MihomoEngine

  /** `engineSession`, with two records of the past that no action reads: the highest generation a
      finished stop of the engine stopped at, and the highest mark a start finished with. */
  datatype EngineState = EngineState(
    running: bool, instanceGen: int, startsInFlight: int, settled: int, served: int)

  /** How the locked part of a start ended. */
  datatype Result = Ended | Failed | Ready

  datatype StartPhase =
    | Marked                  // the generation is read, the start not yet counted
    | Counted                 // counted; about to take the mutex
    | Locked                  // holds the mutex
    | Current                 // its generation is the session's
    | Replacing               // an earlier session's instance runs; about to stop it
    | Clear                   // its own engine does not run
    | Alone                   // no other engine runs
    | Up                      // its instance is marked running
    | Leaving(result: Result) // about to release the mutex
    | Tail(result: Result)    // finishStart
    | TailLocked              // holds the mutex for the tail check
    | TailLeaving             // tail check made
    | Closing                 // the goroutine returns: about to end the count
    | StartDone

  datatype StopPhase =
    | Asked                   // the engine was engaged; the generation not yet moved
    | Bumped                  // the generation moved; about to take the mutex
    | StopLocked              // holds the mutex
    | Tearing                 // not superseded: about to tear the instance down
    | StopLeaving             // about to release the mutex
    | StopDone

  datatype Task =
    | Start(engine: Engine, mark: int, phase: StartPhase, published: bool)
    | Stop(engine: Engine, stopGen: int, stop: StopPhase)

  datatype State = State(
    gen: int, lock: Option<nat>, engines: map<Engine, EngineState>, tasks: map<nat, Task>)

  ghost predicate WellFormed(s: State) {
    forall e: Engine :: e in s.engines
  }

  function Initial(): State {
    var idle := EngineState(false, 0, 0, 0, -1);
    State(0, None, map[XrayEngine := idle, AwgEngine := idle, MihomoEngine := idle], map[])
  }

  // ---------------------------------------------------------------- actions

  datatype StartMove =
    | Count              // beginStart counts the start
    | PickFails          // awg: no link chosen; the session is cleared at once
    | TakeLock
    | CheckGeneration    // prepareStartLocked
    | LookAtOwn
    | StopOld
    | LookAtOthers
    | BringUp
    | BringUpFails
    | RollBack           // xray: the instance was marked running before it failed
    | Succeed
    | Release
    | FinishFailed       // finishStart clears the session: the generation moves
    | FinishEnded
    | TakeTailLock
    | TailCheck          // abortStaleEngineSession
    | ReleaseTail
    | EndCount

  datatype StopMove =
    | Bump               // clearSessionState
    | TakeStopLock
    | Judge              // supersedes
    | TearDown
    | ReleaseStop

  datatype Action =
    | RequestStart(t: nat, engine: Engine)  // beginStart reads the generation
    | RequestStop(t: nat, engine: Engine)   // the engaged check
    | ByStart(t: nat, start: StartMove)
    | ByStop(t: nat, stop: StopMove)

  predicate Engaged(st: EngineState) {
    st.running || st.startsInFlight > 0
  }

  predicate StartCan(s: State, task: Task, move: StartMove)
    requires task.Start?
  {
    match move
    case Count => task.phase == Marked
    case PickFails => task.phase == Counted && task.engine == AwgEngine
    case TakeLock => task.phase == Counted && s.lock == None
    case CheckGeneration => task.phase == Locked
    case LookAtOwn => task.phase == Current
    case StopOld => task.phase == Replacing
    case LookAtOthers => task.phase == Clear
    case BringUp => task.phase == Alone
    case BringUpFails => task.phase == Alone
    case RollBack => task.phase == Up && task.engine == XrayEngine
    case Succeed => task.phase == Up
    case Release => task.phase.Leaving?
    case FinishFailed => task.phase == Tail(Failed)
    case FinishEnded => task.phase == Tail(Ended)
    case TakeTailLock => task.phase == Tail(Ready) && s.lock == None
    case TailCheck => task.phase == TailLocked
    case ReleaseTail => task.phase == TailLeaving
    case EndCount => task.phase == Closing
  }

  predicate StopCan(s: State, task: Task, move: StopMove)
    requires task.Stop?
  {
    match move
    case Bump => task.stop == Asked
    case TakeStopLock => task.stop == Bumped && s.lock == None
    case Judge => task.stop == StopLocked
    case TearDown => task.stop == Tearing
    case ReleaseStop => task.stop == StopLeaving
  }

  ghost predicate Enabled(s: State, a: Action)
    requires WellFormed(s)
  {
    match a
    case RequestStart(t, e) => t !in s.tasks
    case RequestStop(t, e) => t !in s.tasks && Engaged(s.engines[e])
    case ByStart(t, move) => t in s.tasks && s.tasks[t].Start? && StartCan(s, s.tasks[t], move)
    case ByStop(t, move) => t in s.tasks && s.tasks[t].Stop? && StopCan(s, s.tasks[t], move)
  }

  function Max(a: int, b: int): int {
    if a < b then b else a
  }

  ghost predicate OthersRun(s: State, e: Engine)
    requires WellFormed(s)
  {
    exists o: Engine :: o != e && s.engines[o].running
  }

  /** A start of mark `m` brought its engine up, or found it up. */
  function Serve(st: EngineState, m: int): EngineState {
    st.(served := Max(st.served, m))
  }

  function Settle(st: EngineState, g: int): EngineState {
    st.(settled := Max(st.settled, g))
  }

  /** The start moved to phase `p`, with its engine as `st`. */
  function Moved(s: State, t: nat, p: StartPhase, st: EngineState): State
    requires t in s.tasks && s.tasks[t].Start?
  {
    s.(tasks := s.tasks[t := s.tasks[t].(phase := p)], engines := s.engines[s.tasks[t].engine := st])
  }

  function StopMoved(s: State, t: nat, p: StopPhase, st: EngineState): State
    requires t in s.tasks && s.tasks[t].Stop?
  {
    s.(tasks := s.tasks[t := s.tasks[t].(stop := p)], engines := s.engines[s.tasks[t].engine := st])
  }

  ghost function StartStep(s: State, t: nat, move: StartMove): State
    requires WellFormed(s) && t in s.tasks && s.tasks[t].Start? && StartCan(s, s.tasks[t], move)
  {
    var task := s.tasks[t];
    var e, st := task.engine, s.engines[task.engine];
    match move
    case Count => Moved(s, t, Counted, st.(startsInFlight := st.startsInFlight + 1))
    case PickFails => Moved(s, t, Closing, st).(gen := s.gen + 1)
    case TakeLock => Moved(s, t, Locked, st).(lock := Some(t))
    case CheckGeneration => Moved(s, t, if s.gen == task.mark then Current else Leaving(Ended), st)
    case LookAtOwn =>
      if !st.running then Moved(s, t, Clear, st)
      else if st.instanceGen == task.mark then Moved(s, t, Leaving(Ready), Serve(st, task.mark))
      else Moved(s, t, Replacing, st)
    case StopOld => Moved(s, t, Clear, st.(running := false))
    case LookAtOthers => Moved(s, t, if OthersRun(s, e) then Leaving(Failed) else Alone, st)
    case BringUp => Moved(s, t, Up, st.(running := true, instanceGen := task.mark))
    case BringUpFails => Moved(s, t, Leaving(Failed), st)
    case RollBack => Moved(s, t, Leaving(Failed), st.(running := false))
    case Succeed => Moved(s, t, Leaving(Ready), Serve(st, task.mark))
    case Release => Moved(s, t, Tail(task.phase.result), st).(lock := None)
    case FinishFailed => Moved(s, t, Closing, st).(gen := s.gen + 1)
    case FinishEnded => Moved(s, t, Closing, st)
    case TakeTailLock => Moved(s, t, TailLocked, st).(lock := Some(t))
    case TailCheck => s.(tasks := s.tasks[t := task.(phase := TailLeaving, published := s.gen == task.mark)])
    case ReleaseTail => Moved(s, t, Closing, st).(lock := None)
    case EndCount => Moved(s, t, StartDone, st.(startsInFlight := st.startsInFlight - 1))
  }

  function StopStep(s: State, t: nat, move: StopMove): State
    requires t in s.tasks && s.tasks[t].Stop? && s.tasks[t].engine in s.engines && StopCan(s, s.tasks[t], move)
  {
    var task := s.tasks[t];
    var e, st := task.engine, s.engines[task.engine];
    match move
    case Bump => s.(gen := s.gen + 1, tasks := s.tasks[t := Stop(e, s.gen + 1, Bumped)])
    case TakeStopLock => StopMoved(s, t, StopLocked, st).(lock := Some(t))
    case Judge =>
      if st.running && st.instanceGen >= task.stopGen
      then StopMoved(s, t, StopLeaving, Settle(st, task.stopGen))
      else StopMoved(s, t, Tearing, st)
    case TearDown => StopMoved(s, t, StopLeaving, Settle(st.(running := false), task.stopGen))
    case ReleaseStop => StopMoved(s, t, StopDone, st).(lock := None)
  }

  ghost function Do(s: State, a: Action): State
    requires WellFormed(s) && Enabled(s, a)
  {
    match a
    case RequestStart(t, e) => s.(tasks := s.tasks[t := Start(e, s.gen, Marked, false)])
    case RequestStop(t, e) => s.(tasks := s.tasks[t := Stop(e, 0, Asked)])
    case ByStart(t, move) => StartStep(s, t, move)
    case ByStop(t, move) => StopStep(s, t, move)
  }

  // ---------------------------------------------------------------- runs

  datatype Run = Begin | Then(before: Run, action: Action)

  /** The state a run reaches, none when an action of it was not enabled. */
  ghost function Reached(r: Run): Option<State> {
    match r
    case Begin => Some(Initial())
    case Then(before, a) =>
      var s := Reached(before);
      if s.Some? && WellFormed(s.value) && Enabled(s.value, a) then Some(Do(s.value, a)) else None
  }

  ghost predicate Legal(r: Run) {
    Reached(r).Some?
  }
}
