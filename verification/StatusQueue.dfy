/** The deferred status events (internal/core/status_sink.go): the queue as an object changed under
    its mutex, and every run of it with callers and drain goroutines interleaved. */
module StatusQueue {

  import opened Text

  const LOG_EVENT := 400
  const CONN_EVENT := 402
  const MAX_DEFERRED := 2048

  /** An event and the callback that was registered when it was emitted. */
  datatype Event = Event(sink: nat, code: int, message: string)

  predicate Sheddable(e: Event) {
    e.code == LOG_EVENT || e.code == CONN_EVENT
  }

  /** What the mutex guards. */
  datatype Queue = Queue(pending: seq<Event>, draining: bool)

  function OldestSheddable(es: seq<Event>): (i: nat)
    ensures i <= |es|
    ensures i < |es| ==> Sheddable(es[i])
    ensures forall j :: 0 <= j < i ==> !Sheddable(es[j])
  {
    if es == [] then 0 else if Sheddable(es[0]) then 0 else 1 + OldestSheddable(es[1..])
  }

  function Without<T>(s: seq<T>, i: nat): seq<T> {
    if i < |s| then s[..i] + s[i + 1..] else s
  }

  function MadeRoom(es: seq<Event>): seq<Event> {
    if |es| >= MAX_DEFERRED then Without(es, OldestSheddable(es)) else es
  }

  predicate Defers(q: Queue, mustDefer: bool) {
    mustDefer || q.draining
  }

  function Offered(q: Queue, e: Event, mustDefer: bool): Queue {
    if Defers(q, mustDefer) then Queue(MadeRoom(q.pending) + [e], true) else q
  }

  function Taken(q: Queue): Queue {
    if q.pending == [] then Queue([], false) else Queue(q.pending[1..], q.draining)
  }

  class Deferred {
    var pending: seq<Event>
    var draining: bool

    constructor ()
      ensures Contents() == Queue([], false)
    {
      pending, draining := [], false;
    }

    ghost function Contents(): Queue
      reads this
    {
      Queue(pending, draining)
    }

    /** `starts` is the `go q.drain()` of the caller that found nobody draining. */
    method Offer(e: Event, mustDefer: bool) returns (queued: bool, starts: bool)
      modifies this
      ensures queued <==> mustDefer || old(draining)
      ensures starts <==> queued && !old(draining)
      ensures queued ==> draining && pending != [] && pending[|pending| - 1] == e
      ensures queued && |old(pending)| < 2048 ==> pending == old(pending) + [e]
      ensures !queued ==> pending == old(pending) && draining == old(draining)
      ensures Contents() == Offered(old(Contents()), e, mustDefer)
    {
      if !mustDefer && !draining {
        return false, false;
      }
      if |pending| >= MAX_DEFERRED {
        DropOldestDroppable();
      }
      pending := pending + [e];
      starts := !draining;
      draining := true;
      queued := true;
    }

    method DropOldestDroppable()
      modifies this`pending
      ensures pending == Without(old(pending), OldestSheddable(old(pending)))
    {
      for i := 0 to |pending|
        invariant pending == old(pending)
        invariant forall j :: 0 <= j < i ==> !Sheddable(pending[j])
      {
        if Sheddable(pending[i]) {
          pending := pending[..i] + pending[i + 1..];
          return;
        }
      }
    }

    /** One turn of the drain loop up to its callback; nothing to call ends the goroutine. */
    method Take() returns (next: Option<Event>)
      modifies this
      ensures next == if old(pending) == [] then None else Some(old(pending)[0])
      ensures Contents() == Taken(old(Contents()))
    {
      if |pending| == 0 {
        pending := [];
        draining := false;
        return None;
      }
      next := Some(pending[0]);
      pending := pending[1..];
    }
  }

  // ---------------------------------------------------------------- runs

  datatype Drainer = Looping | Calling(place: nat) | Ended

  /** `queue` and `drainers` are the program's. The rest is the record of the run: the events queued
      in their order, the place in it of each pending event, the places shed, and the places whose
      callbacks have returned, in that order. */
  datatype State = State(
    queue: Queue,
    drainers: seq<Drainer>,
    accepted: seq<Event>,
    places: seq<nat>,
    shed: set<nat>,
    delivered: seq<nat>)

  const START := State(Queue([], false), [], [], [], {}, [])

  datatype Action = Emit(event: Event, mustDefer: bool) | DrainTurn(who: nat) | CallbackReturns(caller: nat)

  predicate Enabled(s: State, a: Action) {
    match a
    case Emit(_, _) => true
    case DrainTurn(d) => d < |s.drainers| && s.drainers[d] == Looping
    case CallbackReturns(d) => d < |s.drainers| && s.drainers[d].Calling?
  }

  function AfterEmit(s: State, e: Event, mustDefer: bool): State {
    if !Defers(s.queue, mustDefer) then s else
    var full := |s.queue.pending| >= MAX_DEFERRED;
    var i := OldestSheddable(s.queue.pending);
    State(
      Offered(s.queue, e, mustDefer),
      if s.queue.draining then s.drainers else s.drainers + [Looping],
      s.accepted + [e],
      (if full then Without(s.places, i) else s.places) + [|s.accepted|],
      if full && i < |s.places| then s.shed + {s.places[i]} else s.shed,
      s.delivered)
  }

  function AfterTurn(s: State, d: nat): State
    requires d < |s.drainers|
  {
    if s.places == [] then s.(queue := Taken(s.queue), drainers := s.drainers[d := Ended]) else
    s.(queue := Taken(s.queue), drainers := s.drainers[d := Calling(s.places[0])], places := s.places[1..])
  }

  function AfterCallback(s: State, d: nat): State
    requires d < |s.drainers| && s.drainers[d].Calling?
  {
    s.(drainers := s.drainers[d := Looping], delivered := s.delivered + [s.drainers[d].place])
  }

  function Do(s: State, a: Action): State
    requires Enabled(s, a)
  {
    match a
    case Emit(e, mustDefer) => AfterEmit(s, e, mustDefer)
    case DrainTurn(d) => AfterTurn(s, d)
    case CallbackReturns(d) => AfterCallback(s, d)
  }

  function Reached(run: seq<Action>): Option<State> {
    if run == [] then Some(START) else
    match Reached(run[..|run| - 1])
    case None => None
    case Some(s) => if Enabled(s, run[|run| - 1]) then Some(Do(s, run[|run| - 1])) else None
  }

  // ---------------------------------------------------------------- what every run keeps

  /** The queue order without what was shed. */
  function Unshed(n: nat, shed: set<nat>): seq<nat> {
    if n == 0 then [] else Unshed(n - 1, shed) + if n - 1 in shed then [] else [n - 1]
  }

  predicate Draining(s: State) {
    s.drainers != [] && s.drainers[|s.drainers| - 1] != Ended
  }

  function Held(s: State): seq<nat> {
    if s.drainers != [] && s.drainers[|s.drainers| - 1].Calling? then [s.drainers[|s.drainers| - 1].place] else []
  }

  predicate OneDrains(s: State) {
    && (forall d :: 0 <= d < |s.drainers| - 1 ==> s.drainers[d] == Ended)
    && s.queue.draining == Draining(s)
    && (!s.queue.draining ==> s.queue.pending == [])
  }

  predicate Placed(s: State) {
    PlacedIn(s.queue.pending, s.places, s.accepted)
  }

  predicate PlacedIn(pending: seq<Event>, places: seq<nat>, accepted: seq<Event>) {
    && |places| == |pending|
    && forall k :: 0 <= k < |places| ==> places[k] < |accepted| && pending[k] == accepted[places[k]]
  }

  predicate OnlySheddable(s: State) {
    forall i :: i in s.shed ==> i < |s.accepted| && Sheddable(s.accepted[i])
  }

  ghost predicate AtMostOneSheddable(es: seq<Event>) {
    forall i, j :: 0 <= i < |es| && 0 <= j < |es| && Sheddable(es[i]) && Sheddable(es[j]) ==> i == j
  }

  ghost predicate Bounded(q: Queue) {
    |q.pending| > MAX_DEFERRED ==> AtMostOneSheddable(q.pending)
  }

  ghost predicate InOrder(s: State) {
    s.delivered + Held(s) + s.places == Unshed(|s.accepted|, s.shed)
  }

  ghost predicate Inv(s: State) {
    OneDrains(s) && Placed(s) && OnlySheddable(s) && Bounded(s.queue) && InOrder(s)
  }

  lemma {:induction false} UnshedBelow(n: nat, shed: set<nat>, i: nat)
    ensures i in Unshed(n, shed) <==> i < n && i !in shed
  {
    if n > 0 {
      UnshedBelow(n - 1, shed, i);
    }
  }

  lemma {:induction false} UnshedRises(n: nat, shed: set<nat>, j: nat, k: nat)
    requires j < k < |Unshed(n, shed)|
    ensures Unshed(n, shed)[j] < Unshed(n, shed)[k]
  {
    var rest := Unshed(n - 1, shed);
    if k < |rest| {
      UnshedRises(n - 1, shed, j, k);
    } else {
      UnshedBelow(n - 1, shed, rest[j]);
    }
  }

  lemma {:induction false} ShedBeyond(n: nat, shed: set<nat>, x: nat)
    requires n <= x
    ensures Unshed(n, shed + {x}) == Unshed(n, shed)
  {
    if n > 0 {
      ShedBeyond(n - 1, shed, x);
    }
  }

  lemma NewestIsLast(n: nat, shed: set<nat>, at: nat)
    requires n > 0 && at < |Unshed(n, shed)| && Unshed(n, shed)[at] == n - 1
    ensures at == |Unshed(n, shed)| - 1
  {
    var rest := Unshed(n - 1, shed);
    if at < |rest| {
      UnshedBelow(n - 1, shed, rest[at]);
    }
  }

  /** Shedding one more place takes it out of the order and leaves the rest as it was. */
  lemma {:induction false} ShedOne(n: nat, shed: set<nat>, before: seq<nat>, x: nat, after: seq<nat>)
    requires Unshed(n, shed) == before + [x] + after
    ensures Unshed(n, shed + {x}) == before + after
  {
    assert (before + [x] + after)[|before|] == x;
    UnshedBelow(n, shed, x);
    if x == n - 1 {
      NewestIsLast(n, shed, |before|);
      ShedNewest(n, shed, before, after);
    } else if n - 1 in shed {
      ShedOne(n - 1, shed, before, x, after);
    } else {
      var rest := Unshed(n - 1, shed);
      SplitLast(rest, n - 1, before, x, after);
      ShedOne(n - 1, shed, before, x, after[..|after| - 1]);
      assert before + after[..|after| - 1] + [n - 1] == before + after;
    }
  }

  lemma ShedNewest(n: nat, shed: set<nat>, before: seq<nat>, after: seq<nat>)
    requires n > 0 && n - 1 !in shed && Unshed(n, shed) == before + [n - 1] + after && after == []
    ensures Unshed(n, shed + {n - 1}) == before + after
  {
    ShedBeyond(n - 1, shed, n - 1);
    var rest := Unshed(n - 1, shed);
    assert before == rest by {
      assert (before + [n - 1] + after)[..|before|] == before && (rest + [n - 1])[..|rest|] == rest;
    }
  }

  lemma SplitLast(rest: seq<nat>, last: nat, before: seq<nat>, x: nat, after: seq<nat>)
    requires rest + [last] == before + [x] + after && x != last
    ensures after != [] && after == after[..|after| - 1] + [last]
    ensures rest == before + [x] + after[..|after| - 1]
  {
    assert (rest + [last])[|rest|] == last;
    assert (before + [x] + after)[|before|] == x;
    assert after[|after| - 1] == (before + [x] + after)[|rest|];
    assert (rest + [last])[..|rest|] == rest;
  }

  lemma RoomKeepsBound(q: Queue, e: Event)
    requires Bounded(q)
    ensures Bounded(Queue(MadeRoom(q.pending) + [e], true))
  {
  }

  lemma HeldIsKept(s: State, e: Event, mustDefer: bool)
    requires OneDrains(s)
    ensures Held(AfterEmit(s, e, mustDefer)) == Held(s)
  {
  }

  /** Queueing behind the last event, with or without one shed. */
  lemma EmitKeepsOrder(s: State, e: Event, mustDefer: bool)
    requires OneDrains(s) && Placed(s) && OnlySheddable(s) && InOrder(s) && Defers(s.queue, mustDefer)
    ensures InOrder(AfterEmit(s, e, mustDefer))
  {
    var n := |s.accepted|;
    var i := OldestSheddable(s.queue.pending);
    var t := AfterEmit(s, e, mustDefer);
    var front := s.delivered + Held(s);
    HeldIsKept(s, e, mustDefer);
    if |s.queue.pending| >= MAX_DEFERRED && i < |s.places| {
      assert front + s.places == (front + s.places[..i]) + [s.places[i]] + s.places[i + 1..];
      ShedOne(n, s.shed, front + s.places[..i], s.places[i], s.places[i + 1..]);
      assert front + Without(s.places, i) == front + s.places[..i] + s.places[i + 1..];
      assert t.delivered + Held(t) + t.places == front + Without(s.places, i) + [n];
    } else {
      assert t.delivered + Held(t) + t.places == front + s.places + [n];
    }
    assert n !in t.shed;
  }

  lemma PlacedWithout(pending: seq<Event>, places: seq<nat>, accepted: seq<Event>, i: nat)
    requires PlacedIn(pending, places, accepted)
    ensures PlacedIn(Without(pending, i), Without(places, i), accepted)
  {
  }

  lemma PlacedBehind(pending: seq<Event>, places: seq<nat>, accepted: seq<Event>, e: Event)
    requires PlacedIn(pending, places, accepted)
    ensures PlacedIn(pending + [e], places + [|accepted|], accepted + [e])
  {
  }

  lemma EmitKeepsPlaces(s: State, e: Event, mustDefer: bool)
    requires Placed(s) && Defers(s.queue, mustDefer)
    ensures Placed(AfterEmit(s, e, mustDefer))
  {
    var i := OldestSheddable(s.queue.pending);
    var full := |s.queue.pending| >= MAX_DEFERRED;
    PlacedWithout(s.queue.pending, s.places, s.accepted, i);
    PlacedBehind(MadeRoom(s.queue.pending), if full then Without(s.places, i) else s.places, s.accepted, e);
  }

  lemma EmitShedsOnlySheddable(s: State, e: Event, mustDefer: bool)
    requires Placed(s) && OnlySheddable(s)
    ensures OnlySheddable(AfterEmit(s, e, mustDefer))
  {
  }

  lemma EmitKeepsOneDrainer(s: State, e: Event, mustDefer: bool)
    requires OneDrains(s)
    ensures OneDrains(AfterEmit(s, e, mustDefer))
  {
  }

  lemma EmitKeeps(s: State, e: Event, mustDefer: bool)
    requires Inv(s)
    ensures Inv(AfterEmit(s, e, mustDefer))
  {
    EmitKeepsOneDrainer(s, e, mustDefer);
    EmitShedsOnlySheddable(s, e, mustDefer);
    if Defers(s.queue, mustDefer) {
      EmitKeepsPlaces(s, e, mustDefer);
      RoomKeepsBound(s.queue, e);
      EmitKeepsOrder(s, e, mustDefer);
    }
  }

  lemma TurnKeeps(s: State, d: nat)
    requires Inv(s) && d < |s.drainers| && s.drainers[d] == Looping
    ensures Inv(AfterTurn(s, d))
  {
    assert d == |s.drainers| - 1;
    var t := AfterTurn(s, d);
    if s.places != [] {
      assert s.places == [s.places[0]] + s.places[1..];
      assert t.delivered + Held(t) + t.places == s.delivered + Held(s) + s.places;
    }
  }

  lemma CallbackKeeps(s: State, d: nat)
    requires Inv(s) && d < |s.drainers| && s.drainers[d].Calling?
    ensures Inv(AfterCallback(s, d))
  {
    assert d == |s.drainers| - 1;
    var t := AfterCallback(s, d);
    assert t.delivered + Held(t) == s.delivered + Held(s);
  }

  lemma {:induction false} RunsKeep(run: seq<Action>)
    requires Reached(run).Some?
    ensures Inv(Reached(run).value)
  {
    if run != [] {
      var a := run[|run| - 1];
      var s := Reached(run[..|run| - 1]).value;
      RunsKeep(run[..|run| - 1]);
      match a
      case Emit(e, mustDefer) => EmitKeeps(s, e, mustDefer);
      case DrainTurn(d) => TurnKeeps(s, d);
      case CallbackReturns(d) => CallbackKeeps(s, d);
    }
  }

  // ---------------------------------------------------------------- the promises

  /** At most one goroutine drains, whoever offered and however the turns fell. */
  lemma {:induction false} AtMostOneDrainer(run: seq<Action>, i: nat, j: nat)
    requires Reached(run).Some?
    requires i < |Reached(run).value.drainers| && Reached(run).value.drainers[i] != Ended
    requires j < |Reached(run).value.drainers| && Reached(run).value.drainers[j] != Ended
    ensures i == j
  {
    RunsKeep(run);
  }

  /** Delivered, in a callback and pending together are the queue order without the shed events,
      and only log and connection events are shed. */
  lemma {:induction false} EventsAreConserved(run: seq<Action>)
    requires Reached(run).Some?
    ensures var s := Reached(run).value;
      && s.delivered + Held(s) + s.places == Unshed(|s.accepted|, s.shed)
      && |s.places| == |s.queue.pending|
      && (forall k :: 0 <= k < |s.places| ==>
            s.places[k] < |s.accepted| && s.queue.pending[k] == s.accepted[s.places[k]])
      && (forall i :: i in s.shed ==> i < |s.accepted| && Sheddable(s.accepted[i]))
  {
    RunsKeep(run);
  }

  /** Callbacks run in queue order, and an event passed over was a shed log or connection event. */
  lemma {:induction false} DeliveryFollowsTheQueue(run: seq<Action>, k: nat, i: nat)
    requires Reached(run).Some? && k < |Reached(run).value.delivered|
    ensures var s := Reached(run).value;
      && s.delivered[k] < |s.accepted|
      && (forall j :: 0 <= j < k ==> s.delivered[j] < s.delivered[k])
      && (i < s.delivered[k] && i !in s.delivered[..k] ==> i in s.shed && Sheddable(s.accepted[i]))
  {
    RunsInOrder(run);
    var s := Reached(run).value;
    var rest := Held(s) + s.places;
    assert s.delivered + rest == s.delivered + Held(s) + s.places;
    DeliveredRises(|s.accepted|, s.shed, s.delivered, rest, k);
    if i < s.delivered[k] && i !in s.shed {
      PassedOverIsShed(|s.accepted|, s.shed, s.delivered, rest, k, i);
    }
  }

  lemma {:induction false} RunsInOrder(run: seq<Action>)
    requires Reached(run).Some?
    ensures InOrder(Reached(run).value) && OnlySheddable(Reached(run).value)
  {
    RunsKeep(run);
  }

  lemma DeliveredRises(n: nat, shed: set<nat>, done: seq<nat>, rest: seq<nat>, k: nat)
    requires Unshed(n, shed) == done + rest && k < |done|
    ensures done[k] < n && forall j :: 0 <= j < k ==> done[j] < done[k]
  {
    assert Unshed(n, shed)[k] == done[k];
    UnshedBelow(n, shed, done[k]);
    forall j | 0 <= j < k ensures done[j] < done[k] {
      UnshedRises(n, shed, j, k);
    }
  }

  lemma PassedOverIsShed(n: nat, shed: set<nat>, done: seq<nat>, rest: seq<nat>, k: nat, i: nat)
    requires Unshed(n, shed) == done + rest && k < |done| && i < done[k] && i !in shed
    ensures i in done[..k]
  {
    var line := Unshed(n, shed);
    assert line[k] == done[k];
    UnshedBelow(n, shed, done[k]);
    UnshedBelow(n, shed, i);
    var at :| 0 <= at < |line| && line[at] == i;
    if k < at {
      UnshedRises(n, shed, k, at);
    }
    assert done[..k][at] == i;
  }

  lemma ReachedNext(run: seq<Action>, a: Action)
    requires Reached(run).Some? && Enabled(Reached(run).value, a)
    ensures Reached(run + [a]) == Some(Do(Reached(run).value, a))
  {
    assert (run + [a])[..|run|] == run;
  }

  /** An event is queued exactly when its emitter must not call back or some goroutine still drains,
      and then behind all others; an event not queued changes nothing. */
  lemma {:induction false} EventsAreQueuedExactly(run: seq<Action>, e: Event, mustDefer: bool)
    requires Reached(run).Some?
    ensures Reached(run + [Emit(e, mustDefer)]).Some?
    ensures var s, s' := Reached(run).value, Reached(run + [Emit(e, mustDefer)]).value;
      if mustDefer || exists d :: 0 <= d < |s.drainers| && s.drainers[d] != Ended
      then s'.accepted == s.accepted + [e] && s'.places != [] && s'.places[|s'.places| - 1] == |s.accepted|
      else s' == s
  {
    RunsDrain(run);
    ReachedNext(run, Emit(e, mustDefer));
    EmitExactly(Reached(run).value, e, mustDefer);
  }

  lemma EmitExactly(s: State, e: Event, mustDefer: bool)
    requires OneDrains(s)
    ensures var s' := AfterEmit(s, e, mustDefer);
      if mustDefer || exists d :: 0 <= d < |s.drainers| && s.drainers[d] != Ended
      then s'.accepted == s.accepted + [e] && s'.places != [] && s'.places[|s'.places| - 1] == |s.accepted|
      else s' == s
  {
    if Draining(s) {
      assert s.drainers[|s.drainers| - 1] != Ended;
    }
  }

  /** The oldest log or connection event among those pending, if there is one. */
  predicate IsOldestSheddable(es: seq<Event>, k: nat) {
    && k < |es| && (es[k].code == 400 || es[k].code == 402)
    && forall j :: 0 <= j < k ==> es[j].code != 400 && es[j].code != 402
  }

  /** An event is shed exactly by the queueing of another that finds 2048 or more pending, and it is
      the oldest log or connection event of those. */
  lemma {:induction false} ShedExactly(run: seq<Action>, a: Action, i: nat)
    requires Reached(run).Some? && Reached(run + [a]).Some?
    ensures var s, s' := Reached(run).value, Reached(run + [a]).value;
      && s.shed <= s'.shed
      && (i in s'.shed - s.shed <==>
          && i !in s.shed && s'.accepted != s.accepted && |s.queue.pending| >= 2048
          && exists k: nat :: IsOldestSheddable(s.queue.pending, k) && k < |s.places| && s.places[k] == i)
  {
    RunsKeep(run);
    assert (run + [a])[..|run|] == run;
    var s, s' := Reached(run).value, Reached(run + [a]).value;
    if a.Emit? && Defers(s.queue, a.mustDefer) {
      ShedByEmit(s, a.event, a.mustDefer, i);
    }
  }

  lemma ShedByEmit(s: State, e: Event, mustDefer: bool, i: nat)
    requires Placed(s) && Defers(s.queue, mustDefer)
    ensures var s' := AfterEmit(s, e, mustDefer);
      && s.shed <= s'.shed
      && (i in s'.shed - s.shed <==>
          && i !in s.shed && s'.accepted != s.accepted && |s.queue.pending| >= 2048
          && exists k: nat :: IsOldestSheddable(s.queue.pending, k) && k < |s.places| && s.places[k] == i)
  {
    var k := OldestSheddable(s.queue.pending);
    assert k < |s.queue.pending| ==> IsOldestSheddable(s.queue.pending, k);
    forall j: nat | IsOldestSheddable(s.queue.pending, j) ensures j == k {
      assert Sheddable(s.queue.pending[j]);
    }
    assert |s.accepted + [e]| != |s.accepted|;
  }

  /** An event is handed back to its emitter only when nothing queued before it is still to come. */
  lemma {:induction false} DirectDeliveryOvertakesNothing(run: seq<Action>, e: Event, mustDefer: bool, i: nat)
    requires Reached(run).Some? && Reached(run + [Emit(e, mustDefer)]).Some?
    requires Reached(run + [Emit(e, mustDefer)]).value.accepted == Reached(run).value.accepted
    requires i < |Reached(run).value.accepted|
    ensures i in Reached(run).value.delivered || i in Reached(run).value.shed
  {
    RunsKeep(run);
    EventsAreQueuedExactly(run, e, mustDefer);
    var s := Reached(run).value;
    assert |s.accepted + [e]| != |s.accepted|;
    assert !Draining(s);
    UnshedBelow(|s.accepted|, s.shed, i);
    assert s.delivered + Held(s) + s.places == s.delivered;
  }

  /** What the drainer does next: call for the first pending event, or return from a call. */
  function NextTurn(s: State): Action {
    if s.drainers != [] && s.drainers[|s.drainers| - 1].Calling? then CallbackReturns(|s.drainers| - 1)
    else DrainTurn(if s.drainers == [] then 0 else |s.drainers| - 1)
  }

  function TurnsLeft(s: State): nat {
    2 * |s.places| + |Held(s)|
  }

  lemma TurnNears(s: State)
    requires Inv(s) && TurnsLeft(s) > 0
    ensures Enabled(s, NextTurn(s)) && TurnsLeft(Do(s, NextTurn(s))) < TurnsLeft(s)
    ensures Do(s, NextTurn(s)).accepted == s.accepted && Do(s, NextTurn(s)).shed == s.shed
  {
  }

  ghost predicate AllDelivered(s: State) {
    s.delivered == Unshed(|s.accepted|, s.shed) && s.queue.pending == []
  }

  lemma NothingLeft(s: State)
    requires Inv(s) && TurnsLeft(s) == 0
    ensures AllDelivered(s)
  {
    assert s.delivered + Held(s) + s.places == s.delivered;
  }

  /** From every reachable state the drainer can deliver every event queued and not shed, in order. */
  lemma {:induction false} EverythingCanBeDelivered(run: seq<Action>) returns (more: seq<Action>)
    requires Reached(run).Some?
    ensures Reached(run + more).Some?
    ensures var s, t := Reached(run).value, Reached(run + more).value;
      t.accepted == s.accepted && t.shed == s.shed && AllDelivered(t)
    decreases TurnsLeft(Reached(run).value)
  {
    if TurnsLeft(Reached(run).value) == 0 {
      more := [];
      assert run + more == run;
      RunIsThrough(run);
    } else {
      var a := TurnOf(run);
      var rest := EverythingCanBeDelivered(run + [a]);
      more := [a] + rest;
      assert run + more == run + [a] + rest;
    }
  }

  lemma {:induction false} RunIsThrough(run: seq<Action>)
    requires Reached(run).Some? && TurnsLeft(Reached(run).value) == 0
    ensures AllDelivered(Reached(run).value)
  {
    RunsKeep(run);
    NothingLeft(Reached(run).value);
  }

  lemma {:induction false} TurnOf(run: seq<Action>) returns (a: Action)
    requires Reached(run).Some? && TurnsLeft(Reached(run).value) > 0
    ensures Reached(run + [a]).Some?
    ensures var s, t := Reached(run).value, Reached(run + [a]).value;
      TurnsLeft(t) < TurnsLeft(s) && t.accepted == s.accepted && t.shed == s.shed
  {
    RunsKeep(run);
    a := NextTurn(Reached(run).value);
    TurnNears(Reached(run).value);
    ReachedNext(run, a);
  }

  /** Past its limit the queue holds at most one event it could still shed. */
  lemma {:induction false} OverflowHoldsOneSheddable(run: seq<Action>)
    requires Reached(run).Some? && |Reached(run).value.queue.pending| > MAX_DEFERRED
    ensures AtMostOneSheddable(Reached(run).value.queue.pending)
  {
    RunsKeep(run);
  }

  /** While anything is pending a drain turn or a callback's return is always possible. */
  lemma {:induction false} PendingIsBeingDrained(run: seq<Action>)
    requires Reached(run).Some? && Reached(run).value.queue.pending != []
    ensures var s := Reached(run).value;
      s.drainers != [] && (Enabled(s, DrainTurn(|s.drainers| - 1)) || Enabled(s, CallbackReturns(|s.drainers| - 1)))
  {
    RunsDrain(run);
    DrainerCanMove(Reached(run).value);
  }

  lemma {:induction false} RunsDrain(run: seq<Action>)
    requires Reached(run).Some?
    ensures OneDrains(Reached(run).value)
  {
    RunsKeep(run);
  }

  lemma DrainerCanMove(s: State)
    requires OneDrains(s) && s.queue.pending != []
    ensures s.drainers != []
    ensures Enabled(s, DrainTurn(|s.drainers| - 1)) || Enabled(s, CallbackReturns(|s.drainers| - 1))
  {
  }
}
