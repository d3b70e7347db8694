/**
 * The loops of all cores together with any number of other threads: queueInLoop and wakeUp
 * against the drain, the scheduling and the blocking of each loop.
 *
 * Thread i runs the loop of core i, for i below the number of cores; the others have none.
 * Each write to a core's eventfd raises its `edge`, which one return of epoll_wait reports.
 */
module EventLoop {
  import opened Sequences

  /** Where a loop is; the comments give the lines of Core.cpp. */
  datatype PC =
    | Before      // not looping yet
    | Test        // 58
    | Drain       // 65
    | InFunc      // 67
    | Sched       // 72
    | InRo        // 72, in a resumed coroutine
    | Block       // 76, in epoll_wait
    | Dispatch    // 76, in the handlers of what it returned
    | Stopped     // 78

  /**
   * funcs[d]: functions queued on core d; ready: handles in the ready queue;
   * poke[a]: the core that thread a has queued a function on and not yet woken, or -1.
   */
  datatype State = State(pcs: seq<PC>, funcs: seq<nat>, edge: seq<bool>, poke: seq<int>, ready: nat)

  datatype Turn =
    | Loop(c: nat, other: bool)       // the loop goes on; `other`: quit is set, or another event
                                      // or the timeout ends the wait
    | Queue(a: nat, d: nat)           // thread a: line 35 of Core.h, on core d
    | WakeUp(a: nat)                  // thread a: line 38 of Core.h
    | MakeReady(a: nat)               // thread a enqueues a handle on the ready queue

  predicate Looping(pc: PC) {
    pc != Before && pc != Stopped
  }

  ghost predicate Shaped(s: State) {
    && |s.pcs| == |s.funcs| == |s.edge| <= |s.poke|
    && forall a :: 0 <= a < |s.poke| ==> -1 <= s.poke[a] < |s.pcs|
  }

  /** A loop's thread is in code that may queue functions and make coroutines ready. */
  predicate InUserCode(pc: PC) {
    pc == Before || pc == InFunc || pc == InRo || pc == Dispatch || pc == Stopped
  }

  /** Thread a is in such code, as one without a loop always is, and has no wake-up pending. */
  predicate Free(s: State, a: nat) {
    a < |s.poke| && s.poke[a] == -1 && (a < |s.pcs| ==> InUserCode(s.pcs[a]))
  }

  ghost predicate Happens(s: State, turn: Turn, s': State) {
    match turn
    case Loop(c, other) =>
      && c < |s.pcs| <= |s.poke| && |s.funcs| == |s.edge| == |s.pcs| && s.poke[c] == -1
      && MayGo(s, c, other) && s' == LoopStep(s, c, other)
    case Queue(a, d) =>
      && Free(s, a) && d < |s.pcs| == |s.funcs|
      && s' == s.(funcs := s.funcs[d := s.funcs[d] + 1],
                  poke := if a != d || !Looping(s.pcs[d]) then s.poke[a := d] else s.poke)
    case WakeUp(a) =>
      && a < |s.poke| && 0 <= s.poke[a] < |s.edge|
      && s' == s.(edge := s.edge[s.poke[a] := true], poke := s.poke[a := -1])
    case MakeReady(a) =>
      Free(s, a) && s' == s.(ready := s.ready + 1)
  }

  function To(s: State, c: nat, pc: PC): State
    requires c < |s.pcs|
  {
    s.(pcs := s.pcs[c := pc])
  }

  /** A loop waits only in epoll_wait, for its eventfd, another event or the timeout. */
  predicate MayGo(s: State, c: nat, other: bool)
    requires c < |s.pcs| == |s.edge|
  {
    s.pcs[c] == Block ==> s.edge[c] || other
  }

  /** The next step of the loop of core c. */
  function LoopStep(s: State, c: nat, other: bool): State
    requires c < |s.pcs| == |s.funcs| == |s.edge|
  {
    match s.pcs[c]
    case Before => To(s, c, Test)
    case Test => To(s, c, if other then Stopped else Drain)
    case Drain =>
      if s.funcs[c] > 0 then To(s.(funcs := s.funcs[c := s.funcs[c] - 1]), c, InFunc) else To(s, c, Sched)
    case InFunc => To(s, c, Drain)
    case Sched => if s.ready > 0 then To(s.(ready := s.ready - 1), c, InRo) else To(s, c, Block)
    case InRo => To(s, c, Drain)
    case Block => To(s.(edge := s.edge[c := false]), c, Dispatch)
    case Dispatch => To(s, c, Test)
    case Stopped => s
  }

  /** Core d has been told of its queued functions, or some thread is about to tell it. */
  ghost predicate Told(s: State, d: nat) {
    (d < |s.edge| && s.edge[d]) || exists a :: 0 <= a < |s.poke| && s.poke[a] == d
  }

  ghost predicate Inv(s: State) {
    && Shaped(s)
    && (forall d :: 0 <= d < |s.pcs| && (s.pcs[d] == Sched || s.pcs[d] == Block) && s.funcs[d] > 0 ==> Told(s, d))
  }

  /** Telling stays told until epoll_wait of that core reports it. */
  lemma ToldKept(s: State, s': State, d: nat)
    requires Shaped(s) && Shaped(s') && |s'.pcs| == |s.pcs| && d < |s.pcs| && Told(s, d)
    requires s.edge[d] ==> s'.edge[d]
    requires |s'.poke| == |s.poke|
    requires forall a :: 0 <= a < |s.poke| && s.poke[a] == d ==> s'.poke[a] == d || s'.edge[d]
    ensures Told(s', d)
  {
  }

  lemma LoopKeeps(s: State, c: nat, other: bool, s': State)
    requires Inv(s) && c < |s.pcs| && s.poke[c] == -1 && Happens(s, Loop(c, other), s')
    ensures Inv(s')
  {
    forall d | 0 <= d < |s'.pcs| && (s'.pcs[d] == Sched || s'.pcs[d] == Block) && s'.funcs[d] > 0
      ensures Told(s', d)
    {
      assert Told(s, d);
      ToldKept(s, s', d);
    }
  }

  lemma StepKeeps(s: State, turn: Turn, s': State)
    requires Inv(s) && Happens(s, turn, s')
    ensures Inv(s')
  {
    match turn
    case Loop(c, other) => LoopKeeps(s, c, other, s');
    case Queue(a, d) =>
      forall e | 0 <= e < |s.pcs| && (s.pcs[e] == Sched || s.pcs[e] == Block) && s'.funcs[e] > 0
        ensures Told(s', e)
      {
        if e == d {
          assert a != d;
          assert s'.poke[a] == d;
        } else {
          ToldKept(s, s', e);
        }
      }
    case WakeUp(a) =>
      forall e | 0 <= e < |s.pcs| && (s.pcs[e] == Sched || s.pcs[e] == Block) && s'.funcs[e] > 0
        ensures Told(s', e)
      {
        ToldKept(s, s', e);
      }
    case MakeReady(a) =>
      forall e | 0 <= e < |s.pcs| && (s.pcs[e] == Sched || s.pcs[e] == Block) && s'.funcs[e] > 0
        ensures Told(s', e)
      {
        ToldKept(s, s', e);
      }
  }

  // ----- whole runs -----

  function Init(cores: nat, threads: nat): State {
    State(seq(cores, _ => Before), seq(cores, _ => 0), seq(cores, _ => false), seq(cores + threads, _ => -1), 0)
  }

  ghost predicate Run(states: seq<State>, turns: seq<Turn>, cores: nat, threads: nat) {
    && |states| == |turns| + 1
    && states[0] == Init(cores, threads)
    && forall i :: 0 <= i < |turns| ==> HappensAt(states, turns, i)
  }

  ghost predicate HappensAt(states: seq<State>, turns: seq<Turn>, i: nat)
    requires i < |turns| && i + 1 < |states|
  {
    Happens(states[i], turns[i], states[i + 1])
  }

  lemma {:induction false} RunInv(states: seq<State>, turns: seq<Turn>, cores: nat, threads: nat, i: nat)
    requires Run(states, turns, cores, threads) && i < |states|
    ensures Inv(states[i]) && |states[i].pcs| == cores
  {
    if i > 0 {
      RunInv(states, turns, cores, threads, i - 1);
      assert HappensAt(states, turns, i - 1);
      StepKeeps(states[i - 1], turns[i - 1], states[i]);
    }
  }

  /**
   * No loop sleeps past queued work: when core d is in epoll_wait and a function is queued
   * on it, its eventfd is signalled, or some thread is between queueing one and waking it.
   */
  lemma NeverSleepsPastWork(states: seq<State>, turns: seq<Turn>, cores: nat, threads: nat, i: nat, d: nat)
    requires Run(states, turns, cores, threads) && i < |states| && d < cores
    ensures Shaped(states[i]) && |states[i].pcs| == cores
    ensures states[i].pcs[d] == Block && states[i].funcs[d] > 0 ==> Told(states[i], d)
  {
    RunInv(states, turns, cores, threads, i);
  }

  // ----- attendance of the ready queue -----

  /** The loop of core c will come to the ready queue without waiting for a timeout. */
  ghost predicate Coming(s: State, c: nat) {
    c < |s.pcs| && if s.pcs[c] == Block then Told(s, c) else s.pcs[c] != Stopped
  }

  /** So will some loop other than that of x; no loop is left out if x is -1. */
  ghost predicate Awake(s: State, x: int) {
    exists c: nat :: c != x && Coming(s, c)
  }

  /** While a coroutine is ready, some loop will come to it without waiting for a timeout. */
  ghost predicate Attended(s: State) {
    s.ready > 0 ==> Awake(s, -1)
  }

  /** A handle is made ready while some loop is coming; the last such loop stops only with nothing ready. */
  ghost predicate Attends(s: State, turn: Turn) {
    match turn
    case MakeReady(a) => (a < |s.pcs| && s.pcs[a] != Stopped) || Awake(s, -1)
    case Loop(c, other) => c < |s.pcs| && s.pcs[c] == Test && other ==> s.ready == 0 || Awake(s, c)
    case _ => true
  }

  /** A step keeps the ready queue attended exactly under that condition. */
  lemma AttendedIff(s: State, turn: Turn, s': State)
    requires Shaped(s) && Attended(s) && Happens(s, turn, s')
    ensures Attended(s') <==> Attends(s, turn)
  {
    match turn
    case Loop(c, other) =>
      forall d: nat | d != c
        ensures Coming(s', d) <==> Coming(s, d)
      {
        assert s'.poke == s.poke && (d < |s.edge| ==> s'.edge[d] == s.edge[d]);
      }
      if s.pcs[c] == Test && other {
        assert !Coming(s', c);
      } else if s'.ready > 0 && Awake(s, -1) {
        assert s.pcs[c] == Stopped || Coming(s', c);
      }
    case MakeReady(a) =>
      assert forall d: nat :: Coming(s', d) <==> Coming(s, d);
      assert a < |s.pcs| && s.pcs[a] != Stopped ==> Coming(s, a);
    case _ =>
      StaysComing(s, turn, s');
  }

  lemma StaysComing(s: State, turn: Turn, s': State)
    requires Shaped(s) && Happens(s, turn, s') && (turn.Queue? || turn.WakeUp?)
    ensures forall d: nat :: Coming(s, d) ==> Coming(s', d)
  {
    forall d: nat | Coming(s, d)
      ensures Coming(s', d)
    {
      if s.pcs[d] == Block {
        assert Shaped(s');
        ToldKept(s, s', d);
      }
    }
  }

  /** The ready queue is attended at every instant of a run exactly when every step is of that kind. */
  lemma RunAttendedIff(states: seq<State>, turns: seq<Turn>, cores: nat, threads: nat)
    requires Run(states, turns, cores, threads)
    ensures (forall i :: 0 <= i < |states| ==> Attended(states[i]))
       <==> (forall i :: 0 <= i < |turns| ==> Attends(states[i], turns[i]))
  {
    forall i | 0 <= i < |states| ensures Shaped(states[i]) {
      RunInv(states, turns, cores, threads, i);
    }
    if forall i :: 0 <= i < |turns| ==> Attends(states[i], turns[i]) {
      forall i | 0 <= i < |states| ensures Attended(states[i]) {
        ReadyIsAttended(states, turns, cores, threads, i);
      }
    } else {
      var i :| 0 <= i < |turns| && !Attends(states[i], turns[i]);
      if Attended(states[i]) {
        assert HappensAt(states, turns, i);
        AttendedIff(states[i], turns[i], states[i + 1]);
      }
    }
  }

  /** Up to any instant before which every step is of that kind, a ready coroutine is not left to a timeout. */
  lemma {:induction false} ReadyIsAttended(states: seq<State>, turns: seq<Turn>, cores: nat, threads: nat, i: nat)
    requires Run(states, turns, cores, threads) && i < |states|
    requires forall k :: 0 <= k < i ==> Attends(states[k], turns[k])
    ensures Attended(states[i])
  {
    if i > 0 {
      RunInv(states, turns, cores, threads, i - 1);
      ReadyIsAttended(states, turns, cores, threads, i - 1);
      assert HappensAt(states, turns, i - 1);
      AttendedIff(states[i - 1], turns[i - 1], states[i]);
    }
  }

  /**
   * A thread without a loop makes a coroutine ready, as one that creates a task does, while
   * the only loop is in epoll_wait: nothing tells the loop, which waits for its timeout.
   */
  lemma ReadyFromOutside() returns (states: seq<State>, turns: seq<Turn>)
    ensures Run(states, turns, 1, 1)
    ensures var s := states[|states| - 1];
      s.ready == 1 && s.pcs == [Block] && s.edge == [false] && s.poke == [-1, -1] && !Attended(s)
  {
    turns := [Loop(0, false), Loop(0, false), Loop(0, false), Loop(0, false), MakeReady(1)];
    states := [
      Init(1, 1), Only(Test, 0), Only(Drain, 0), Only(Sched, 0), Only(Block, 0), Only(Block, 1)];
    assert Init(1, 1) == Only(Before, 0);
  }

  /** One loop and one more thread, with nothing queued. */
  function Only(pc: PC, ready: nat): State {
    State([pc], [0], [false], [-1, -1], ready)
  }

  /** The only awake loop makes a coroutine ready and stops, while the other is in epoll_wait. */
  lemma ReadyLeftByStop() returns (states: seq<State>, turns: seq<Turn>)
    ensures Run(states, turns, 2, 0)
    ensures var s := states[|states| - 1];
      s.ready == 1 && s.pcs == [Stopped, Block] && s.edge == [false, false] && s.poke == [-1, -1] && !Attended(s)
  {
    turns := [
      Loop(1, false), Loop(1, false), Loop(1, false), Loop(1, false), MakeReady(0), Loop(0, false), Loop(0, true)];
    states := [
      Init(2, 0), Two(Before, Test, 0), Two(Before, Drain, 0), Two(Before, Sched, 0), Two(Before, Block, 0),
      Two(Before, Block, 1), Two(Test, Block, 1), Two(Stopped, Block, 1)];
    assert Init(2, 0) == Two(Before, Before, 0);
    TwoSteps();
  }

  lemma TwoSteps()
    ensures Happens(Two(Before, Before, 0), Loop(1, false), Two(Before, Test, 0))
    ensures Happens(Two(Before, Test, 0), Loop(1, false), Two(Before, Drain, 0))
    ensures Happens(Two(Before, Drain, 0), Loop(1, false), Two(Before, Sched, 0))
    ensures Happens(Two(Before, Sched, 0), Loop(1, false), Two(Before, Block, 0))
    ensures Happens(Two(Before, Block, 0), MakeReady(0), Two(Before, Block, 1))
    ensures Happens(Two(Before, Block, 1), Loop(0, false), Two(Test, Block, 1))
    ensures Happens(Two(Test, Block, 1), Loop(0, true), Two(Stopped, Block, 1))
  {
  }

  /** Two loops, with nothing queued. */
  function Two(p: PC, q: PC, ready: nat): State {
    State([p, q], [0, 0], [false, false], [-1, -1], ready)
  }

  // ----- a loop comes to its functions and to the ready queue -----

  function LoopOf(d: nat): Turn -> bool {
    (turn: Turn) => turn.Loop? && turn.c == d
  }

  function QueueOn(d: nat): Turn -> bool {
    (turn: Turn) => turn.Queue? && turn.d == d
  }

  /** The loop of core d finds quit_ set in this turn. */
  predicate Quits(s: State, d: nat, turn: Turn) {
    turn == Loop(d, true) && d < |s.pcs| && s.pcs[d] == Test
  }

  /** The way of a signalled loop from epoll_wait to the dequeue, by the turns it has had. */
  predicate OnItsWay(s: State, d: nat, n: nat) {
    && d < |s.pcs| == |s.funcs| == |s.edge| && s.funcs[d] > 0
    && match s.pcs[d]
       case Block => n == 0 && s.edge[d]
       case Dispatch => n == 1
       case Test => n == 2
       case Drain => n == 3
       case _ => false
  }

  /** The loop of core d dequeues a function in this turn. */
  ghost predicate Takes(s: State, d: nat, turn: Turn, s': State) {
    && LoopOf(d)(turn) && d < |s.pcs| == |s'.pcs| == |s.funcs| == |s'.funcs|
    && s.pcs[d] == Drain && s'.pcs[d] == InFunc && s'.funcs[d] + 1 == s.funcs[d]
  }

  lemma WayStep(s: State, d: nat, n: nat, turn: Turn, s': State)
    requires Shaped(s) && Happens(s, turn, s') && OnItsWay(s, d, n) && !Quits(s, d, turn)
    ensures Takes(s, d, turn, s') || OnItsWay(s', d, if LoopOf(d)(turn) then n + 1 else n)
  {
  }

  lemma WayTurn(
      states: seq<State>, turns: seq<Turn>, cores: nat, threads: nat, d: nat, n: nat, k: nat)
    requires Run(states, turns, cores, threads) && k < |turns|
    requires OnItsWay(states[k], d, n) && !Quits(states[k], d, turns[k])
    ensures Takes(states[k], d, turns[k], states[k + 1])
      || OnItsWay(states[k + 1], d, if LoopOf(d)(turns[k]) then n + 1 else n)
  {
    RunInv(states, turns, cores, threads, k);
    assert HappensAt(states, turns, k);
    WayStep(states[k], d, n, turns[k], states[k + 1]);
  }

  /**
   * A signalled loop that is not told to quit takes a queued function by its fourth turn,
   * whatever the other loops and threads do between its turns: at turn k, if it has.
   */
  lemma {:induction false} WokenLoopDrains(
      states: seq<State>, turns: seq<Turn>, cores: nat, threads: nat, d: nat, i: nat, j: nat) returns (k: nat)
    requires Run(states, turns, cores, threads) && i <= j < |states|
    requires OnItsWay(states[i], d, 0) && forall k :: i <= k < j ==> !Quits(states[k], d, turns[k])
    ensures (i <= k < j && Takes(states[k], d, turns[k], states[k + 1]))
      || (Count(turns, LoopOf(d), i, j) < 4 && OnItsWay(states[j], d, Count(turns, LoopOf(d), i, j)))
  {
    k := i;
    if i < j {
      k := WokenLoopDrains(states, turns, cores, threads, d, i, j - 1);
      if !(i <= k < j - 1 && Takes(states[k], d, turns[k], states[k + 1])) {
        k := j - 1;
        WayTurn(states, turns, cores, threads, d, Count(turns, LoopOf(d), i, j - 1), j - 1);
      }
    }
  }

  /** The turns in which a loop comes to line 72, if no more functions are queued on its core. */
  function ToSched(s: State, d: nat): nat
    requires d < |s.pcs| == |s.funcs|
  {
    match s.pcs[d]
    case Stopped => 0
    case Sched => 1
    case Drain => 2 + 2 * s.funcs[d]
    case InFunc => 3 + 2 * s.funcs[d]
    case InRo => 3 + 2 * s.funcs[d]
    case Test => 3 + 2 * s.funcs[d]
    case Dispatch => 4 + 2 * s.funcs[d]
    case Before => 4 + 2 * s.funcs[d]
    case Block => 5 + 2 * s.funcs[d]
  }

  /** In this turn the loop of core d takes a ready coroutine, or finds that there is none. */
  ghost predicate Looks(s: State, d: nat, turn: Turn, s': State) {
    && LoopOf(d)(turn) && d < |s.pcs| == |s'.pcs| && s.pcs[d] == Sched
    && if s.ready > 0 then s'.pcs[d] == InRo && s'.ready + 1 == s.ready else s'.pcs[d] == Block
  }

  /** The loop of core d has not stopped, and has used n turns of those that it had at s0 and after m more functions. */
  predicate Nearer(s0: State, s: State, d: nat, n: nat, m: nat) {
    && d < |s.pcs| == |s.funcs| && d < |s0.pcs| == |s0.funcs|
    && s.pcs[d] != Stopped && n + ToSched(s, d) <= ToSched(s0, d) + 2 * m
  }

  lemma NearerStep(s0: State, s: State, d: nat, n: nat, m: nat, turn: Turn, s': State)
    requires Shaped(s) && Happens(s, turn, s') && Nearer(s0, s, d, n, m) && !Quits(s, d, turn)
    ensures Looks(s, d, turn, s')
      || Nearer(s0, s', d, if LoopOf(d)(turn) then n + 1 else n, if QueueOn(d)(turn) then m + 1 else m)
  {
  }

  lemma NearerTurn(
      states: seq<State>, turns: seq<Turn>, cores: nat, threads: nat, s0: State, d: nat, n: nat, m: nat, k: nat)
    requires Run(states, turns, cores, threads) && k < |turns|
    requires Nearer(s0, states[k], d, n, m) && !Quits(states[k], d, turns[k])
    ensures Looks(states[k], d, turns[k], states[k + 1])
      || Nearer(s0, states[k + 1], d, if LoopOf(d)(turns[k]) then n + 1 else n,
                if QueueOn(d)(turns[k]) then m + 1 else m)
  {
    RunInv(states, turns, cores, threads, k);
    assert HappensAt(states, turns, k);
    NearerStep(s0, states[k], d, n, m, turns[k], states[k + 1]);
  }

  /**
   * A loop that has not stopped and is not told to quit comes to the ready queue, and takes a
   * coroutine if one is there, within ToSched turns of its own and two more for each function
   * that is queued on its core in the meantime: at turn k, if it has.
   */
  lemma {:induction false} LoopServesReady(
      states: seq<State>, turns: seq<Turn>, cores: nat, threads: nat, d: nat, i: nat, j: nat) returns (k: nat)
    requires Run(states, turns, cores, threads) && i <= j < |states| && d < cores
    requires d < |states[i].pcs| && states[i].pcs[d] != Stopped
    requires forall k :: i <= k < j ==> !Quits(states[k], d, turns[k])
    ensures (i <= k < j && Looks(states[k], d, turns[k], states[k + 1]))
      || Nearer(states[i], states[j], d, Count(turns, LoopOf(d), i, j), Count(turns, QueueOn(d), i, j))
  {
    k := i;
    if i < j {
      k := LoopServesReady(states, turns, cores, threads, d, i, j - 1);
      if !(i <= k < j - 1 && Looks(states[k], d, turns[k], states[k + 1])) {
        k := j - 1;
        var n, m := Count(turns, LoopOf(d), i, j - 1), Count(turns, QueueOn(d), i, j - 1);
        NearerTurn(states, turns, cores, threads, states[i], d, n, m, j - 1);
      }
    } else {
      RunInv(states, turns, cores, threads, i);
    }
  }

  // ----- nothing queued is dropped -----

  /** How many functions the loop of core d has taken by instant i. */
  ghost function Taken(states: seq<State>, turns: seq<Turn>, d: nat, i: nat): nat
    requires i <= |turns| < |states|
  {
    if i == 0 then 0
    else Taken(states, turns, d, i - 1) + if Takes(states[i - 1], d, turns[i - 1], states[i]) then 1 else 0
  }

  lemma TakenStep(s: State, turn: Turn, s': State, d: nat)
    requires Shaped(s) && Happens(s, turn, s') && d < |s.pcs|
    ensures |s'.funcs| == |s'.pcs| == |s.pcs|
    ensures s.funcs[d] + (if QueueOn(d)(turn) then 1 else 0) == s'.funcs[d] + if Takes(s, d, turn, s') then 1 else 0
    ensures s.pcs[d] != InFunc && s'.pcs[d] == InFunc ==> Takes(s, d, turn, s')
  {
  }

  /**
   * Each function queued on a core is taken by its loop once or still there: as many have been
   * queued as taken and left, and the loop is in a function only by having taken it.
   */
  lemma {:induction false} QueuedIsTakenOrThere(
      states: seq<State>, turns: seq<Turn>, cores: nat, threads: nat, d: nat, i: nat)
    requires Run(states, turns, cores, threads) && i < |states| && d < cores
    ensures |states[i].funcs| == |states[i].pcs| == cores
    ensures Count(turns, QueueOn(d), 0, i) == Taken(states, turns, d, i) + states[i].funcs[d]
    ensures i > 0 && |states[i - 1].pcs| == cores && states[i - 1].pcs[d] != InFunc && states[i].pcs[d] == InFunc ==>
      Takes(states[i - 1], d, turns[i - 1], states[i])
  {
    if i > 0 {
      QueuedIsTakenOrThere(states, turns, cores, threads, d, i - 1);
      RunInv(states, turns, cores, threads, i - 1);
      assert HappensAt(states, turns, i - 1);
      TakenStep(states[i - 1], turns[i - 1], states[i], d);
    }
  }

  /** The turn in which some loop takes a ready coroutine. */
  ghost predicate Resumes(s: State, turn: Turn, s': State) {
    turn.Loop? && turn.c < |s.pcs| == |s'.pcs| && s.pcs[turn.c] == Sched && s'.pcs[turn.c] == InRo
  }

  ghost function Resumed(states: seq<State>, turns: seq<Turn>, i: nat): nat
    requires i <= |turns| < |states|
  {
    if i == 0 then 0
    else Resumed(states, turns, i - 1) + if Resumes(states[i - 1], turns[i - 1], states[i]) then 1 else 0
  }

  predicate MakesReady(turn: Turn) {
    turn.MakeReady?
  }

  lemma ResumedStep(s: State, turn: Turn, s': State)
    requires Shaped(s) && Happens(s, turn, s')
    ensures s.ready + (if MakesReady(turn) then 1 else 0) == s'.ready + if Resumes(s, turn, s') then 1 else 0
  {
  }

  /** Each coroutine made ready has been resumed by some loop once, or is still ready. */
  lemma {:induction false} ReadyIsResumedOrThere(
      states: seq<State>, turns: seq<Turn>, cores: nat, threads: nat, i: nat)
    requires Run(states, turns, cores, threads) && i < |states|
    ensures Count(turns, MakesReady, 0, i) == Resumed(states, turns, i) + states[i].ready
  {
    if i > 0 {
      ReadyIsResumedOrThere(states, turns, cores, threads, i - 1);
      RunInv(states, turns, cores, threads, i - 1);
      assert HappensAt(states, turns, i - 1);
      ResumedStep(states[i - 1], turns[i - 1], states[i]);
    }
  }

  // ----- who wakes whom, and who waits -----

  /** A thread that is about to wake its own core is not in that core's loop. */
  ghost predicate WakesOthers(s: State) {
    forall a :: 0 <= a < |s.poke| && 0 <= s.poke[a] == a < |s.pcs| ==> !Looping(s.pcs[a])
  }

  lemma WakesOthersStep(s: State, turn: Turn, s': State)
    requires Shaped(s) && WakesOthers(s) && Happens(s, turn, s')
    ensures WakesOthers(s')
  {
  }

  /** A function that the loop's own thread queues on its core costs no write to the eventfd. */
  lemma {:induction false} NoWakeFromOwnLoop(
      states: seq<State>, turns: seq<Turn>, cores: nat, threads: nat, i: nat)
    requires Run(states, turns, cores, threads) && i < |states|
    ensures WakesOthers(states[i])
  {
    if i > 0 {
      NoWakeFromOwnLoop(states, turns, cores, threads, i - 1);
      RunInv(states, turns, cores, threads, i - 1);
      assert HappensAt(states, turns, i - 1);
      WakesOthersStep(states[i - 1], turns[i - 1], states[i]);
    }
  }

  /** The turn writes to the eventfd of core d. */
  predicate Writes(s: State, d: nat, turn: Turn) {
    turn.WakeUp? && turn.a < |s.poke| && s.poke[turn.a] == d
  }

  /** The turn ends the wait of core d because of such writes. */
  predicate Answers(s: State, d: nat, turn: Turn) {
    turn.Loop? && turn.c == d && d < |s.pcs| && d < |s.edge| && s.pcs[d] == Block && s.edge[d]
  }

  ghost function Written(states: seq<State>, turns: seq<Turn>, d: nat, i: nat): nat
    requires i <= |turns| < |states|
  {
    if i == 0 then 0
    else Written(states, turns, d, i - 1) + if Writes(states[i - 1], d, turns[i - 1]) then 1 else 0
  }

  ghost function Answered(states: seq<State>, turns: seq<Turn>, d: nat, i: nat): nat
    requires i <= |turns| < |states|
  {
    if i == 0 then 0
    else Answered(states, turns, d, i - 1) + if Answers(states[i - 1], d, turns[i - 1]) then 1 else 0
  }

  lemma WriteStep(s: State, d: nat, turn: Turn, s': State)
    requires Shaped(s) && Shaped(s') && Happens(s, turn, s') && d < |s.edge|
    ensures |s'.edge| == |s.edge|
    ensures (if Answers(s, d, turn) then 1 else 0) + (if s'.edge[d] then 1 else 0)
      <= (if s.edge[d] then 1 else 0) + if Writes(s, d, turn) then 1 else 0
  {
  }

  /** No write to an eventfd ends more than one wait, so a loop does not go round for nothing. */
  lemma {:induction false} EachWriteEndsOneWait(
      states: seq<State>, turns: seq<Turn>, cores: nat, threads: nat, d: nat, i: nat)
    requires Run(states, turns, cores, threads) && i < |states| && d < cores
    ensures d < |states[i].edge|
    ensures Answered(states, turns, d, i) + (if states[i].edge[d] then 1 else 0) <= Written(states, turns, d, i)
  {
    RunInv(states, turns, cores, threads, i);
    if i > 0 {
      EachWriteEndsOneWait(states, turns, cores, threads, d, i - 1);
      RunInv(states, turns, cores, threads, i - 1);
      assert HappensAt(states, turns, i - 1);
      WriteStep(states[i - 1], d, turns[i - 1], states[i]);
    }
  }

  /**
   * A loop whose thread has no wake-up pending is held up only in epoll_wait, and there only
   * while its eventfd is not signalled and nothing else ends the wait.
   */
  lemma LoopGoesOn(s: State, c: nat, other: bool)
    requires Shaped(s) && c < |s.pcs| && s.poke[c] == -1
    ensures (exists s' :: Happens(s, Loop(c, other), s')) <==> !(s.pcs[c] == Block && !s.edge[c] && !other)
  {
    if !(s.pcs[c] == Block && !s.edge[c] && !other) {
      assert Happens(s, Loop(c, other), LoopStep(s, c, other));
    }
  }

  /** Whoever is in user code may queue functions and make coroutines ready, and then wakes the core. */
  lemma OthersGoOn(s: State, a: nat, d: nat)
    requires Shaped(s) && a < |s.poke| && d < |s.pcs|
    ensures s.poke[a] >= 0 ==> exists s' :: Happens(s, WakeUp(a), s')
    ensures Free(s, a) ==> exists s' :: Happens(s, Queue(a, d), s')
    ensures Free(s, a) ==> exists s' :: Happens(s, MakeReady(a), s')
  {
    if s.poke[a] >= 0 {
      assert Happens(s, WakeUp(a), s.(edge := s.edge[s.poke[a] := true], poke := s.poke[a := -1]));
    } else if Free(s, a) {
      var poke := if a != d || !Looping(s.pcs[d]) then s.poke[a := d] else s.poke;
      assert Happens(s, Queue(a, d), s.(funcs := s.funcs[d := s.funcs[d] + 1], poke := poke));
      assert Happens(s, MakeReady(a), s.(ready := s.ready + 1));
    }
  }
}
