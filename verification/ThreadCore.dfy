/**
 * The start and stop handshake of a ThreadCore: its owner constructs it, may call run(),
 * and destroys it, while the thread it started makes the core, loops and ends.
 */
module ThreadCore {
  import opened Sequences

  /** The owner; the comments give the lines of ThreadCore.cpp and Core.cpp. */
  datatype Owner =
    | Constructing                // 6: waits for the core
    | Owning                      // between calls
    | Calling(dtor: bool)         // 51 to 53, from run() or from the destructor
    | AwaitingLoop(dtor: bool)    // 54: waits for the loop
    | ReadingCore                 // 14 to 15
    | Quitting                    // Core.cpp 82
    | WakingUp                    // Core.cpp 86
    | Joining                     // 23
    | Gone

  /** The thread. */
  datatype Thread =
    | Making                      // 35 to 37
    | Queueing                    // 38, Core.h 35
    | Poking                      // 38, Core.h 38
    | Publishing                  // 39
    | AwaitingRun                 // 41
    | Starting                    // Core.cpp 53
    | Resetting                   // Core.cpp 54
    | Testing                     // Core.cpp 58
    | Draining                    // Core.cpp 65
    | InFunc(first: bool)         // Core.cpp 67
    | Scheduling                  // Core.cpp 72
    | InRo                        // Core.cpp 72, in a coroutine
    | Blocking                    // Core.cpp 76
    | Dispatching                 // Core.cpp 76
    | Clearing                    // 45
    | Ended

  /**
   * `funcs`: the queued functions, true for the one that line 38 queues; `ready`: ready
   * handles; `budget`: how much work others will yet add; `edge`: an eventfd write that
   * epoll_wait has yet to report; corePtr: core_ is not null.
   */
  datatype State = State(
    owner: Owner, thread: Thread,
    coreSet: bool, runSet: bool, loopSet: bool, once: bool, corePtr: bool,
    quit: bool, edge: bool, funcs: seq<bool>, ready: nat, budget: nat)

  function Init(budget: nat): State {
    State(Constructing, Making, false, false, false, false, false, false, false, [], 0, budget)
  }

  datatype Turn =
    | OwnerGoes(destroy: bool)                 // between calls it destroys or calls run()
    | ThreadGoes(other: bool, quits: bool)     // another event or the timeout ends a wait; user code calls quit()
    | AddFunc                                  // another thread queues a function and wakes the core
    | AddReady                                 // a handle becomes ready

  ghost predicate Happens(s: State, turn: Turn, s': State) {
    match turn
    case OwnerGoes(destroy) => s' == OwnerStep(s, destroy)
    case ThreadGoes(other, quits) => CanGo(s, other) && s' == ThreadStep(s, quits)
    case AddFunc =>
      s.budget > 0 && s.coreSet && s' == s.(budget := s.budget - 1, funcs := s.funcs + [false], edge := true)
    case AddReady =>
      s.budget > 0 && s' == s.(budget := s.budget - 1, ready := s.ready + 1)
  }

  /** Where the owner is after its next step; a wait that is not over leaves it there. */
  function NextOwner(s: State, destroy: bool): Owner {
    match s.owner
    case Constructing => if s.coreSet then Owning else Constructing
    case Owning => Calling(destroy)
    case Calling(dtor) => if s.once then Returned(dtor) else AwaitingLoop(dtor)
    case AwaitingLoop(dtor) => if s.loopSet then Returned(dtor) else AwaitingLoop(dtor)
    case ReadingCore => if s.corePtr then Quitting else Joining
    case Quitting => WakingUp
    case WakingUp => Joining
    case Joining => if s.thread == Ended then Gone else Joining
    case Gone => Gone
  }

  /** run() returns to its caller. */
  function Returned(dtor: bool): Owner {
    if dtor then ReadingCore else Owning
  }

  /** What the step does; the thread and the queues are none of the owner's business. */
  function OwnerActed(s: State): (s': State)
    ensures s'.thread == s.thread && s'.funcs == s.funcs && s'.ready == s.ready
    ensures s'.edge == (s.edge || s.owner.WakingUp?)
  {
    match s.owner
    case Constructing => if s.coreSet then s.(corePtr := true) else s
    case Calling(_) => if s.once then s else s.(once := true, runSet := true)
    case Quitting => s.(quit := true)
    case WakingUp => s.(edge := true)
    case _ => s
  }

  function OwnerStep(s: State, destroy: bool): State {
    OwnerActed(s).(owner := NextOwner(s, destroy))
  }

  /** The thread is not waiting. */
  predicate CanGo(s: State, other: bool) {
    && (s.thread == AwaitingRun ==> s.runSet)
    && (s.thread == Blocking ==> s.edge || other)
    && s.thread != Ended
  }

  /** Where the thread is after its next step. */
  function NextThread(s: State): Thread {
    match s.thread
    case Making => Queueing
    case Queueing => Poking
    case Poking => Publishing
    case Publishing => AwaitingRun
    case AwaitingRun => Starting
    case Starting => Resetting
    case Resetting => Testing
    case Testing => if s.quit then Clearing else Draining
    case Draining => if s.funcs != [] then InFunc(s.funcs[0]) else Scheduling
    case InFunc(_) => Draining
    case Scheduling => if s.ready > 0 then InRo else Blocking
    case InRo => Draining
    case Blocking => Dispatching
    case Dispatching => Testing
    case Clearing => Ended
    case Ended => Ended
  }

  /** What the step does. */
  function Acted(s: State, quits: bool): (s': State)
    ensures !s.thread.Draining? && !s.thread.Queueing? ==> s'.funcs == s.funcs
    ensures s'.owner == s.owner && (!s.thread.Scheduling? ==> s'.ready == s.ready)
    ensures s'.edge == (s.thread.Poking? || (s.edge && !s.thread.Blocking?))
  {
    match s.thread
    case Queueing => s.(funcs := s.funcs + [true])
    case Poking => s.(edge := true)
    case Publishing => s.(coreSet := true)
    case Resetting => s.(quit := false)
    case Draining => if s.funcs != [] then s.(funcs := s.funcs[1..]) else s
    case InFunc(first) => s.(loopSet := s.loopSet || first, quit := s.quit || (quits && !first))
    case Scheduling => if s.ready > 0 then s.(ready := s.ready - 1) else s
    case InRo => s.(quit := s.quit || quits)
    case Blocking => s.(edge := false)
    case Clearing => s.(corePtr := false)
    case _ => s
  }

  function ThreadStep(s: State, quits: bool): State {
    Acted(s, quits).(thread := NextThread(s))
  }

  // ----- the invariant -----

  /** The loop has passed the reset of quit_. */
  predicate Past(t: Thread) {
    && t != Making && t != Queueing && t != Poking && t != Publishing
    && t != AwaitingRun && t != Starting && t != Resetting
  }

  /** In the loop, before the wait in epoll_wait is over. */
  predicate UpToWait(t: Thread) {
    t == Draining || t.InFunc? || t == Scheduling || t == InRo || t == Blocking
  }

  /** No function here is that of line 38. */
  ghost predicate Plain(funcs: seq<bool>) {
    forall k :: 0 <= k < |funcs| ==> !funcs[k]
  }

  /** The function of line 38 is the first of the queue until it runs, after the reset. */
  ghost predicate Opening(s: State) {
    && (s.thread == Making || s.thread == Queueing ==> s.funcs == [])
    && (s.coreSet <==> s.thread != Making && s.thread != Queueing && s.thread != Poking && s.thread != Publishing)
    && (s.funcs != [] ==> Plain(s.funcs[1..]))
    && (s.loopSet ==> Past(s.thread) && Plain(s.funcs))
    && (!s.loopSet ==> !s.quit)
    && (s.thread == Publishing || s.thread == AwaitingRun || s.thread == Starting || s.thread == Resetting ==> s.edge)
    && (!s.loopSet && s.thread != Making && s.thread != Queueing ==>
          s.thread == InFunc(true) || (s.funcs != [] && s.funcs[0]))
    && (s.thread == InFunc(true) ==> !s.loopSet && Plain(s.funcs))
    && (!s.loopSet && Past(s.thread) ==> s.thread == Testing || s.thread == Draining || s.thread == InFunc(true))
  }

  /** The owner is past run() only after the loop has begun; its quit is in force and cannot be slept past. */
  ghost predicate Closing(s: State) {
    && (if s.owner == Constructing then !s.corePtr else s.coreSet)
    && (s.once <==> s.runSet)
    && (s.once ==> s.owner.AwaitingLoop? || s.loopSet)
    && (s.owner.AwaitingLoop? ==> s.once)
    && (s.owner == Constructing ==> !s.once)
    && (s.owner == ReadingCore || s.owner == Quitting || s.owner == WakingUp ==> s.loopSet)
    && (s.owner == Joining || s.owner == Gone ==> s.loopSet)
    && (Past(s.thread) || s.thread == Starting || s.thread == Resetting ==> s.runSet)
    && (s.owner == WakingUp || s.owner == Joining ==> s.quit || s.thread == Ended)
    && (s.owner == Joining && UpToWait(s.thread) && s.corePtr ==> s.edge)
    && (s.owner == Gone ==> s.thread == Ended)
    && (s.thread == Clearing || s.thread == Ended ==> s.quit)
    && (s.owner != Constructing ==> (s.corePtr <==> s.thread != Ended))
  }

  ghost predicate Inv(s: State) {
    Opening(s) && Closing(s)
  }

  lemma InitInv(budget: nat)
    ensures Inv(Init(budget))
  {
  }

  lemma OwnerKeepsOpening(s: State, destroy: bool)
    requires Inv(s)
    ensures Opening(OwnerStep(s, destroy))
  {
  }

  /** The steps up to and in run(). */
  predicate UpToRun(o: Owner) {
    o == Constructing || o == Owning || o.Calling? || o.AwaitingLoop?
  }

  lemma RunKeepsClosing(s: State, destroy: bool)
    requires Inv(s) && UpToRun(s.owner)
    ensures Closing(OwnerStep(s, destroy))
  {
  }

  lemma DestroyKeepsClosing(s: State, destroy: bool)
    requires Inv(s) && !UpToRun(s.owner)
    ensures Closing(OwnerStep(s, destroy))
  {
  }

  lemma OwnerKeeps(s: State, destroy: bool)
    requires Inv(s)
    ensures Inv(OwnerStep(s, destroy))
  {
    OwnerKeepsOpening(s, destroy);
    if UpToRun(s.owner) {
      RunKeepsClosing(s, destroy);
    } else {
      DestroyKeepsClosing(s, destroy);
    }
  }

  lemma StartKeeps(s: State, quits: bool)
    requires Inv(s) && CanGo(s, false) && !Past(s.thread)
    ensures Inv(ThreadStep(s, quits))
  {
  }

  lemma DrainKeepsOpening(s: State, quits: bool)
    requires Opening(s) && s.thread == Draining
    ensures Opening(ThreadStep(s, quits))
  {
    assert s.funcs != [] ==> forall k :: 1 <= k < |s.funcs| ==> s.funcs[k] == s.funcs[1..][k - 1];
  }

  lemma FuncKeepsOpening(s: State, quits: bool)
    requires Opening(s) && s.thread.InFunc?
    ensures Opening(ThreadStep(s, quits))
  {
  }

  lemma TestKeepsOpening(s: State, quits: bool)
    requires Opening(s) && s.thread == Testing
    ensures Opening(ThreadStep(s, quits))
  {
  }

  lemma OpeningStays(s: State, s': State)
    requires Opening(s) && s.loopSet && s'.loopSet && s'.funcs == s.funcs && s'.coreSet == s.coreSet
    requires Past(s'.thread) && s'.thread != InFunc(true)
    ensures Opening(s')
  {
  }

  /** The other steps of the loop come after the function of line 38. */
  lemma RestKeepsOpening(s: State, quits: bool)
    requires Opening(s) && Past(s.thread) && s.thread != Testing && s.thread != Draining && !s.thread.InFunc?
    ensures Opening(ThreadStep(s, quits))
  {
    OpeningStays(s, ThreadStep(s, quits));
  }

  lemma LoopKeepsOpening(s: State, other: bool, quits: bool)
    requires Opening(s) && CanGo(s, other) && Past(s.thread)
    ensures Opening(ThreadStep(s, quits))
  {
    if s.thread == Draining {
      DrainKeepsOpening(s, quits);
    } else if s.thread.InFunc? {
      FuncKeepsOpening(s, quits);
    } else if s.thread == Testing {
      TestKeepsOpening(s, quits);
    } else {
      RestKeepsOpening(s, quits);
    }
  }

  lemma LoopKeepsClosing(s: State, other: bool, quits: bool)
    requires Inv(s) && CanGo(s, other) && Past(s.thread)
    ensures Closing(ThreadStep(s, quits))
  {
  }

  lemma StepKeeps(s: State, turn: Turn, s': State)
    requires Inv(s) && Happens(s, turn, s')
    ensures Inv(s')
  {
    match turn
    case OwnerGoes(destroy) => OwnerKeeps(s, destroy);
    case ThreadGoes(other, quits) =>
      if Past(s.thread) {
        LoopKeepsOpening(s, other, quits);
        LoopKeepsClosing(s, other, quits);
      } else {
        StartKeeps(s, quits);
      }
    case AddFunc =>
    case AddReady =>
  }

  // ----- whole runs -----

  ghost predicate Run(states: seq<State>, turns: seq<Turn>) {
    && |states| == |turns| + 1
    && states[0] == Init(states[0].budget)
    && forall i :: 0 <= i < |turns| ==> HappensAt(states, turns, i)
  }

  ghost predicate HappensAt(states: seq<State>, turns: seq<Turn>, i: nat)
    requires i < |turns| && i + 1 < |states|
  {
    Happens(states[i], turns[i], states[i + 1])
  }

  lemma {:induction false} RunInv(states: seq<State>, turns: seq<Turn>, i: nat)
    requires Run(states, turns) && i < |states|
    ensures Inv(states[i])
  {
    if i > 0 {
      RunInv(states, turns, i - 1);
      assert HappensAt(states, turns, i - 1);
      StepKeeps(states[i - 1], turns[i - 1], states[i]);
    } else {
      InitInv(states[0].budget);
    }
  }

  /** The step in which run() returns, to its caller or to the destructor. */
  predicate RunReturns(s: State, s': State) {
    (s.owner.Calling? || s.owner.AwaitingLoop?) && (s'.owner == Owning || s'.owner == ReadingCore)
  }

  /** run() returns only when the loop has passed its reset of quit_, however often it is called. */
  lemma RunReturnsAfterReset(states: seq<State>, turns: seq<Turn>, i: nat)
    requires Run(states, turns) && i < |turns| && RunReturns(states[i], states[i + 1])
    ensures Past(states[i].thread) && Past(states[i + 1].thread)
  {
    RunInv(states, turns, i);
    assert HappensAt(states, turns, i);
  }

  /** The destructor's quit is never overwritten: from its store on, quit_ stays set while the loop runs. */
  lemma QuitNotOverwritten(states: seq<State>, turns: seq<Turn>, i: nat)
    requires Run(states, turns) && i < |states|
    requires states[i].owner == WakingUp || states[i].owner == Joining || states[i].owner == Gone
    ensures Past(states[i].thread) && states[i].quit
  {
    RunInv(states, turns, i);
  }

  // ----- the waits end -----

  /** The steps the thread can still take before it has run the function of line 38. */
  function ToLoop(s: State): nat {
    match s.thread
    case Making => 10 case Queueing => 9 case Poking => 8 case Publishing => 7 case AwaitingRun => 6
    case Starting => 5 case Resetting => 4 case Testing => 3 case Draining => 2 case _ => 1
  }

  /** While the owner waits for the core, the thread can go on, and each step brings it nearer. */
  lemma StartProgresses(s: State, turn: Turn, s': State)
    requires Inv(s) && s.owner == Constructing && !s.coreSet
    ensures CanGo(s, false)
    ensures turn.ThreadGoes? && Happens(s, turn, s') ==> s'.coreSet || ToLoop(s') < ToLoop(s)
    ensures !turn.ThreadGoes? && Happens(s, turn, s') ==> s'.owner == s.owner && ToLoop(s') == ToLoop(s)
  {
  }

  /** While the owner waits in run(), the thread can go on, and each step brings it nearer. */
  lemma RunProgresses(s: State, turn: Turn, s': State)
    requires Inv(s) && s.owner.AwaitingLoop? && !s.loopSet
    ensures CanGo(s, false)
    ensures turn.ThreadGoes? && Happens(s, turn, s') ==> s'.loopSet || ToLoop(s') < ToLoop(s)
    ensures !turn.ThreadGoes? && Happens(s, turn, s') ==> s'.owner == s.owner && ToLoop(s') == ToLoop(s)
  {
  }

  /** How far the thread is from its end once quit_ is set: the work first, then the way out. */
  function ToEnd(s: State): nat {
    var way := match s.thread
      case Clearing => 1 case Testing => 2 case Dispatching => 3 case Blocking => 4
      case Scheduling => 5 case Draining => 6 case InFunc(_) => 7 case InRo => 7 case _ => 0;
    8 * (|s.funcs| + s.ready + s.budget) + way
  }

  /**
   * While the owner waits in the join, the thread has ended or can go on without waiting for
   * a timeout, and each of its steps brings it nearer to its end; no other step takes it away.
   */
  lemma JoinProgresses(s: State, turn: Turn, s': State)
    requires Inv(s) && s.owner == Joining && s.thread != Ended
    ensures CanGo(s, false)
    ensures Happens(s, turn, s') ==> s'.owner == Joining
    ensures Happens(s, turn, s') ==> ToEnd(s') <= ToEnd(s)
    ensures turn.ThreadGoes? && Happens(s, turn, s') ==> ToEnd(s') < ToEnd(s)
  {
  }

  predicate OfThread(turn: Turn) {
    turn.ThreadGoes?
  }

  /** quit_ is set for good: the reset is past. */
  predicate Leaving(s: State) {
    Past(s.thread) && s.quit
  }

  lemma ThreadLeaves(s: State, other: bool, quits: bool)
    requires Inv(s) && Leaving(s) && CanGo(s, other)
    ensures Leaving(ThreadStep(s, quits)) && ToEnd(ThreadStep(s, quits)) < ToEnd(s)
  {
  }

  lemma OwnerLeaves(s: State, destroy: bool)
    requires Leaving(s)
    ensures Leaving(OwnerStep(s, destroy)) && ToEnd(OwnerStep(s, destroy)) == ToEnd(s)
  {
  }

  lemma LeavingStep(s: State, turn: Turn, s': State)
    requires Inv(s) && Leaving(s) && Happens(s, turn, s')
    ensures Leaving(s') && (s.thread == Ended ==> s'.thread == Ended)
    ensures s.thread != Ended ==> ToEnd(s') + (if turn.ThreadGoes? then 1 else 0) <= ToEnd(s)
  {
    match turn
    case OwnerGoes(destroy) => OwnerLeaves(s, destroy);
    case ThreadGoes(other, quits) => ThreadLeaves(s, other, quits);
    case _ =>
  }

  /**
   * Once quit_ is set after the reset it stays set, and the thread ends within ToEnd turns of
   * its own, whatever the others do.
   */
  lemma {:induction false} QuitEndsLoop(states: seq<State>, turns: seq<Turn>, i: nat, j: nat)
    requires Run(states, turns) && i <= j < |states| && Leaving(states[i])
    ensures Leaving(states[j])
    ensures states[j].thread == Ended || Count(turns, OfThread, i, j) + ToEnd(states[j]) <= ToEnd(states[i])
    decreases j
  {
    if i < j {
      QuitEndsLoop(states, turns, i, j - 1);
      RunInv(states, turns, j - 1);
      assert HappensAt(states, turns, j - 1);
      LeavingStep(states[j - 1], turns[j - 1], states[j]);
    }
  }

  /** In this turn a coroutine or a queued function, other than that of line 38, calls quit(). */
  predicate UserQuits(s: State, turn: Turn) {
    turn.ThreadGoes? && turn.quits && (s.thread.InRo? || (s.thread.InFunc? && !s.thread.first))
  }

  /** A quit() in the loop's own thread is in force from then on, and ends the loop within that bound. */
  lemma UserQuitEndsLoop(states: seq<State>, turns: seq<Turn>, i: nat, j: nat)
    requires Run(states, turns) && i < j < |states| && UserQuits(states[i], turns[i])
    ensures Leaving(states[j])
    ensures states[j].thread == Ended || Count(turns, OfThread, i + 1, j) + ToEnd(states[j]) <= ToEnd(states[i + 1])
  {
    assert HappensAt(states, turns, i);
    QuitEndsLoop(states, turns, i + 1, j);
  }

  lemma JoinStays(s: State, turn: Turn, s': State)
    requires Happens(s, turn, s') && (s.owner.Joining? || s.owner.Gone?)
    ensures s'.owner.Joining? || s'.owner.Gone?
  {
    match turn
    case OwnerGoes(_) =>
    case _ => assert s'.owner == s.owner;
  }

  lemma {:induction false} JoinGoesOn(states: seq<State>, turns: seq<Turn>, i: nat, j: nat)
    requires Run(states, turns) && i <= j < |states| && states[i].owner == Joining
    ensures states[j].owner == Gone || states[j].owner == Joining
    decreases j
  {
    if i < j {
      JoinGoesOn(states, turns, i, j - 1);
      assert HappensAt(states, turns, j - 1);
      JoinStays(states[j - 1], turns[j - 1], states[j]);
    }
  }

  /**
   * The join completes: from the moment the owner waits in it, the thread ends within
   * ToEnd turns of its own, whatever the others do, and then the owner's next turn is the last.
   */
  lemma JoinCompletes(states: seq<State>, turns: seq<Turn>, i: nat, j: nat)
    requires Run(states, turns) && i <= j < |states| && states[i].owner == Joining
    ensures states[j].owner == Gone || states[j].owner == Joining
    ensures states[j].thread == Ended || Count(turns, OfThread, i, j) + ToEnd(states[j]) <= ToEnd(states[i])
  {
    JoinGoesOn(states, turns, i, j);
    QuitNotOverwritten(states, turns, i);
    QuitEndsLoop(states, turns, i, j);
  }

  /** The turn writes to the eventfd. */
  predicate Writes(s: State, turn: Turn) {
    match turn
    case AddFunc => true
    case OwnerGoes(_) => s.owner.WakingUp?
    case ThreadGoes(_, _) => s.thread.Poking?
    case AddReady => false
  }

  /** The turn ends the loop's wait because of such writes. */
  predicate Answers(s: State, turn: Turn) {
    turn.ThreadGoes? && s.thread.Blocking? && s.edge
  }

  function Written(states: seq<State>, turns: seq<Turn>, i: nat): nat
    requires i <= |turns| < |states|
  {
    if i == 0 then 0 else Written(states, turns, i - 1) + if Writes(states[i - 1], turns[i - 1]) then 1 else 0
  }

  function Answered(states: seq<State>, turns: seq<Turn>, i: nat): nat
    requires i <= |turns| < |states|
  {
    if i == 0 then 0 else Answered(states, turns, i - 1) + if Answers(states[i - 1], turns[i - 1]) then 1 else 0
  }

  lemma WriteStep(s: State, turn: Turn, s': State)
    requires Happens(s, turn, s')
    ensures s'.edge && !Writes(s, turn) ==> s.edge && !Answers(s, turn)
  {
  }

  /** No write to the eventfd ends more than one wait, so the loop does not go round for nothing. */
  lemma {:induction false} EachWriteEndsOneWait(states: seq<State>, turns: seq<Turn>, i: nat)
    requires Run(states, turns) && i < |states|
    ensures Answered(states, turns, i) + (if states[i].edge then 1 else 0) <= Written(states, turns, i)
  {
    if i > 0 {
      EachWriteEndsOneWait(states, turns, i - 1);
      assert HappensAt(states, turns, i - 1);
      WriteStep(states[i - 1], turns[i - 1], states[i]);
    }
  }

  // ----- the owner goes on -----

  /** The owner waits for the core, for the loop or for the thread's end. */
  predicate OwnerWaits(s: State) {
    || (s.owner == Constructing && !s.coreSet)
    || (s.owner.AwaitingLoop? && !s.loopSet)
    || (s.owner == Joining && s.thread != Ended)
  }

  /** The owner's steps to the end of the constructor, of run() or of the destructor, the waits apart. */
  function OwnerLeft(o: Owner): nat {
    match o
    case Constructing => 1
    case Owning => 0
    case Calling(dtor) => if dtor then 6 else 2
    case AwaitingLoop(dtor) => if dtor then 5 else 1
    case ReadingCore => 4
    case Quitting => 3
    case WakingUp => 2
    case Joining => 1
    case Gone => 0
  }

  /**
   * Each turn of the owner that is not a wait brings it nearer to the end of its call; a call
   * begins as the owner chooses, and the destructor, once begun, goes on to the join.
   */
  lemma OwnerGoesOn(states: seq<State>, turns: seq<Turn>, i: nat)
    requires Run(states, turns) && i < |turns| && turns[i].OwnerGoes? && !OwnerWaits(states[i])
    ensures states[i].owner == Owning ==> states[i + 1].owner == Calling(turns[i].destroy)
    ensures states[i].owner == Gone ==> states[i + 1].owner == Gone
    ensures states[i].owner != Owning && states[i].owner != Gone ==>
      OwnerLeft(states[i + 1].owner) < OwnerLeft(states[i].owner)
    ensures states[i].owner == ReadingCore && states[i].thread != Ended ==> states[i + 1].owner == Quitting
  {
    RunInv(states, turns, i);
    assert HappensAt(states, turns, i);
  }

  // ----- nothing queued is dropped -----

  /** The function that a turn queues. */
  function Queues(s: State, turn: Turn): seq<bool> {
    match turn
    case AddFunc => [false]
    case ThreadGoes(_, _) => QueuedByThread(s)
    case _ => []
  }

  /** That of line 38. */
  function QueuedByThread(s: State): seq<bool> {
    if s.thread.Queueing? then [true] else []
  }

  /** The function that the loop enters in a turn. */
  function Enters(s: State, s': State): seq<bool> {
    if !s.thread.InFunc? && s'.thread.InFunc? then [s'.thread.first] else []
  }

  function Queued(states: seq<State>, turns: seq<Turn>, i: nat): seq<bool>
    requires i <= |turns| < |states|
  {
    if i == 0 then [] else Queued(states, turns, i - 1) + Queues(states[i - 1], turns[i - 1])
  }

  function Entered(states: seq<State>, i: nat): seq<bool>
    requires i < |states|
  {
    if i == 0 then [] else Entered(states, i - 1) + Enters(states[i - 1], states[i])
  }

  lemma DrainEnters(s: State, quits: bool)
    requires s.thread.Draining?
    ensures var s' := ThreadStep(s, quits); Enters(s, s') + s'.funcs == s.funcs
  {
  }

  lemma RestEntersNone(s: State, quits: bool)
    requires !s.thread.Draining?
    ensures Enters(s, ThreadStep(s, quits)) == []
  {
  }

  lemma ThreadEnters(s: State, quits: bool)
    ensures var s' := ThreadStep(s, quits); Enters(s, s') + s'.funcs == s.funcs + QueuedByThread(s)
  {
    if s.thread.Draining? {
      DrainEnters(s, quits);
    } else {
      RestEntersNone(s, quits);
    }
  }

  lemma EnterStep(s: State, turn: Turn, s': State)
    requires Happens(s, turn, s')
    ensures Enters(s, s') + s'.funcs == s.funcs + Queues(s, turn)
  {
    match turn
    case OwnerGoes(destroy) =>
    case ThreadGoes(_, quits) => ThreadEnters(s, quits);
    case _ => assert s'.thread == s.thread;
  }

  lemma Rejoin(entered: seq<bool>, was: seq<bool>, enters: seq<bool>, queues: seq<bool>, now: seq<bool>)
    requires enters + now == was + queues
    ensures entered + was + queues == entered + enters + now
  {
    assert entered + was + queues == entered + (was + queues);
    assert entered + enters + now == entered + (enters + now);
  }

  /**
   * The functions queued are run in order, each once: they are those that the loop has entered
   * and those still there.
   */
  lemma {:induction false} FunctionsRunInOrder(states: seq<State>, turns: seq<Turn>, i: nat)
    requires Run(states, turns) && i < |states|
    ensures Queued(states, turns, i) == Entered(states, i) + states[i].funcs
  {
    if i > 0 {
      FunctionsRunInOrder(states, turns, i - 1);
      var s, s' := states[i - 1], states[i];
      assert HappensAt(states, turns, i - 1);
      EnterStep(s, turns[i - 1], s');
      Rejoin(Entered(states, i - 1), s.funcs, Enters(s, s'), Queues(s, turns[i - 1]), s'.funcs);
    }
  }

  /** How many coroutines the loop has resumed. */
  function Resumed(states: seq<State>, i: nat): nat
    requires i < |states|
  {
    if i == 0 then 0
    else Resumed(states, i - 1) + Resumes(states[i - 1], states[i])
  }

  predicate MakesReady(turn: Turn) {
    turn.AddReady?
  }

  /** The coroutine that the loop resumes in a step. */
  function Resumes(s: State, s': State): nat {
    if !s.thread.InRo? && s'.thread.InRo? then 1 else 0
  }

  lemma ScheduleResumes(s: State, quits: bool)
    requires s.thread.Scheduling?
    ensures var s' := ThreadStep(s, quits); s.ready == s'.ready + Resumes(s, s')
  {
    assert Acted(s, quits).ready == if s.ready > 0 then s.ready - 1 else s.ready;
  }

  lemma RestResumesNone(s: State, quits: bool)
    requires !s.thread.Scheduling?
    ensures Resumes(s, ThreadStep(s, quits)) == 0
  {
  }

  lemma ThreadResumes(s: State, quits: bool)
    ensures var s' := ThreadStep(s, quits); s.ready == s'.ready + Resumes(s, s')
  {
    if s.thread.Scheduling? {
      ScheduleResumes(s, quits);
    } else {
      RestResumesNone(s, quits);
    }
  }

  lemma ReadyStep(s: State, turn: Turn, s': State)
    requires Happens(s, turn, s')
    ensures s.ready + (if MakesReady(turn) then 1 else 0) == s'.ready + Resumes(s, s')
  {
    match turn
    case OwnerGoes(destroy) =>
    case ThreadGoes(_, quits) => ThreadResumes(s, quits);
    case _ => assert s'.thread == s.thread;
  }

  /** Each coroutine made ready has been resumed once or is still ready. */
  lemma {:induction false} ReadyIsResumedOrThere(states: seq<State>, turns: seq<Turn>, i: nat)
    requires Run(states, turns) && i < |states|
    ensures Count(turns, MakesReady, 0, i) == Resumed(states, i) + states[i].ready
  {
    if i > 0 {
      ReadyIsResumedOrThere(states, turns, i - 1);
      assert HappensAt(states, turns, i - 1);
      ReadyStep(states[i - 1], turns[i - 1], states[i]);
    }
  }

  predicate Awake(s: State) {
    (s.thread.Scheduling? || s.thread.Blocking?) && s.funcs != [] ==> s.edge
  }

  lemma ThreadKeepsAwake(s: State, quits: bool)
    requires Awake(s)
    ensures Awake(ThreadStep(s, quits))
  {
  }

  lemma WakeStep(s: State, turn: Turn, s': State)
    requires Happens(s, turn, s') && Awake(s)
    ensures Awake(s')
  {
    match turn
    case OwnerGoes(destroy) =>
    case ThreadGoes(_, quits) => ThreadKeepsAwake(s, quits);
    case _ => assert s'.thread == s.thread;
  }

  /** The loop does not wait with a function queued, unless its eventfd is signalled. */
  lemma {:induction false} NeverSleepsPastWork(states: seq<State>, turns: seq<Turn>, i: nat)
    requires Run(states, turns) && i < |states|
    ensures Awake(states[i])
  {
    if i > 0 {
      NeverSleepsPastWork(states, turns, i - 1);
      assert HappensAt(states, turns, i - 1);
      WakeStep(states[i - 1], turns[i - 1], states[i]);
    }
  }
}
