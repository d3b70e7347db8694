/**
 * The coroutine mutex: a waiter counter, an owner id and a FIFO of suspended tasks,
 * moved by LockAwaiter, TryLockAwaiter and UnlockAwaiter one atomic operation at a time.
 *
 * Task i is element i of `pcs` and `tids`; its handle is i. The queue `items` is atomic,
 * which is what MpmcLinearizable proves of it. `queued`, `granted` and `acquired` are
 * history variables: the handles in the order of the enqueues of line 272, of the dequeues
 * of line 339, and of the resumptions with which a waiter has the lock. Only the owner
 * unlocks and no owner locks again.
 */
module HandoffMutex {
  import opened Sequences

  const UINT: nat := 0x1_0000_0000

  datatype WaitItem = WaitItem(tid: int, h: nat)

  datatype Call = Lock | TryLock

  /** Where a task is; the comment gives the line about to execute. */
  datatype PC =
    | Out                       // 264 or 300
    | Entering                  // 267 or 303
    | Queueing                  // 272
    | Waiting                   // suspended
    | Granted                   // in the ready queue
    | Holding                   // 333
    | Releasing                 // 336
    | Spinning                  // 339
    | Passing(item: WaitItem)   // 340
    | Waking(item: WaitItem)    // 341

  datatype State = State(
    waiter: nat, tid: int, items: seq<WaitItem>,
    tids: seq<int>,             // the tid in each task's control block
    pcs: seq<PC>,
    queued: seq<nat>, granted: seq<nat>, acquired: seq<nat>)

  /** Task ids count up from 1. */
  function Init(tasks: nat): State {
    State(0, 0, [], seq(tasks, i => i + 1), seq(tasks, _ => Out), [], [], [])
  }

  predicate CanStep(s: State, t: nat) {
    t < |s.pcs| == |s.tids| && (s.pcs[t].Waking? ==> s.pcs[t].item.h < |s.pcs|)
  }

  /** Task t takes its next atomic step; `c` is the call a task makes that is out. */
  function Step(s: State, t: nat, c: Call): State
    requires CanStep(s, t)
  {
    match s.pcs[t]
    case Out =>
      if c == Lock then
        At(s.(waiter := (s.waiter + 1) % UINT), t, if s.waiter == 0 then Entering else Queueing)
      else if s.waiter == 0 then At(s.(waiter := 1), t, Entering)
      else s
    case Entering =>
      At(s.(tid := s.tids[t]), t, Holding)
    case Queueing =>
      At(s.(items := s.items + [WaitItem(s.tids[t], t)], queued := s.queued + [t]), t, Waiting)
    case Waiting =>
      s
    case Granted =>
      At(s.(acquired := s.acquired + [t]), t, Holding)
    case Holding =>
      // a compare-exchange that fails writes the owner id into the caller's tid
      if s.tid == s.tids[t] then At(s.(tid := 0), t, Releasing)
      else At(s.(tids := s.tids[t := s.tid]), t, Out)
    case Releasing =>
      At(s.(waiter := (s.waiter + UINT - 1) % UINT), t, if s.waiter > 1 then Spinning else Out)
    case Spinning =>
      if s.items == [] then s
      else At(s.(items := s.items[1..], granted := s.granted + [s.items[0].h]), t, Passing(s.items[0]))
    case Passing(item) =>
      At(s.(tid := item.tid), t, Waking(item))
    case Waking(item) =>
      At(At(s, t, Out), item.h, Granted)
  }

  function At(s: State, t: nat, pc: PC): State
    requires t < |s.pcs|
  {
    s.(pcs := s.pcs[t := pc])
  }

  // ----- the invariant -----

  /** The task has the lock, is getting it, or is passing it on. */
  predicate Agent(pc: PC) {
    !pc.Out? && !pc.Queueing? && !pc.Waiting?
  }

  /** Task a, or none if a is -1, is the only agent. */
  ghost predicate OnlyAgent(pcs: seq<PC>, a: int) {
    && -1 <= a < |pcs|
    && forall i :: 0 <= i < |pcs| ==> (Agent(pcs[i]) <==> i == a)
  }

  /** Tasks that have added to the counter but not yet joined the queue. */
  function Queuers(pcs: seq<PC>): set<nat> {
    set i | 0 <= i < |pcs| && pcs[i].Queueing?
  }

  /** The agent's unit of the counter; an unlocker gives it up until it has dequeued. */
  function Token(pcs: seq<PC>, a: int): nat
    requires a < |pcs|
  {
    if a < 0 || pcs[a].Spinning? then 0 else 1
  }

  /** The owner id that the agent's place in the code calls for. */
  function Owner(tids: seq<int>, pcs: seq<PC>, a: int): int
    requires a < |pcs| == |tids|
  {
    if a < 0 then 0
    else match pcs[a]
      case Holding => tids[a]
      case Granted => tids[a]
      case Waking(item) => item.tid
      case _ => 0
  }

  function Handles(items: seq<WaitItem>): seq<nat> {
    seq(|items|, k requires 0 <= k < |items| => items[k].h)
  }

  /** The item that an unlocker has dequeued and not yet made ready. */
  function InHand(pcs: seq<PC>, a: int): seq<WaitItem>
    requires a < |pcs|
  {
    if a >= 0 && (pcs[a].Passing? || pcs[a].Waking?) then [pcs[a].item] else []
  }

  /** The waiter that has been dequeued and does not have the lock yet. */
  function Outstanding(pcs: seq<PC>, a: int): seq<nat>
    requires a < |pcs|
  {
    if a >= 0 && pcs[a].Granted? then [a] else Handles(InHand(pcs, a))
  }

  /** `parked` has each suspended task once, with its tid, and no other. */
  ghost predicate Parked(tids: seq<int>, pcs: seq<PC>, parked: seq<WaitItem>)
    requires |tids| == |pcs|
  {
    && Distinct(Handles(parked))
    && (forall k :: 0 <= k < |parked| ==>
          parked[k].h < |pcs| && pcs[parked[k].h].Waiting? && parked[k].tid == tids[parked[k].h])
    && (forall h :: 0 <= h < |pcs| && pcs[h].Waiting? ==> WaitItem(tids[h], h) in parked)
  }

  ghost predicate Inv(s: State, a: int) {
    && |s.tids| == |s.pcs| < UINT
    && (forall i :: 0 <= i < |s.tids| ==> s.tids[i] == i + 1)
    && OnlyAgent(s.pcs, a)
    && s.waiter == Token(s.pcs, a) + |Queuers(s.pcs)| + |s.items|
    && (s.waiter > 0 <==> a >= 0)
    && s.tid == Owner(s.tids, s.pcs, a)
    && Parked(s.tids, s.pcs, InHand(s.pcs, a) + s.items)
    && s.queued == s.granted + Handles(s.items)
    && s.granted == s.acquired + Outstanding(s.pcs, a)
  }

  /** The agent after task t's step. */
  function NextAgent(s: State, a: int, t: nat): int
    requires t < |s.pcs|
  {
    match s.pcs[t]
    case Out => if s.waiter == 0 then t else a
    case Releasing => if s.waiter > 1 then a else -1
    case Waking(item) => item.h
    case _ => a
  }

  // ----- every step keeps the invariant -----

  lemma QueuersMoved(pcs: seq<PC>, t: nat, pc: PC)
    requires t < |pcs|
    ensures Queuers(pcs[t := pc]) == if pc.Queueing? then Queuers(pcs) + {t} else Queuers(pcs) - {t}
    ensures t in Queuers(pcs) <==> pcs[t].Queueing?
  {
  }

  /** A task joins or leaves none of the parked ones. */
  lemma ParkedKept(tids: seq<int>, pcs: seq<PC>, parked: seq<WaitItem>, t: nat, pc: PC)
    requires |tids| == |pcs| && t < |pcs| && Parked(tids, pcs, parked) && !pcs[t].Waiting? && !pc.Waiting?
    ensures Parked(tids, pcs[t := pc], parked)
  {
  }

  lemma Bounded(n: nat, ids: set<nat>)
    requires forall i :: i in ids ==> i < n
    ensures |ids| <= n
  {
    if n > 0 {
      Bounded(n - 1, ids - {n - 1});
    }
  }

  ghost function Elements(l: seq<nat>): (hs: set<nat>)
    requires Distinct(l)
    ensures |hs| == |l| && forall h :: h in hs <==> h in l
  {
    if l == [] then {} else Elements(l[..|l| - 1]) + {l[|l| - 1]}
  }

  lemma HandlesJoin(a: seq<WaitItem>, b: seq<WaitItem>)
    ensures Handles(a + b) == Handles(a) + Handles(b)
  {
  }

  lemma TailDistinct(a: seq<nat>, b: seq<nat>)
    requires Distinct(a + b)
    ensures Distinct(b)
  {
    forall i, j | 0 <= i < j < |b| ensures b[i] != b[j] {
      assert (a + b)[|a| + i] != (a + b)[|a| + j];
    }
  }

  lemma ItemsWait(tids: seq<int>, pcs: seq<PC>, hand: seq<WaitItem>, items: seq<WaitItem>)
    requires |tids| == |pcs| && Parked(tids, pcs, hand + items)
    ensures Distinct(Handles(items))
    ensures forall h :: h in Handles(items) ==> h < |pcs| && pcs[h].Waiting?
  {
    HandlesJoin(hand, items);
    TailDistinct(Handles(hand), Handles(items));
    forall k | 0 <= k < |items|
      ensures items[k].h < |pcs| && pcs[items[k].h].Waiting?
    {
      assert (hand + items)[|hand| + k] == items[k];
    }
  }

  /** The counter is at most the number of tasks that are not out, so it never wraps. */
  lemma NoWrap(s: State, a: int, out: set<nat>)
    requires Inv(s, a) && forall i :: i in out ==> i < |s.pcs| && s.pcs[i].Out?
    ensures s.waiter + |out| <= |s.pcs|
  {
    ItemsWait(s.tids, s.pcs, InHand(s.pcs, a), s.items);
    var waiting := Elements(Handles(s.items));
    var agent: set<nat> := if a >= 0 then {a} else {};
    assert |agent| >= Token(s.pcs, a);
    DisjointBound(|s.pcs|, agent, Queuers(s.pcs), waiting, out);
  }

  lemma DisjointBound(n: nat, a: set<nat>, b: set<nat>, c: set<nat>, d: set<nat>)
    requires a !! b !! c !! d
    requires forall i :: i in a || i in b || i in c || i in d ==> i < n
    ensures |a| + |b| + |c| + |d| <= n
  {
    Bounded(n, a + b + c + d);
    assert |a + b + c + d| == |a + b + c| + |d|;
    assert |a + b + c| == |a + b| + |c|;
    assert |a + b| == |a| + |b|;
  }

  /** A call of lock or try-lock, line 264 or 300. */
  lemma CallKeeps(s: State, a: int, t: nat, c: Call)
    requires Inv(s, a) && t < |s.pcs| && s.pcs[t].Out?
    ensures Inv(Step(s, t, c), NextAgent(s, a, t))
  {
    if s.waiter == 0 {
      EntersKeeps(s, a, t, c);
    } else if c == Lock {
      CommitsKeeps(s, a, t);
    }
  }

  /** The lock is free. */
  lemma EntersKeeps(s: State, a: int, t: nat, c: Call)
    requires Inv(s, a) && t < |s.pcs| && s.pcs[t].Out? && s.waiter == 0
    ensures Inv(Step(s, t, c), t)
  {
    NoWrap(s, a, {t});
    QueuersMoved(s.pcs, t, Entering);
    ParkedKept(s.tids, s.pcs, InHand(s.pcs, a) + s.items, t, Entering);
  }

  /** The lock is taken: the task is now committed to wait. */
  lemma CommitsKeeps(s: State, a: int, t: nat)
    requires Inv(s, a) && t < |s.pcs| && s.pcs[t].Out? && s.waiter != 0
    ensures Inv(Step(s, t, Lock), a)
  {
    NoWrap(s, a, {t});
    assert Step(s, t, Lock).waiter == s.waiter + 1;
    QueuersMoved(s.pcs, t, Queueing);
    ParkedKept(s.tids, s.pcs, InHand(s.pcs, a) + s.items, t, Queueing);
  }

  /** Lines 267 and 303. */
  lemma EntryKeeps(s: State, t: nat, c: Call)
    requires Inv(s, t) && t < |s.pcs| && s.pcs[t].Entering?
    ensures Inv(Step(s, t, c), t)
  {
    QueuersMoved(s.pcs, t, Holding);
    ParkedKept(s.tids, s.pcs, InHand(s.pcs, t) + s.items, t, Holding);
  }

  /** The waiter that was made ready is resumed. */
  lemma AcquireKeeps(s: State, t: nat, c: Call)
    requires Inv(s, t) && t < |s.pcs| && s.pcs[t].Granted?
    ensures Inv(Step(s, t, c), t)
  {
    QueuersMoved(s.pcs, t, Holding);
    ParkedKept(s.tids, s.pcs, InHand(s.pcs, t) + s.items, t, Holding);
  }

  /** Line 333. */
  lemma UnlockKeeps(s: State, t: nat, c: Call)
    requires Inv(s, t) && t < |s.pcs| && s.pcs[t].Holding?
    ensures Inv(Step(s, t, c), t)
  {
    QueuersMoved(s.pcs, t, Releasing);
    ParkedKept(s.tids, s.pcs, InHand(s.pcs, t) + s.items, t, Releasing);
  }

  /** Line 340. */
  lemma PassKeeps(s: State, t: nat, c: Call)
    requires Inv(s, t) && t < |s.pcs| && s.pcs[t].Passing?
    ensures Inv(Step(s, t, c), t)
  {
    var pc := Waking(s.pcs[t].item);
    QueuersMoved(s.pcs, t, pc);
    ParkedKept(s.tids, s.pcs, InHand(s.pcs, t) + s.items, t, pc);
  }

  /** Line 336: the counter goes down, and with it the last claim to the lock or the token. */
  lemma ReleaseKeeps(s: State, t: nat, c: Call)
    requires Inv(s, t) && t < |s.pcs| && s.pcs[t].Releasing?
    ensures Inv(Step(s, t, c), NextAgent(s, t, t))
  {
    var pc := Step(s, t, c).pcs[t];
    NoWrap(s, t, {});
    assert Step(s, t, c).waiter == s.waiter - 1;
    QueuersMoved(s.pcs, t, pc);
    ParkedKept(s.tids, s.pcs, InHand(s.pcs, t) + s.items, t, pc);
  }

  /** Line 272. */
  lemma QueueKeeps(s: State, a: int, t: nat, c: Call)
    requires Inv(s, a) && t < |s.pcs| && s.pcs[t].Queueing?
    ensures Inv(Step(s, t, c), a)
  {
    var s' := Step(s, t, c);
    var item := WaitItem(s.tids[t], t);
    QueuersMoved(s.pcs, t, Waiting);
    var parked := InHand(s.pcs, a) + s.items;
    assert InHand(s'.pcs, a) + s'.items == parked + [item];
    ParkedAdded(s.tids, s.pcs, parked, t);
    assert Handles(s'.items) == Handles(s.items) + [t];
  }

  lemma ParkedAdded(tids: seq<int>, pcs: seq<PC>, parked: seq<WaitItem>, t: nat)
    requires |tids| == |pcs| && t < |pcs| && Parked(tids, pcs, parked) && !pcs[t].Waiting?
    ensures Parked(tids, pcs[t := Waiting], parked + [WaitItem(tids[t], t)])
  {
    var parked' := parked + [WaitItem(tids[t], t)];
    HandlesJoin(parked, [WaitItem(tids[t], t)]);
    assert parked'[|parked|] == WaitItem(tids[t], t);
    forall h | 0 <= h < |pcs| && pcs[h].Waiting?
      ensures WaitItem(tids[h], h) in parked'
    {
      assert WaitItem(tids[h], h) in parked;
    }
  }

  /** Line 339, finding a waiter. */
  lemma DequeueKeeps(s: State, a: int, t: nat, c: Call)
    requires Inv(s, a) && t < |s.pcs| && s.pcs[t].Spinning? && s.items != []
    ensures Inv(Step(s, t, c), a)
  {
    var s' := Step(s, t, c);
    var pc := Passing(s.items[0]);
    assert a == t;
    QueuersMoved(s.pcs, t, pc);
    assert InHand(s'.pcs, a) + s'.items == InHand(s.pcs, a) + s.items;
    ParkedKept(s.tids, s.pcs, InHand(s.pcs, a) + s.items, t, pc);
    assert Handles(s.items) == [s.items[0].h] + Handles(s'.items);
  }

  /** Line 341. */
  lemma WakeKeeps(s: State, a: int, t: nat, c: Call)
    requires Inv(s, a) && t < |s.pcs| && s.pcs[t].Waking?
    ensures CanStep(s, t) && Inv(Step(s, t, c), s.pcs[t].item.h)
  {
    var item := s.pcs[t].item;
    assert a == t;
    assert (InHand(s.pcs, a) + s.items)[0] == item;
    WakeParks(s, a, t);
    QueuersMoved(s.pcs, t, Out);
    QueuersMoved(s.pcs[t := Out], item.h, Granted);
    assert InHand(Step(s, t, c).pcs, item.h) + s.items == s.items;
  }

  lemma WakeParks(s: State, a: int, t: nat)
    requires Inv(s, a) && t < |s.pcs| && s.pcs[t].Waking?
    ensures s.pcs[t].item.h < |s.pcs|
    ensures Parked(s.tids, s.pcs[t := Out][s.pcs[t].item.h := Granted], s.items)
  {
    assert a == t;
    var parked := InHand(s.pcs, a) + s.items;
    assert parked[0] == s.pcs[t].item;
    ParkedKept(s.tids, s.pcs, parked, t, Out);
    assert s.items == parked[1..];
    ParkedRemoved(s.tids, s.pcs[t := Out], parked, Granted);
  }

  lemma ParkedRemoved(tids: seq<int>, pcs: seq<PC>, parked: seq<WaitItem>, pc: PC)
    requires |tids| == |pcs| && Parked(tids, pcs, parked) && parked != [] && !pc.Waiting?
    ensures Parked(tids, pcs[parked[0].h := pc], parked[1..])
  {
    var t := parked[0].h;
    assert [parked[0]] + parked[1..] == parked;
    HandlesJoin([parked[0]], parked[1..]);
    TailDistinct(Handles([parked[0]]), Handles(parked[1..]));
    forall k | 0 <= k < |parked[1..]|
      ensures parked[1..][k].h != t
    {
      assert Handles(parked)[0] != Handles(parked)[k + 1];
    }
    forall h | 0 <= h < |pcs| && pcs[h].Waiting? && h != t
      ensures WaitItem(tids[h], h) in parked[1..]
    {
      assert WaitItem(tids[h], h) in parked;
    }
  }

  lemma InvCanStep(s: State, a: int, t: nat)
    requires Inv(s, a) && t < |s.pcs|
    ensures CanStep(s, t)
  {
    if s.pcs[t].Waking? {
      assert (InHand(s.pcs, a) + s.items)[0] == s.pcs[t].item;
    }
  }

  /** Every step of any task keeps the invariant. */
  lemma StepKeeps(s: State, a: int, t: nat, c: Call)
    requires Inv(s, a) && t < |s.pcs|
    ensures CanStep(s, t) && Inv(Step(s, t, c), NextAgent(s, a, t))
  {
    InvCanStep(s, a, t);
    match s.pcs[t]
    case Out => CallKeeps(s, a, t, c);
    case Queueing => QueueKeeps(s, a, t, c);
    case Waiting =>
    case Spinning => if s.items != [] { DequeueKeeps(s, a, t, c); }
    case Waking(_) => WakeKeeps(s, a, t, c);
    case Releasing => ReleaseKeeps(s, t, c);
    case Entering => EntryKeeps(s, t, c);
    case Granted => AcquireKeeps(s, t, c);
    case Holding => UnlockKeeps(s, t, c);
    case Passing(_) => PassKeeps(s, t, c);
  }

  // ----- whole runs -----

  datatype Turn = Turn(t: nat, c: Call)

  /** Any interleaving of tasks that lock, try to lock and, when holding, unlock. */
  ghost predicate Run(states: seq<State>, turns: seq<Turn>) {
    && |states| == |turns| + 1
    && states[0] == Init(|states[0].pcs|) && |states[0].pcs| < UINT
    && forall i :: 0 <= i < |turns| ==> MovesAt(states, turns, i)
  }

  ghost predicate MovesAt(states: seq<State>, turns: seq<Turn>, i: nat)
    requires i < |turns| && i + 1 < |states|
  {
    Moves(states[i], turns[i], states[i + 1])
  }

  ghost predicate Moves(s: State, turn: Turn, s': State) {
    CanStep(s, turn.t) && s' == Step(s, turn.t, turn.c)
  }

  lemma InitInv(tasks: nat)
    requires tasks < UINT
    ensures Inv(Init(tasks), -1)
  {
    assert Queuers(Init(tasks).pcs) == {};
  }

  lemma {:induction false} RunInv(states: seq<State>, turns: seq<Turn>, i: nat) returns (a: int)
    requires Run(states, turns) && i < |states|
    ensures Inv(states[i], a) && |states[i].pcs| == |states[0].pcs|
  {
    if i == 0 {
      InitInv(|states[0].pcs|);
      a := -1;
    } else {
      a := RunInv(states, turns, i - 1);
      var s, t := states[i - 1], turns[i - 1].t;
      assert MovesAt(states, turns, i - 1);
      StepKeeps(s, a, t, turns[i - 1].c);
      a := NextAgent(s, a, t);
    }
  }

  predicate Critical(pc: PC) {
    pc.Holding?
  }

  /** At most one task is in the critical section, and the owner id, when set, is its. */
  lemma MutualExclusion(states: seq<State>, turns: seq<Turn>, i: nat)
    requires Run(states, turns) && i < |states|
    ensures var s := states[i];
      && (forall t, u :: 0 <= t < |s.pcs| && 0 <= u < |s.pcs| && Critical(s.pcs[t]) && Critical(s.pcs[u]) ==> t == u)
      && (forall t :: 0 <= t < |s.pcs| && Critical(s.pcs[t]) ==> s.tid == t + 1)
  {
    var a := RunInv(states, turns, i);
  }

  /** Some unlocker has dequeued t's handle and is about to make it ready. */
  ghost predicate BeingWoken(pcs: seq<PC>, t: nat) {
    exists u :: 0 <= u < |pcs| && pcs[u].Waking? && pcs[u].item.h == t
  }

  /** A nonzero owner id is that of the holder, or of the waiter that is being granted. */
  lemma OwnerIsHolderOrGranted(states: seq<State>, turns: seq<Turn>, i: nat)
    requires Run(states, turns) && i < |states| && states[i].tid != 0
    ensures var s := states[i]; var t := s.tid - 1;
      && 0 <= t < |s.pcs|
      && (s.pcs[t].Holding? || s.pcs[t].Granted? || (s.pcs[t].Waiting? && BeingWoken(s.pcs, t)))
  {
    var s := states[i];
    var a := RunInv(states, turns, i);
    if s.pcs[a].Waking? {
      assert (InHand(s.pcs, a) + s.items)[0] == s.pcs[a].item;
    }
  }

  ghost predicate CountedWith(s: State, a: int) {
    OnlyAgent(s.pcs, a) && s.waiter == Token(s.pcs, a) + |Queuers(s.pcs)| + |s.items|
  }

  /**
   * The counter at every instant: one for the task that has, gets or passes on the lock
   * (but not while it spins), one for each committed waiter and one for each queued one.
   */
  lemma CounterExact(states: seq<State>, turns: seq<Turn>, i: nat)
    requires Run(states, turns) && i < |states|
    ensures exists a :: CountedWith(states[i], a)
    ensures states[i].waiter <= |states[i].pcs|
  {
    var a := RunInv(states, turns, i);
    NoWrap(states[i], a, {});
    assert CountedWith(states[i], a);
  }

  /** No waiter is lost: the counter is positive just when some task has the lock or moves it. */
  lemma NoWaiterLost(states: seq<State>, turns: seq<Turn>, i: nat)
    requires Run(states, turns) && i < |states|
    ensures states[i].waiter > 0 <==> exists a :: 0 <= a < |states[i].pcs| && Agent(states[i].pcs[a])
    ensures forall h :: 0 <= h < |states[i].pcs| && states[i].pcs[h].Waiting? ==> states[i].waiter > 0
  {
    var s := states[i];
    var a := RunInv(states, turns, i);
    forall h | 0 <= h < |s.pcs| && s.pcs[h].Waiting?
      ensures s.waiter > 0
    {
      assert WaitItem(s.tids[h], h) in InHand(s.pcs, a) + s.items;
    }
  }

  /**
   * Waiters get the lock in the order in which they queued: those that have got it are the
   * first ones dequeued, at most one dequeued waiter has yet to get it, and those dequeued
   * are the first ones queued.
   */
  lemma HandoffsAreFifo(states: seq<State>, turns: seq<Turn>, i: nat)
    requires Run(states, turns) && i < |states|
    ensures states[i].acquired <= states[i].granted <= states[i].queued
    ensures |states[i].granted| <= |states[i].acquired| + 1
    ensures states[i].queued == states[i].granted + Handles(states[i].items)
    ensures |states[i].granted| > |states[i].acquired| ==>
      var h := states[i].granted[|states[i].acquired|];
      h < |states[i].pcs| && (states[i].pcs[h].Granted? || states[i].pcs[h].Waiting?)
  {
    var a := RunInv(states, turns, i);
    var s := states[i];
    if InHand(s.pcs, a) != [] {
      assert (InHand(s.pcs, a) + s.items)[0] == s.pcs[a].item;
    }
  }

  /** No task gets past the waiters: while one is committed or suspended, lock and try-lock do not enter. */
  lemma NoOvertaking(states: seq<State>, turns: seq<Turn>, i: nat, h: nat)
    requires Run(states, turns) && i < |turns| && h < |states[i].pcs|
    requires states[i].pcs[h].Queueing? || states[i].pcs[h].Waiting? || states[i].pcs[h].Granted?
    ensures turns[i].t < |states[i + 1].pcs| == |states[i].pcs|
    ensures states[i].pcs[turns[i].t].Out? ==>
      var pc := states[i + 1].pcs[turns[i].t]; if turns[i].c == Lock then pc.Queueing? else pc.Out?
  {
    NoWaiterLost(states, turns, i);
    var a := RunInv(states, turns, i);
    var b := RunInv(states, turns, i + 1);
    assert MovesAt(states, turns, i);
    assert Queuers(states[i].pcs) == {} ==> !states[i].pcs[h].Queueing? by {
      assert states[i].pcs[h].Queueing? ==> h in Queuers(states[i].pcs);
    }
  }

  /** A task's own id never changes: while only owners unlock, no compare-exchange fails. */
  lemma TidsNeverChange(states: seq<State>, turns: seq<Turn>, i: nat)
    requires Run(states, turns) && i < |states|
    ensures states[i].tids == states[0].tids && |states[i].pcs| == |states[i].tids|
    ensures forall t :: 0 <= t < |states[i].pcs| && states[i].pcs[t].Holding? ==> states[i].tid == states[i].tids[t]
  {
    var a := RunInv(states, turns, i);
    var b := RunInv(states, turns, 0);
  }

  // ----- the spin of line 339 -----

  /** While task u spins, a queued waiter stays queued and a committed one stays until it acts. */
  lemma SpinStep(s: State, a: int, u: nat, t: nat, c: Call)
    requires Inv(s, a) && u < |s.pcs| && s.pcs[u].Spinning? && t < |s.pcs| && t != u
    ensures CanStep(s, t) && |Step(s, t, c).pcs| == |s.pcs| && Step(s, t, c).pcs[u] == s.pcs[u]
    ensures |Step(s, t, c).items| >= |s.items|
    ensures s.pcs[t].Queueing? ==> Step(s, t, c).items != []
    ensures Queuers(s.pcs) - {t} <= Queuers(Step(s, t, c).pcs)
  {
    InvCanStep(s, a, t);
    QueuersMoved(s.pcs, t, Step(s, t, c).pcs[t]);
  }

  /** Some waiter is queued, or a task that is about to queue takes a turn from i up to j. */
  ghost predicate Served(states: seq<State>, turns: seq<Turn>, i: nat, j: nat)
    requires i <= j <= |turns| < |states|
  {
    || states[i].items != []
    || exists k, q :: i <= k < j && q in Queuers(states[i].pcs) && turns[k].t == q
  }

  ghost predicate Found(s: State, s': State, u: nat) {
    && u < |s.pcs| == |s'.pcs|
    && s.pcs[u].Spinning? && s.items != [] && s'.pcs[u] == Passing(s.items[0]) && s'.items == s.items[1..]
  }

  /** In a turn from i up to j task u, spinning until then, finds a waiter and leaves the spin. */
  ghost predicate Leaves(states: seq<State>, turns: seq<Turn>, u: nat, i: nat, j: nat)
    requires i <= j <= |turns| < |states|
  {
    exists k :: i <= k < j && turns[k].t == u && Found(states[k], states[k + 1], u)
  }

  /** Every turn of u from i up to j has found the queue empty. */
  ghost predicate OnlyFindsNone(states: seq<State>, turns: seq<Turn>, u: nat, i: nat, j: nat)
    requires i <= j <= |turns| < |states|
  {
    forall k :: i <= k < j && turns[k].t == u ==> states[k].items == []
  }

  /**
   * The spin ends: the spinning task always has a waiter that is queued or about to queue.
   * It has left by its first turn that finds the former, and until then it spins on; once one
   * of the latter has had a turn there is a queued waiter for its next one.
   */
  lemma {:induction false} SpinEnds(states: seq<State>, turns: seq<Turn>, u: nat, i: nat, j: nat)
    requires Run(states, turns) && i <= j < |states| && u < |states[i].pcs| && states[i].pcs[u].Spinning?
    ensures states[i].items != [] || Queuers(states[i].pcs) != {}
    ensures Leaves(states, turns, u, i, j) || (u < |states[j].pcs| && states[j].pcs[u].Spinning?)
    ensures Leaves(states, turns, u, i, j) || OnlyFindsNone(states, turns, u, i, j)
    ensures Leaves(states, turns, u, i, j) || (Served(states, turns, i, j) ==> states[j].items != [])
    decreases j - i
  {
    var s := states[i];
    var a := RunInv(states, turns, i);
    if i < j && turns[i].t == u && s.items != [] {
      assert MovesAt(states, turns, i);
      assert Found(s, states[i + 1], u);
    } else if i < j {
      var t, c := turns[i].t, turns[i].c;
      assert MovesAt(states, turns, i);
      if t != u {
        SpinStep(s, a, u, t, c);
      }
      SpinEnds(states, turns, u, i + 1, j);
      if s.items == [] && !s.pcs[t].Queueing? && Served(states, turns, i, j) {
        var k, q :| i <= k < j && q in Queuers(s.pcs) && turns[k].t == q;
        assert k != i;
        assert q in Queuers(states[i + 1].pcs) && i + 1 <= k < j;
        assert Served(states, turns, i + 1, j);
      }
    }
  }

  // ----- every other turn goes on -----

  /** How far a task is from being out or suspended. */
  function Rank(pc: PC): nat {
    match pc
    case Entering => 6
    case Granted => 6
    case Holding => 5
    case Releasing => 4
    case Spinning => 3
    case Passing(_) => 2
    case Waking(_) => 1
    case Queueing => 1
    case Waiting => 0
    case Out => 0
  }

  /** A task that is in a call, not suspended and does not spin at an empty queue gets on by each turn. */
  lemma TurnsGoOn(states: seq<State>, turns: seq<Turn>, i: nat, t: nat)
    requires Run(states, turns) && i < |turns| && turns[i].t == t < |states[i].pcs|
    requires !states[i].pcs[t].Out? && !states[i].pcs[t].Waiting?
    requires !(states[i].pcs[t].Spinning? && states[i].items == [])
    ensures t < |states[i + 1].pcs| && Rank(states[i + 1].pcs[t]) < Rank(states[i].pcs[t])
  {
    var a := RunInv(states, turns, i);
    assert MovesAt(states, turns, i);
    if states[i].pcs[t].Waking? {
      assert (InHand(states[i].pcs, a) + states[i].items)[0] == states[i].pcs[t].item;
    }
  }

  /**
   * A call enters at once if and only if no task has the lock or moves it; otherwise lock
   * commits to wait and try-lock returns.
   */
  lemma EntersIffFree(states: seq<State>, turns: seq<Turn>, i: nat, t: nat)
    requires Run(states, turns) && i < |turns| && turns[i].t == t < |states[i].pcs| && states[i].pcs[t].Out?
    ensures t < |states[i + 1].pcs|
    ensures states[i + 1].pcs[t].Entering? <==> forall a :: 0 <= a < |states[i].pcs| ==> !Agent(states[i].pcs[a])
    ensures !states[i + 1].pcs[t].Entering? ==>
      if turns[i].c == Lock then states[i + 1].pcs[t].Queueing? else states[i + 1] == states[i]
  {
    NoWaiterLost(states, turns, i);
    assert MovesAt(states, turns, i);
  }

  // ----- the hand-off -----

  function TurnOf(t: nat): Turn -> bool {
    (turn: Turn) => turn.t == t
  }

  /** Unlocker u, with n of its turns from line 336 on behind it, is handing the lock to h. */
  predicate HandsTo(s: State, u: nat, h: nat, n: nat) {
    && u < |s.pcs|
    && match s.pcs[u]
       case Releasing => n == 0 && s.items != [] && s.items[0].h == h
       case Spinning => n == 1 && s.items != [] && s.items[0].h == h
       case Passing(item) => n == 2 && item.h == h
       case Waking(item) => n == 3 && item.h == h
       case _ => false
  }

  ghost predicate Readied(s: State, h: nat) {
    h < |s.pcs| && s.pcs[h].Granted?
  }

  lemma HandsStep(s: State, a: int, u: nat, h: nat, n: nat, t: nat, c: Call)
    requires Inv(s, a) && HandsTo(s, u, h, n) && t < |s.pcs|
    ensures CanStep(s, t) && Step(s, t, c).acquired == s.acquired
    ensures if t == u && n == 3 then Readied(Step(s, t, c), h)
      else HandsTo(Step(s, t, c), u, h, if t == u then n + 1 else n)
  {
    InvCanStep(s, a, t);
    assert a == u;
    if s.pcs[u].Waking? {
      assert (InHand(s.pcs, a) + s.items)[0] == s.pcs[u].item;
    }
  }

  lemma ReadiedStep(s: State, a: int, h: nat, t: nat, c: Call)
    requires Inv(s, a) && Readied(s, h) && t < |s.pcs|
    ensures CanStep(s, t)
    ensures if t == h then Step(s, t, c).acquired == s.acquired + [h] && Step(s, t, c).pcs[h].Holding?
      else Step(s, t, c).acquired == s.acquired && Readied(Step(s, t, c), h)
  {
    InvCanStep(s, a, t);
  }

  lemma AcquiredGrows(s: State, t: nat, c: Call)
    requires CanStep(s, t)
    ensures s.acquired <= Step(s, t, c).acquired
  {
  }

  /** From instant k on, at which it was made ready, h has waited for a turn, or it has had one and got the lock. */
  ghost predicate Follows(states: seq<State>, turns: seq<Turn>, h: nat, before: seq<nat>, k: nat, j: nat)
    requires k <= j <= |turns| < |states|
  {
    if Count(turns, TurnOf(h), k, j) == 0 then states[j].acquired == before && Readied(states[j], h)
    else before + [h] <= states[j].acquired
  }

  lemma FollowsStep(states: seq<State>, turns: seq<Turn>, h: nat, before: seq<nat>, k: nat, j: nat)
    requires Run(states, turns) && k <= j < |turns| && Follows(states, turns, h, before, k, j)
    ensures Follows(states, turns, h, before, k, j + 1)
  {
    var a := RunInv(states, turns, j);
    assert MovesAt(states, turns, j);
    if Count(turns, TurnOf(h), k, j) == 0 {
      ReadiedStep(states[j], a, h, turns[j].t, turns[j].c);
    } else {
      AcquiredGrows(states[j], turns[j].t, turns[j].c);
    }
  }

  /** The hand-off that began at i with n turns is on its way at j, or was made at k. */
  ghost predicate HandedOn(
      states: seq<State>, turns: seq<Turn>, u: nat, h: nat, n: nat, i: nat, j: nat, k: nat)
    requires i <= j <= |turns| < |states|
  {
    || (HandsTo(states[j], u, h, n + Count(turns, TurnOf(u), i, j)) && states[j].acquired == states[i].acquired)
    || (i < k <= j && n + Count(turns, TurnOf(u), i, k) == 4 && Follows(states, turns, h, states[i].acquired, k, j))
  }

  lemma HandedStep(
      states: seq<State>, turns: seq<Turn>, u: nat, h: nat, n: nat, i: nat, j: nat, k: nat) returns (k': nat)
    requires Run(states, turns) && i <= j < |turns| && HandedOn(states, turns, u, h, n, i, j, k)
    ensures HandedOn(states, turns, u, h, n, i, j + 1, k')
  {
    k' := k;
    var m := n + Count(turns, TurnOf(u), i, j);
    if HandsTo(states[j], u, h, m) && states[j].acquired == states[i].acquired {
      var a := RunInv(states, turns, j);
      assert MovesAt(states, turns, j);
      HandsStep(states[j], a, u, h, m, turns[j].t, turns[j].c);
      if turns[j].t == u && m == 3 {
        k' := j + 1;
        assert Follows(states, turns, h, states[i].acquired, j + 1, j + 1);
      }
    } else {
      FollowsStep(states, turns, h, states[i].acquired, k, j);
    }
  }

  /**
   * The hand-off completes. An unlocker past line 333, with h the oldest waiter, makes
   * it ready by its fourth turn, at instant k, and the first turn of h after that gives h the
   * lock, before anybody else has it, whatever the others do in between.
   */
  lemma {:induction false} HandOffCompletes(
      states: seq<State>, turns: seq<Turn>, u: nat, h: nat, n: nat, i: nat, j: nat) returns (k: nat)
    requires Run(states, turns) && i <= j < |states| && HandsTo(states[i], u, h, n)
    ensures HandedOn(states, turns, u, h, n, i, j, k)
    ensures n + Count(turns, TurnOf(u), i, j) >= 4 ==>
      i < k <= j && n + Count(turns, TurnOf(u), i, k) == 4 && Follows(states, turns, h, states[i].acquired, k, j)
    decreases j
  {
    k := i;
    if i < j {
      k := HandOffCompletes(states, turns, u, h, n, i, j - 1);
      k := HandedStep(states, turns, u, h, n, i, j - 1, k);
    }
  }
}
