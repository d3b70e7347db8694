/**
 * Where the resumable handle of each live task is: every queue of the runtime, moved by
 * the awaiters, the wake-ups and the scheduler.
 *
 * The code hands a handle on before it forgets it: a wake-up enqueues it before it erases
 * the list's entry, and an await_suspend before it returns. In between the old entry is
 * stale, and another core may already run the coroutine. Publishing and forgetting are
 * separate steps here; what guards a step is only where its own thread is in the code.
 */
module Handles {
  type Task = nat

  datatype Place =
    | Ready                     // readyRo_
    | FileList(fd: int)         // FileWQ::items_
    | TimerList(core: nat)      // TimeWQ::items_
    | MutexList(mu: nat)        // MuCore::items_
    | FuncQueue(core: nat)      // Core::funcs_, inside a queued function
    | Carried(core: nat)        // inside the function that a core is running
    | InHand(core: nat)         // dequeued by an unlocker on that core
    | OnCore(core: nat)         // resumed by that core

  /** Where a core's thread is. */
  datatype PC =
    | Loop                      // in the loop, or in epoll's dispatch
    | Running                   // in a resumed coroutine
    | Leaving                   // in await_suspend, which has published the coroutine's handle
    | Unlocking                 // UnlockAwaiter has dequeued a waiter
    | Unlocked                  // ... and made it ready
    | InFunc                    // in a queued function
    | Added(fd: int)            // ... which has added its handle to the wait list of fd
    | FuncDone                  // ... which has made its handle ready
    | Erasing(p: Place, i: nat, inFunc: bool)   // a wake-up has made entry i of p ready

  /** What a function queued for a task does with its handle in the end. */
  datatype Target = Back | Wait(fd: int)

  /**
   * `at`: the handles in each place, in order; `owner`: the core of each file descriptor;
   * `targets`: what the function queued for a task is for.
   */
  datatype State = State(
    at: map<Place, seq<Task>>, pcs: seq<PC>, owner: map<int, nat>,
    live: set<Task>, made: Task, targets: map<Task, Target>)

  function In(s: State, p: Place): seq<Task> {
    if p in s.at then s.at[p] else []
  }

  function Put(s: State, p: Place, l: seq<Task>): State {
    s.(at := s.at[p := l])
  }

  function Without(l: seq<Task>, i: nat): seq<Task>
    requires i < |l|
  {
    seq(|l| - 1, k requires 0 <= k < |l| - 1 => if k < i then l[k] else l[k + 1])
  }

  function With(l: seq<Task>, j: nat, t: Task): seq<Task>
    requires j <= |l|
  {
    seq(|l| + 1, k requires 0 <= k < |l| + 1 => if k < j then l[k] else if k == j then t else l[k - 1])
  }

  datatype Turn =
    | Spawn                             // Task.h 12-15: a task is created, ready
    | Schedule(c: nat)                  // CoKernel.cpp 168-178
    | Sleep(c: nat, j: nat)             // TimeAwaiter: into the core's timer list, in order
    | FileWaits(c: nat, fd: int)        // FileAwaiter on the descriptor's own core, blocked
    | FileCalls(c: nat, fd: int)        // FileAwaiter from another core
    | CrossCalls(c: nat, d: nat)        // XCoreFAwaiter
    | LockWaits(c: nat, mu: nat)        // LockAwaiter, 272
    | Returns(c: nat)                   // await_suspend returns, and so does resume()
    | UnlockTakes(c: nat, mu: nat)      // UnlockAwaiter, 339
    | UnlockWakes(c: nat)               // UnlockAwaiter, 341
    | UnlockReturns(c: nat)             // UnlockAwaiter, 348
    | Ends(c: nat)                      // the task ends
    | TimerWakes(c: nat)                // TimeWQ.cpp 39
    | FileWakes(c: nat, fd: int, i: nat)    // FileWQ.cpp 42
    | Erases(c: nat)                    // TimeWQ.cpp 40, FileWQ.cpp 45
    | RunsFunc(c: nat)                  // Core.cpp 65-67
    | FuncEnds(c: nat, blocked: bool)   // CoKernel.h 91-94, 213-225
    | FuncReturns(c: nat)               // Core.cpp 67

  predicate Is(s: State, c: nat, pc: PC) {
    c < |s.pcs| && s.pcs[c] == pc
  }

  predicate Owns(s: State, c: nat, fd: int) {
    fd in s.owner && s.owner[fd] == c
  }

  /** The thread is at that step and its operands are there; nothing is asked of other copies of a handle. */
  predicate Enabled(s: State, turn: Turn) {
    match turn
    case Spawn => true
    case Schedule(c) => Is(s, c, Loop) && In(s, Ready) != []
    case Sleep(c, j) => Is(s, c, Running) && In(s, OnCore(c)) != [] && j <= |In(s, TimerList(c))|
    case FileWaits(c, fd) => Is(s, c, Running) && In(s, OnCore(c)) != [] && Owns(s, c, fd)
    case FileCalls(c, fd) => Is(s, c, Running) && In(s, OnCore(c)) != [] && fd in s.owner && s.owner[fd] != c
    case CrossCalls(c, d) => Is(s, c, Running) && In(s, OnCore(c)) != [] && c != d
    case LockWaits(c, _) => Is(s, c, Running) && In(s, OnCore(c)) != []
    case Returns(c) => Is(s, c, Leaving) && In(s, OnCore(c)) != []
    case UnlockTakes(c, mu) => Is(s, c, Running) && In(s, MutexList(mu)) != []
    case UnlockWakes(c) => Is(s, c, Unlocking) && In(s, InHand(c)) != []
    case UnlockReturns(c) => Is(s, c, Unlocked) && In(s, InHand(c)) != []
    case Ends(c) => Is(s, c, Running) && In(s, OnCore(c)) != []
    case TimerWakes(c) => Is(s, c, Loop) && In(s, TimerList(c)) != []
    case FileWakes(c, fd, i) =>
      ((Is(s, c, Loop) && Owns(s, c, fd)) || Is(s, c, Added(fd))) && i < |In(s, FileList(fd))|
    case Erases(c) => c < |s.pcs| && s.pcs[c].Erasing? && s.pcs[c].i < |In(s, s.pcs[c].p)|
    case RunsFunc(c) => Is(s, c, Loop) && In(s, FuncQueue(c)) != []
    case FuncEnds(c, _) => Is(s, c, InFunc) && In(s, Carried(c)) != []
    case FuncReturns(c) =>
      c < |s.pcs| && (s.pcs[c].Added? || s.pcs[c] == FuncDone) && In(s, Carried(c)) != []
  }

  /**
   * What a step does with a handle: it takes entry i of p to position j of q, or publishes
   * it there and leaves the entry, or drops the entry.
   */
  datatype Effect =
    | Takes(p: Place, i: nat, q: Place, j: nat)
    | Publishes(p: Place, i: nat, q: Place, j: nat)
    | Drops(p: Place, i: nat)

  predicate Fits(s: State, e: Effect) {
    && e.i < |In(s, e.p)|
    && (!e.Drops? ==> e.p != e.q && e.j <= |In(s, e.q)|)
  }

  function EffectOf(s: State, turn: Turn): (e: Effect)
    requires Enabled(s, turn) && !turn.Spawn?
    ensures Fits(s, e)
  {
    match turn
    case Schedule(c) => Takes(Ready, 0, OnCore(c), |In(s, OnCore(c))|)
    case UnlockTakes(c, mu) => Takes(MutexList(mu), 0, InHand(c), |In(s, InHand(c))|)
    case RunsFunc(c) => Takes(FuncQueue(c), 0, Carried(c), |In(s, Carried(c))|)
    case Sleep(c, j) => Publishes(OnCore(c), 0, TimerList(c), j)
    case FileWaits(c, fd) => Publishes(OnCore(c), 0, FileList(fd), |In(s, FileList(fd))|)
    case FileCalls(c, fd) => Publishes(OnCore(c), 0, FuncQueue(s.owner[fd]), |In(s, FuncQueue(s.owner[fd]))|)
    case CrossCalls(c, d) => Publishes(OnCore(c), 0, FuncQueue(d), |In(s, FuncQueue(d))|)
    case LockWaits(c, mu) => Publishes(OnCore(c), 0, MutexList(mu), |In(s, MutexList(mu))|)
    case UnlockWakes(c) => Publishes(InHand(c), 0, Ready, |In(s, Ready)|)
    case TimerWakes(c) => Publishes(TimerList(c), 0, Ready, |In(s, Ready)|)
    case FileWakes(_, fd, i) => Publishes(FileList(fd), i, Ready, |In(s, Ready)|)
    case FuncEnds(c, blocked) =>
      if blocked && WaitsFor(s, c) then
        var fd := s.targets[In(s, Carried(c))[0]].fd;
        Publishes(Carried(c), 0, FileList(fd), |In(s, FileList(fd))|)
      else Publishes(Carried(c), 0, Ready, |In(s, Ready)|)
    case Returns(c) => Drops(OnCore(c), 0)
    case UnlockReturns(c) => Drops(InHand(c), 0)
    case FuncReturns(c) => Drops(Carried(c), 0)
    case Ends(c) => Drops(OnCore(c), 0)
    case Erases(c) => Drops(s.pcs[c].p, s.pcs[c].i)
  }

  /** The function that core c runs is for a file descriptor. */
  predicate WaitsFor(s: State, c: nat)
    requires In(s, Carried(c)) != []
  {
    In(s, Carried(c))[0] in s.targets && s.targets[In(s, Carried(c))[0]].Wait?
  }

  /** Where the thread is after the step. */
  function Then(s: State, turn: Turn): PC
    requires Enabled(s, turn) && !turn.Spawn?
  {
    match turn
    case Schedule(_) => Running
    case Sleep(_, _) => Leaving
    case FileWaits(_, _) => Leaving
    case FileCalls(_, _) => Leaving
    case CrossCalls(_, _) => Leaving
    case LockWaits(_, _) => Leaving
    case Returns(_) => Loop
    case UnlockTakes(_, _) => Unlocking
    case UnlockWakes(_) => Unlocked
    case UnlockReturns(_) => Running
    case Ends(_) => Loop
    case TimerWakes(c) => Erasing(TimerList(c), 0, false)
    case FileWakes(c, fd, i) => Erasing(FileList(fd), i, s.pcs[c].Added?)
    case Erases(c) => if s.pcs[c].inFunc && s.pcs[c].p.FileList? then Added(s.pcs[c].p.fd) else Loop
    case RunsFunc(_) => InFunc
    case FuncEnds(c, blocked) =>
      if blocked && WaitsFor(s, c) then Added(s.targets[In(s, Carried(c))[0]].fd) else FuncDone
    case FuncReturns(_) => Loop
  }

  function Apply(s: State, e: Effect): State
    requires Fits(s, e)
  {
    var l := In(s, e.p);
    match e
    case Takes(p, i, q, j) => Put(Put(s, p, Without(l, i)), q, With(In(s, q), j, l[i]))
    case Publishes(p, i, q, j) => Put(s, q, With(In(s, q), j, l[i]))
    case Drops(p, i) => Put(s, p, Without(l, i))
  }

  function Step(s: State, turn: Turn): State
    requires Enabled(s, turn)
  {
    if turn.Spawn? then Born(s)
    else
      var s1 := Apply(s, EffectOf(s, turn));
      s1.(pcs := s.pcs[turn.c := Then(s, turn)], targets := Targets(s, turn), live := Alive(s, turn))
  }

  function Born(s: State): State {
    Put(s, Ready, In(s, Ready) + [s.made]).(live := s.live + {s.made}, made := s.made + 1)
  }

  function Alive(s: State, turn: Turn): set<Task>
    requires Enabled(s, turn)
  {
    if turn.Ends? then s.live - {In(s, OnCore(turn.c))[0]} else s.live
  }

  /** A queued function is told what to do with the handle when it is made. */
  function Targets(s: State, turn: Turn): map<Task, Target>
    requires Enabled(s, turn)
  {
    match turn
    case FileCalls(c, fd) => s.targets[In(s, OnCore(c))[0] := Wait(fd)]
    case CrossCalls(c, _) => s.targets[In(s, OnCore(c))[0] := Back]
    case _ => s.targets
  }

  // ----- stale entries -----

  /** The stale entry of a place: one whose handle has been published and that is yet to be dropped; or -1. */
  function StaleAt(s: State, p: Place): int {
    match p
    case OnCore(c) => if Is(s, c, Leaving) then 0 else -1
    case InHand(c) => if Is(s, c, Unlocked) then 0 else -1
    case Carried(c) => if c < |s.pcs| && AfterFunc(s.pcs[c]) then 0 else -1
    case TimerList(c) => if c < |s.pcs| && s.pcs[c].Erasing? && s.pcs[c].p == p then s.pcs[c].i else -1
    case FileList(fd) =>
      if fd in s.owner && s.owner[fd] < |s.pcs| && s.pcs[s.owner[fd]].Erasing? && s.pcs[s.owner[fd]].p == p
      then s.pcs[s.owner[fd]].i else -1
    case _ => -1
  }

  /** The thread is in a queued function that has published its handle. */
  predicate AfterFunc(pc: PC) {
    pc.Added? || pc == FuncDone || (pc.Erasing? && pc.inFunc)
  }

  /** The entries of a place that are not stale. */
  function Live(s: State, p: Place): seq<Task> {
    if 0 <= StaleAt(s, p) < |In(s, p)| then Without(In(s, p), StaleAt(s, p)) else In(s, p)
  }

  lemma NoneStale(s: State, p: Place)
    requires StaleAt(s, p) == -1
    ensures Live(s, p) == In(s, p)
  {
  }

  lemma AloneStale(s: State, p: Place)
    requires StaleAt(s, p) == 0 && |In(s, p)| == 1
    ensures Live(s, p) == []
  {
  }

  // ----- the invariant -----

  /** Where a task's handle is, among the entries that are not stale. */
  datatype Spot = Spot(p: Place, i: nat)

  /** The handles in each place. */
  type View = Place -> seq<Task>

  function LiveView(s: State): View {
    (p: Place) => Live(s, p)
  }

  predicate Holds(v: View, x: Spot, t: Task) {
    x.i < |v(x.p)| && v(x.p)[x.i] == t
  }

  /** No handle is in two places, nor twice in one. */
  ghost predicate Once(v: View) {
    forall x: Spot, y: Spot :: x.i < |v(x.p)| && y.i < |v(y.p)| && v(x.p)[x.i] == v(y.p)[y.i] ==> x == y
  }

  /** Every live task's handle is somewhere, and no other is. */
  ghost predicate Placed(v: View, live: set<Task>, made: Task) {
    && (forall x: Spot :: x.i < |v(x.p)| ==> v(x.p)[x.i] in live)
    && (forall t :: t in live ==> t < made && exists x: Spot :: Holds(v, x, t))
  }

  predicate HasCoroutine(pc: PC) {
    pc == Running || pc == Leaving || pc == Unlocking || pc == Unlocked
  }

  /** What a thread's place in the code says about the entries it works on. */
  predicate Local(s: State, c: nat) {
    var pc := if c < |s.pcs| then s.pcs[c] else Loop;
    && |In(s, OnCore(c))| == (if HasCoroutine(pc) then 1 else 0)
    && |In(s, InHand(c))| == (if pc == Unlocking || pc == Unlocked then 1 else 0)
    && |In(s, Carried(c))| == (if pc == InFunc || AfterFunc(pc) then 1 else 0)
    && (pc.Erasing? ==> pc.i < |In(s, pc.p)| && Watches(s, c, pc.p) && (pc.inFunc ==> pc.p.FileList?))
    && (pc.Added? ==> Owns(s, c, pc.fd))
  }

  /** Only core c's thread wakes from this list. */
  predicate Watches(s: State, c: nat, p: Place) {
    p == TimerList(c) || (p.FileList? && Owns(s, c, p.fd))
  }

  /** A function for a file descriptor is queued on, and run by, the descriptor's own core. */
  predicate Aimed(s: State, t: Task, c: nat) {
    t in s.targets && s.targets[t].Wait? ==> Owns(s, c, s.targets[t].fd)
  }

  ghost predicate AllAimed(s: State) {
    && (forall c, k :: 0 <= k < |In(s, FuncQueue(c))| ==> Aimed(s, In(s, FuncQueue(c))[k], c))
    && (forall c :: Is(s, c, InFunc) && In(s, Carried(c)) != [] ==> Aimed(s, In(s, Carried(c))[0], c))
  }

  ghost predicate Inv(s: State) {
    && Once(LiveView(s)) && Placed(LiveView(s), s.live, s.made)
    && AllAimed(s) && (forall c :: Local(s, c))
  }

  // ----- what a step does to the entries that are not stale -----

  /** From v to v' the i-th handle of p moves to position j of q. */
  ghost predicate Moved(v: View, v': View, p: Place, i: nat, q: Place, j: nat) {
    && p != q && i < |v(p)| && j <= |v(q)|
    && forall x :: v'(x) == MovedAt(v, p, i, q, j, x)
  }

  function MovedAt(v: View, p: Place, i: nat, q: Place, j: nat, x: Place): seq<Task>
    requires i < |v(p)| && j <= |v(q)|
  {
    if x == p then Without(v(p), i) else if x == q then With(v(q), j, v(p)[i]) else v(x)
  }

  ghost predicate Kept(v: View, v': View) {
    forall x :: v'(x) == v(x)
  }

  /** The first handle of p goes. */
  ghost predicate Gone(v: View, v': View, p: Place) {
    v(p) != [] && forall x :: v'(x) == if x == p then v(p)[1..] else v(x)
  }

  lemma SameLive(s: State, s': State, x: Place)
    requires In(s', x) == In(s, x) && StaleAt(s', x) == StaleAt(s, x)
    ensures Live(s', x) == Live(s, x)
  {
  }

  lemma TakesMoves(s: State, e: Effect, s': State)
    requires Fits(s, e) && e.Takes? && s'.at == Apply(s, e).at
    requires forall x :: StaleAt(s', x) == StaleAt(s, x)
    requires StaleAt(s, e.p) == StaleAt(s, e.q) == -1
    ensures Moved(LiveView(s), LiveView(s'), e.p, e.i, e.q, e.j)
  {
    NoneStale(s, e.p);
    NoneStale(s, e.q);
    forall x ensures Live(s', x) == MovedAt(LiveView(s), e.p, e.i, e.q, e.j, x) {
      if x == e.p || x == e.q {
        NoneStale(s', x);
      } else {
        SameLive(s, s', x);
      }
    }
  }

  lemma PublishesMoves(s: State, e: Effect, s': State)
    requires Fits(s, e) && e.Publishes? && s'.at == Apply(s, e).at
    requires forall x :: x != e.p ==> StaleAt(s', x) == StaleAt(s, x)
    requires StaleAt(s, e.p) == StaleAt(s, e.q) == -1 && StaleAt(s', e.p) == e.i
    ensures Moved(LiveView(s), LiveView(s'), e.p, e.i, e.q, e.j)
  {
    NoneStale(s, e.p);
    NoneStale(s, e.q);
    forall x ensures Live(s', x) == MovedAt(LiveView(s), e.p, e.i, e.q, e.j, x) {
      if x == e.p {
        assert In(s', x) == In(s, x);
      } else if x == e.q {
        NoneStale(s', x);
      } else {
        SameLive(s, s', x);
      }
    }
  }

  lemma DropsKeep(s: State, e: Effect, s': State)
    requires Fits(s, e) && e.Drops? && s'.at == Apply(s, e).at
    requires forall x :: x != e.p ==> StaleAt(s', x) == StaleAt(s, x)
    requires StaleAt(s, e.p) == e.i && StaleAt(s', e.p) == -1
    ensures Kept(LiveView(s), LiveView(s'))
  {
    forall x ensures Live(s', x) == Live(s, x) {
      if x == e.p {
        NoneStale(s', x);
      } else {
        SameLive(s, s', x);
      }
    }
  }

  /** The await_suspends that publish the running coroutine's handle. */
  predicate Suspends(turn: Turn) {
    turn.Sleep? || turn.FileWaits? || turn.FileCalls? || turn.CrossCalls? || turn.LockWaits?
  }

  /** A handle is taken or published only from an entry that is not stale, and only a stale one is dropped. */
  ghost predicate FromLive(s: State, turn: Turn)
    requires Enabled(s, turn) && !turn.Spawn?
  {
    var e := EffectOf(s, turn);
    if e.Drops? then StaleAt(s, e.p) == if turn.Ends? then -1 else e.i
    else StaleAt(s, e.p) == StaleAt(s, e.q) == -1
  }

  lemma SuspendFromLive(s: State, turn: Turn)
    requires Enabled(s, turn) && Suspends(turn)
    ensures FromLive(s, turn)
  {
  }

  lemma FuncFromLive(s: State, turn: Turn)
    requires Enabled(s, turn) && turn.FuncEnds? && AllAimed(s)
    ensures FromLive(s, turn)
  {
    assert Aimed(s, In(s, Carried(turn.c))[0], turn.c);
  }

  lemma OtherFromLive(s: State, turn: Turn)
    requires Enabled(s, turn) && !turn.Spawn? && !Suspends(turn) && !turn.FuncEnds? && Local(s, turn.c)
    ensures FromLive(s, turn)
  {
  }

  lemma TouchesLive(s: State, turn: Turn)
    requires Enabled(s, turn) && !turn.Spawn? && AllAimed(s) && Local(s, turn.c)
    ensures FromLive(s, turn)
  {
    if Suspends(turn) {
      SuspendFromLive(s, turn);
    } else if turn.FuncEnds? {
      FuncFromLive(s, turn);
    } else {
      OtherFromLive(s, turn);
    }
  }

  /** Only the acting thread's place changes, and with it what is stale. */
  ghost predicate StaleChanges(s: State, turn: Turn)
    requires Enabled(s, turn) && !turn.Spawn?
  {
    var e, s' := EffectOf(s, turn), Step(s, turn);
    && (forall x :: x != e.p ==> StaleAt(s', x) == StaleAt(s, x))
    && StaleAt(s', e.p) == if e.Publishes? then e.i else -1
  }

  /** A change of one thread's place matters to the places that it works on only. */
  lemma StaleElsewhere(s: State, s': State, c: nat, x: Place)
    requires c < |s.pcs| == |s'.pcs| && s'.pcs == s.pcs[c := s'.pcs[c]] && s'.owner == s.owner
    requires s.pcs[c].Erasing? && s.pcs[c].p == x ==> s'.pcs[c] == s.pcs[c]
    requires s'.pcs[c].Erasing? && s'.pcs[c].p == x ==> s'.pcs[c] == s.pcs[c]
    requires x == OnCore(c) ==> (s.pcs[c] == Leaving <==> s'.pcs[c] == Leaving)
    requires x == InHand(c) ==> (s.pcs[c] == Unlocked <==> s'.pcs[c] == Unlocked)
    requires x == Carried(c) ==> (AfterFunc(s.pcs[c]) <==> AfterFunc(s'.pcs[c]))
    ensures StaleAt(s', x) == StaleAt(s, x)
  {
  }

  lemma StaleHere(s: State, turn: Turn)
    requires Enabled(s, turn) && !turn.Spawn? && Local(s, turn.c)
    ensures var e := EffectOf(s, turn); StaleAt(Step(s, turn), e.p) == if e.Publishes? then e.i else -1
  {
  }

  lemma StaleAfter(s: State, turn: Turn)
    requires Enabled(s, turn) && !turn.Spawn? && Local(s, turn.c)
    ensures StaleChanges(s, turn)
  {
    StaleHere(s, turn);
    forall x | x != EffectOf(s, turn).p
      ensures StaleAt(Step(s, turn), x) == StaleAt(s, x)
    {
      StaleElsewhere(s, Step(s, turn), turn.c, x);
    }
  }

  /** Seen without the stale entries, a step moves one handle from place to place, or ends a task, or does nothing. */
  ghost predicate LiveChange(s: State, turn: Turn, s': State)
    requires Enabled(s, turn) && !turn.Spawn?
  {
    var e := EffectOf(s, turn);
    if turn.Ends? then Gone(LiveView(s), LiveView(s'), OnCore(turn.c))
    else if e.Drops? then Kept(LiveView(s), LiveView(s'))
    else Moved(LiveView(s), LiveView(s'), e.p, e.i, e.q, e.j)
  }

  lemma StepMoves(s: State, turn: Turn)
    requires Enabled(s, turn) && !turn.Spawn? && AllAimed(s) && Local(s, turn.c)
    ensures LiveChange(s, turn, Step(s, turn))
  {
    var e, s' := EffectOf(s, turn), Step(s, turn);
    TouchesLive(s, turn);
    StaleAfter(s, turn);
    if turn.Ends? {
      assert e == Drops(OnCore(turn.c), 0);
      EndsGone(s, turn.c, s');
    } else if e.Takes? {
      TakesMoves(s, e, s');
    } else if e.Publishes? {
      PublishesMoves(s, e, s');
    } else {
      DropsKeep(s, e, s');
    }
  }

  lemma EndsGone(s: State, c: nat, s': State)
    requires In(s, OnCore(c)) != [] && s'.at == Apply(s, Drops(OnCore(c), 0)).at
    requires forall x :: StaleAt(s', x) == StaleAt(s, x)
    requires StaleAt(s, OnCore(c)) == -1
    ensures Gone(LiveView(s), LiveView(s'), OnCore(c))
  {
    NoneStale(s, OnCore(c));
    forall x ensures Live(s', x) == if x == OnCore(c) then Live(s, x)[1..] else Live(s, x) {
      if x == OnCore(c) {
        NoneStale(s', x);
      } else {
        SameLive(s, s', x);
      }
    }
  }

  // ----- one place for each handle -----

  /** Where the handle at x was before the move. */
  function Origin(p: Place, i: nat, q: Place, j: nat, x: Spot): Spot {
    if x.p == p then Spot(p, if x.i < i then x.i else x.i + 1)
    else if x.p == q then (if x.i < j then x else if x.i == j then Spot(p, i) else Spot(q, x.i - 1))
    else x
  }

  lemma MoveOrigin(v: View, v': View, p: Place, i: nat, q: Place, j: nat, x: Spot)
    requires Moved(v, v', p, i, q, j) && x.i < |v'(x.p)|
    ensures var o := Origin(p, i, q, j, x);
      o.i < |v(o.p)| && v(o.p)[o.i] == v'(x.p)[x.i]
  {
    assert v'(x.p) == MovedAt(v, p, i, q, j, x.p);
  }

  /** Two handles after a move were two before it. */
  lemma OriginInjective(p: Place, i: nat, q: Place, j: nat, x: Spot, y: Spot)
    requires p != q && Origin(p, i, q, j, x) == Origin(p, i, q, j, y)
    ensures x == y
  {
  }

  /** Where the handle at o is after the move. */
  function Goal(p: Place, i: nat, q: Place, j: nat, o: Spot): Spot {
    if o.p == p then (if o.i < i then o else if o.i == i then Spot(q, j) else Spot(p, o.i - 1))
    else if o.p == q then Spot(q, if o.i < j then o.i else o.i + 1)
    else o
  }

  lemma MoveGoal(v: View, v': View, p: Place, i: nat, q: Place, j: nat, o: Spot)
    requires Moved(v, v', p, i, q, j) && o.i < |v(o.p)|
    ensures Holds(v', Goal(p, i, q, j, o), v(o.p)[o.i])
  {
    var x := Goal(p, i, q, j, o).p;
    assert v'(x) == MovedAt(v, p, i, q, j, x);
  }

  lemma MoveOnce(v: View, v': View, p: Place, i: nat, q: Place, j: nat)
    requires Once(v) && Moved(v, v', p, i, q, j)
    ensures Once(v')
  {
    forall x: Spot, y: Spot | x.i < |v'(x.p)| && y.i < |v'(y.p)| && v'(x.p)[x.i] == v'(y.p)[y.i]
      ensures x == y
    {
      MoveOrigin(v, v', p, i, q, j, x);
      MoveOrigin(v, v', p, i, q, j, y);
      OriginInjective(p, i, q, j, x, y);
    }
  }

  lemma MovePlaced(v: View, v': View, live: set<Task>, made: Task, p: Place, i: nat, q: Place, j: nat)
    requires Placed(v, live, made) && Moved(v, v', p, i, q, j)
    ensures Placed(v', live, made)
  {
    forall x: Spot | x.i < |v'(x.p)|
      ensures v'(x.p)[x.i] in live
    {
      MoveOrigin(v, v', p, i, q, j, x);
    }
    forall t | t in live
      ensures exists x: Spot :: Holds(v', x, t)
    {
      var o: Spot :| Holds(v, o, t);
      MoveGoal(v, v', p, i, q, j, o);
    }
  }

  lemma KeptPlaced(v: View, v': View, live: set<Task>, made: Task)
    requires Once(v) && Placed(v, live, made) && Kept(v, v')
    ensures Once(v') && Placed(v', live, made)
  {
    forall t | t in live
      ensures exists x: Spot :: Holds(v', x, t)
    {
      var o: Spot :| Holds(v, o, t);
      assert Holds(v', o, t);
    }
  }

  /** Where the handle at x was before the first of p went. */
  function Behind(p: Place, x: Spot): Spot {
    if x.p == p then Spot(p, x.i + 1) else x
  }

  lemma GoneOrigin(v: View, v': View, p: Place, x: Spot)
    requires Gone(v, v', p) && x.i < |v'(x.p)|
    ensures var o := Behind(p, x); o.i < |v(o.p)| && v'(x.p)[x.i] == v(o.p)[o.i]
  {
    assert v'(x.p) == if x.p == p then v(p)[1..] else v(x.p);
  }

  lemma GoneOnce(v: View, v': View, p: Place)
    requires Once(v) && Gone(v, v', p)
    ensures Once(v')
  {
    forall x: Spot, y: Spot | x.i < |v'(x.p)| && y.i < |v'(y.p)| && v'(x.p)[x.i] == v'(y.p)[y.i]
      ensures x == y
    {
      GoneOrigin(v, v', p, x);
      GoneOrigin(v, v', p, y);
      assert Behind(p, x) == Behind(p, y);
    }
  }

  lemma GonePlaced(v: View, v': View, live: set<Task>, made: Task, p: Place)
    requires Once(v) && Placed(v, live, made) && Gone(v, v', p)
    ensures Placed(v', live - {v(p)[0]}, made)
  {
    forall x: Spot | x.i < |v'(x.p)|
      ensures v'(x.p)[x.i] in live - {v(p)[0]}
    {
      GoneOrigin(v, v', p, x);
      assert Behind(p, x) != Spot(p, 0);
    }
    forall t | t in live - {v(p)[0]}
      ensures exists x: Spot :: Holds(v', x, t)
    {
      var o: Spot :| Holds(v, o, t);
      assert o != Spot(p, 0);
      assert v'(o.p) == if o.p == p then v(p)[1..] else v(o.p);
      assert Holds(v', if o.p == p then Spot(p, o.i - 1) else o, t);
    }
  }

  /** A new handle t joins the ready queue. */
  ghost predicate Joined(v: View, v': View, t: Task) {
    forall x :: v'(x) == if x == Ready then v(Ready) + [t] else v(x)
  }

  lemma BornJoins(s: State)
    ensures Joined(LiveView(s), LiveView(Born(s)), s.made)
  {
    forall x ensures Live(Born(s), x) == if x == Ready then Live(s, Ready) + [s.made] else Live(s, x) {
      BornLive(s, x);
    }
  }

  lemma BornLive(s: State, x: Place)
    ensures Live(Born(s), x) == if x == Ready then Live(s, Ready) + [s.made] else Live(s, x)
  {
    assert StaleAt(Born(s), x) == StaleAt(s, x);
    assert In(Born(s), x) == if x == Ready then In(s, Ready) + [s.made] else In(s, x);
  }

  lemma JoinOnce(v: View, v': View, live: set<Task>, made: Task)
    requires Once(v) && Placed(v, live, made) && Joined(v, v', made)
    ensures Once(v')
  {
    forall x: Spot | x.i < |v'(x.p)|
      ensures if x == Spot(Ready, |v(Ready)|) then v'(x.p)[x.i] == made
        else x.i < |v(x.p)| && v'(x.p)[x.i] == v(x.p)[x.i] && v(x.p)[x.i] in live
    {
    }
    assert made !in live;
  }

  lemma JoinPlaced(v: View, v': View, live: set<Task>, made: Task)
    requires Placed(v, live, made) && Joined(v, v', made)
    ensures Placed(v', live + {made}, made + 1)
  {
    forall t | t in live + {made}
      ensures exists x: Spot :: Holds(v', x, t)
    {
      if t in live {
        var o: Spot :| Holds(v, o, t);
        assert Holds(v', o, t);
      } else {
        assert Holds(v', Spot(Ready, |v(Ready)|), t);
      }
    }
  }

  // ----- what each thread works on -----

  /** A place that a step does not touch is as it was. */
  lemma InElsewhere(s: State, turn: Turn, x: Place)
    requires Enabled(s, turn) && !turn.Spawn?
    requires x != EffectOf(s, turn).p && (EffectOf(s, turn).Drops? || x != EffectOf(s, turn).q)
    ensures In(Step(s, turn), x) == In(s, x)
  {
  }

  /** A core's own places and lists are touched by its own thread alone. */
  predicate Private(s: State, c: nat, x: Place) {
    x == OnCore(c) || x == InHand(c) || x == Carried(c) || Watches(s, c, x)
  }

  lemma OthersKeepOut(s: State, turn: Turn, d: nat, x: Place)
    requires Enabled(s, turn) && !turn.Spawn? && AllAimed(s) && Local(s, turn.c) && d != turn.c && Private(s, d, x)
    ensures x != EffectOf(s, turn).p && (EffectOf(s, turn).Drops? || x != EffectOf(s, turn).q)
  {
    if turn.FuncEnds? {
      assert Aimed(s, In(s, Carried(turn.c))[0], turn.c);
    } else if Suspends(turn) {
      SuspendKeepsOut(s, turn, d, x);
    }
  }

  lemma SuspendKeepsOut(s: State, turn: Turn, d: nat, x: Place)
    requires Enabled(s, turn) && Suspends(turn) && d != turn.c && Private(s, d, x)
    ensures x != EffectOf(s, turn).p && x != EffectOf(s, turn).q
  {
  }

  lemma LocalElsewhere(s: State, turn: Turn, d: nat)
    requires Enabled(s, turn) && !turn.Spawn? && AllAimed(s) && Local(s, turn.c) && d != turn.c && Local(s, d)
    ensures Local(Step(s, turn), d)
  {
    forall x | Private(s, d, x)
      ensures In(Step(s, turn), x) == In(s, x)
    {
      OthersKeepOut(s, turn, d, x);
      InElsewhere(s, turn, x);
    }
  }

  lemma SuspendKeepsLocal(s: State, turn: Turn)
    requires Enabled(s, turn) && Suspends(turn) && Local(s, turn.c)
    ensures Local(Step(s, turn), turn.c)
  {
  }

  lemma FuncEndKeepsLocal(s: State, c: nat, blocked: bool)
    requires Enabled(s, FuncEnds(c, blocked)) && Local(s, c) && AllAimed(s)
    ensures Local(Step(s, FuncEnds(c, blocked)), c)
  {
    assert Aimed(s, In(s, Carried(c))[0], c);
  }

  lemma FuncKeepsLocal(s: State, turn: Turn)
    requires Enabled(s, turn) && (turn.RunsFunc? || turn.FuncReturns?) && Local(s, turn.c)
    ensures Local(Step(s, turn), turn.c)
  {
  }

  lemma WakeKeepsLocal(s: State, turn: Turn)
    requires Enabled(s, turn) && (turn.TimerWakes? || turn.FileWakes? || turn.Erases?) && Local(s, turn.c)
    ensures Local(Step(s, turn), turn.c)
  {
  }

  lemma UnlockKeepsLocal(s: State, turn: Turn)
    requires (turn.UnlockTakes? || turn.UnlockWakes? || turn.UnlockReturns?) && Enabled(s, turn) && Local(s, turn.c)
    ensures Local(Step(s, turn), turn.c)
  {
  }

  lemma RestKeepsLocal(s: State, turn: Turn)
    requires turn.Schedule? || turn.Returns? || turn.Ends?
    requires Enabled(s, turn) && Local(s, turn.c)
    ensures Local(Step(s, turn), turn.c)
  {
  }

  lemma LocalsKept(s: State, turn: Turn, d: nat)
    requires Enabled(s, turn) && !turn.Spawn? && AllAimed(s) && forall c :: Local(s, c)
    ensures Local(Step(s, turn), d)
  {
    assert Local(s, turn.c) && Local(s, d);
    if d != turn.c {
      LocalElsewhere(s, turn, d);
    } else if Suspends(turn) {
      SuspendKeepsLocal(s, turn);
    } else if turn.FuncEnds? {
      FuncEndKeepsLocal(s, turn.c, turn.blocked);
    } else if turn.RunsFunc? || turn.FuncReturns? {
      FuncKeepsLocal(s, turn);
    } else if turn.TimerWakes? || turn.FileWakes? || turn.Erases? {
      WakeKeepsLocal(s, turn);
    } else if turn.UnlockTakes? || turn.UnlockWakes? || turn.UnlockReturns? {
      UnlockKeepsLocal(s, turn);
    } else {
      RestKeepsLocal(s, turn);
    }
  }

  // ----- what the queued functions are for -----

  predicate Calls(turn: Turn) {
    turn.FileCalls? || turn.CrossCalls?
  }

  /** Most steps leave the functions that have yet to act as they are, or end one. */
  lemma QuietKeepsAimed(s: State, turn: Turn)
    requires Enabled(s, turn) && !turn.Spawn? && !Calls(turn) && !turn.RunsFunc? && AllAimed(s) && Local(s, turn.c)
    ensures AllAimed(Step(s, turn))
  {
    var s' := Step(s, turn);
    forall c
      ensures In(s', FuncQueue(c)) == In(s, FuncQueue(c))
    {
      InElsewhere(s, turn, FuncQueue(c));
    }
    forall c | Is(s', c, InFunc)
      ensures Is(s, c, InFunc) && In(s', Carried(c)) == In(s, Carried(c))
    {
      assert c != turn.c;
      OthersKeepOut(s, turn, c, Carried(c));
      InElsewhere(s, turn, Carried(c));
    }
  }

  lemma RunsKeepsAimed(s: State, c: nat)
    requires Enabled(s, RunsFunc(c)) && AllAimed(s) && Local(s, c)
    ensures AllAimed(Step(s, RunsFunc(c)))
  {
    var s' := Step(s, RunsFunc(c));
    assert In(s', FuncQueue(c)) == In(s, FuncQueue(c))[1..];
    assert In(s', Carried(c)) == [In(s, FuncQueue(c))[0]];
    forall d | d != c
      ensures In(s', FuncQueue(d)) == In(s, FuncQueue(d)) && In(s', Carried(d)) == In(s, Carried(d))
    {
      InElsewhere(s, RunsFunc(c), FuncQueue(d));
      InElsewhere(s, RunsFunc(c), Carried(d));
    }
  }

  /** The running coroutine is in no function that has yet to act. */
  lemma RunningNotQueued(s: State, c: nat, d: nat, k: nat)
    requires Once(LiveView(s)) && Is(s, c, Running) && In(s, OnCore(c)) != [] && k < |In(s, FuncQueue(d))|
    ensures In(s, FuncQueue(d))[k] != In(s, OnCore(c))[0]
  {
    NoneStale(s, OnCore(c));
    NoneStale(s, FuncQueue(d));
    TwoTasks(LiveView(s), Spot(FuncQueue(d), k), Spot(OnCore(c), 0));
  }

  lemma RunningNotCarried(s: State, c: nat, d: nat)
    requires Once(LiveView(s)) && Is(s, c, Running) && In(s, OnCore(c)) != []
    requires Is(s, d, InFunc) && In(s, Carried(d)) != []
    ensures In(s, Carried(d))[0] != In(s, OnCore(c))[0]
  {
    NoneStale(s, OnCore(c));
    NoneStale(s, Carried(d));
    TwoTasks(LiveView(s), Spot(Carried(d), 0), Spot(OnCore(c), 0));
  }

  lemma TwoTasks(v: View, x: Spot, y: Spot)
    requires Once(v) && x.i < |v(x.p)| && y.i < |v(y.p)| && x != y
    ensures v(x.p)[x.i] != v(y.p)[y.i]
  {
  }

  lemma CallsKeepAimed(s: State, turn: Turn)
    requires Enabled(s, turn) && Calls(turn) && Once(LiveView(s)) && AllAimed(s)
    ensures AllAimed(Step(s, turn))
  {
    var s', c := Step(s, turn), turn.c;
    var t, q := In(s, OnCore(c))[0], EffectOf(s, turn).q;
    assert In(s', q) == In(s, q) + [t];
    forall d
      ensures q != FuncQueue(d) ==> In(s', FuncQueue(d)) == In(s, FuncQueue(d))
      ensures In(s', Carried(d)) == In(s, Carried(d)) && (Is(s', d, InFunc) ==> Is(s, d, InFunc))
    {
      InElsewhere(s, turn, Carried(d));
      if q != FuncQueue(d) {
        InElsewhere(s, turn, FuncQueue(d));
      }
    }
    assert s'.targets == s.targets[t := if turn.FileCalls? then Wait(turn.fd) else Back];
    forall d, k | 0 <= k < |In(s', FuncQueue(d))|
      ensures Aimed(s', In(s', FuncQueue(d))[k], d)
    {
      if k < |In(s, FuncQueue(d))| {
        RunningNotQueued(s, c, d, k);
        assert Aimed(s, In(s, FuncQueue(d))[k], d);
      }
    }
    forall d | Is(s', d, InFunc) && In(s', Carried(d)) != []
      ensures Aimed(s', In(s', Carried(d))[0], d)
    {
      RunningNotCarried(s, c, d);
    }
  }

  // ----- every step keeps the invariant -----

  lemma BornElsewhere(s: State, x: Place)
    requires x != Ready
    ensures In(Born(s), x) == In(s, x)
  {
  }

  lemma BornLocal(s: State, c: nat)
    requires Local(s, c)
    ensures Local(Born(s), c)
  {
    forall x | x != Ready
      ensures In(Born(s), x) == In(s, x)
    {
      BornElsewhere(s, x);
    }
  }

  lemma BornAimed(s: State)
    requires AllAimed(s)
    ensures AllAimed(Born(s))
  {
    forall c
      ensures In(Born(s), FuncQueue(c)) == In(s, FuncQueue(c)) && In(Born(s), Carried(c)) == In(s, Carried(c))
    {
      BornElsewhere(s, FuncQueue(c));
      BornElsewhere(s, Carried(c));
    }
  }

  lemma SpawnKeeps(s: State)
    requires Inv(s)
    ensures Inv(Born(s))
  {
    BornJoins(s);
    JoinOnce(LiveView(s), LiveView(Born(s)), s.live, s.made);
    JoinPlaced(LiveView(s), LiveView(Born(s)), s.live, s.made);
    BornAimed(s);
    forall c ensures Local(Born(s), c) {
      assert Local(s, c);
      BornLocal(s, c);
    }
  }

  lemma PlacesKept(s: State, turn: Turn)
    requires Enabled(s, turn) && !turn.Spawn? && AllAimed(s) && Local(s, turn.c)
    requires Once(LiveView(s)) && Placed(LiveView(s), s.live, s.made)
    ensures var s' := Step(s, turn); Once(LiveView(s')) && Placed(LiveView(s'), s'.live, s'.made)
  {
    var e, s' := EffectOf(s, turn), Step(s, turn);
    var v, v' := LiveView(s), LiveView(s');
    StepMoves(s, turn);
    if turn.Ends? {
      TouchesLive(s, turn);
      NoneStale(s, OnCore(turn.c));
      GoneOnce(v, v', OnCore(turn.c));
      GonePlaced(v, v', s.live, s.made, OnCore(turn.c));
    } else if e.Drops? {
      KeptPlaced(v, v', s.live, s.made);
    } else {
      MoveOnce(v, v', e.p, e.i, e.q, e.j);
      MovePlaced(v, v', s.live, s.made, e.p, e.i, e.q, e.j);
    }
  }

  lemma StepKeeps(s: State, turn: Turn)
    requires Inv(s) && Enabled(s, turn)
    ensures Inv(Step(s, turn))
  {
    if turn.Spawn? {
      SpawnKeeps(s);
    } else {
      assert Local(s, turn.c);
      PlacesKept(s, turn);
      if Calls(turn) {
        CallsKeepAimed(s, turn);
      } else if turn.RunsFunc? {
        RunsKeepsAimed(s, turn.c);
      } else {
        QuietKeepsAimed(s, turn);
      }
      forall d ensures Local(Step(s, turn), d) {
        LocalsKept(s, turn, d);
      }
    }
  }

  // ----- whole runs -----

  predicate Start(s: State) {
    && s.at == map[] && s.live == {} && s.targets == map[]
    && forall c :: 0 <= c < |s.pcs| ==> s.pcs[c] == Loop
  }

  predicate Turns(s: State, run: seq<Turn>)
    decreases |run|, 0
  {
    run == [] || (Turns(s, run[..|run| - 1]) && Enabled(After(s, run[..|run| - 1]), run[|run| - 1]))
  }

  function After(s: State, run: seq<Turn>): State
    requires Turns(s, run)
    decreases |run|, 1
  {
    if run == [] then s else Step(After(s, run[..|run| - 1]), run[|run| - 1])
  }

  lemma StartInv(s: State)
    requires Start(s)
    ensures Inv(s)
  {
    assert forall x: Place :: In(s, x) == [] && Live(s, x) == [];
  }

  lemma {:induction false} RunKeeps(s: State, run: seq<Turn>)
    requires Start(s) && Turns(s, run)
    ensures Inv(After(s, run))
  {
    if run == [] {
      StartInv(s);
    } else {
      RunKeeps(s, run[..|run| - 1]);
      StepKeeps(After(s, run[..|run| - 1]), run[|run| - 1]);
    }
  }

  /** In every reachable state a task is live if and only if exactly one entry that is not stale holds its handle. */
  lemma InExactlyOnePlace(s: State, run: seq<Turn>, t: Task)
    requires Start(s) && Turns(s, run)
    ensures t in After(s, run).live <==> exists x: Spot :: Holds(LiveView(After(s, run)), x, t)
    ensures forall x: Spot, y: Spot ::
      Holds(LiveView(After(s, run)), x, t) && Holds(LiveView(After(s, run)), y, t) ==> x == y
  {
    RunKeeps(s, run);
  }

  /**
   * A stale entry is never used again: whatever step its thread is at, it takes or publishes
   * a handle only from an entry that is not stale, and one that drops a stale entry leaves
   * every other as it is, so a coroutine already resumed elsewhere is not touched.
   */
  lemma StaleNeverUsed(s: State, run: seq<Turn>, turn: Turn)
    requires Start(s) && Turns(s, run) && Enabled(After(s, run), turn) && !turn.Spawn?
    ensures var now := After(s, run); var e := EffectOf(now, turn);
      && (!e.Drops? || turn.Ends? ==> StaleAt(now, e.p) != e.i)
      && (e.Drops? && !turn.Ends? ==> StaleAt(now, e.p) == e.i && Kept(LiveView(now), LiveView(Step(now, turn))))
  {
    RunKeeps(s, run);
    assert Local(After(s, run), turn.c);
    TouchesLive(After(s, run), turn);
    StepMoves(After(s, run), turn);
  }

  lemma OnOneCore(v: View, c: nat, d: nat, t: Task)
    requires Once(v) && t in v(OnCore(c)) && t in v(OnCore(d))
    ensures c == d
  {
    var i :| 0 <= i < |v(OnCore(c))| && v(OnCore(c))[i] == t;
    var j :| 0 <= j < |v(OnCore(d))| && v(OnCore(d))[j] == t;
    assert Spot(OnCore(c), i) == Spot(OnCore(d), j);
  }

  lemma OneThing(s: State, c: nat, t: Task)
    requires Local(s, c) && t in Live(s, OnCore(c))
    ensures Live(s, OnCore(c)) == [t] && Live(s, Carried(c)) == []
  {
    if Is(s, c, Leaving) {
      AloneStale(s, OnCore(c));
    } else {
      NoneStale(s, OnCore(c));
      NoneStale(s, Carried(c));
    }
  }

  /** No two cores run the same coroutine, and a core runs one thing at a time. */
  lemma NeverOnTwoCores(s: State, run: seq<Turn>, c: nat, d: nat, t: Task)
    requires Start(s) && Turns(s, run)
    ensures Runs(After(s, run), c, t) && Runs(After(s, run), d, t) ==> c == d
    ensures Runs(After(s, run), c, t) ==> Live(After(s, run), OnCore(c)) == [t] && Live(After(s, run), Carried(c)) == []
  {
    RunKeeps(s, run);
    var now := After(s, run);
    if Runs(now, c, t) {
      assert Local(now, c);
      OneThing(now, c, t);
      if Runs(now, d, t) {
        OnOneCore(LiveView(now), c, d, t);
      }
    }
  }

  predicate Runs(s: State, c: nat, t: Task) {
    t in Live(s, OnCore(c))
  }

  // ----- resumptions and wake-ups -----

  /** How often the run resumes t. */
  function Resumed(s: State, run: seq<Turn>, t: Task): nat
    requires Turns(s, run)
  {
    if run == [] then 0
    else
      var was, turn := After(s, run[..|run| - 1]), run[|run| - 1];
      Resumed(s, run[..|run| - 1], t) + if turn.Schedule? && In(was, Ready)[0] == t then 1 else 0
  }

  /** How often the run makes t ready: when it is created, and whenever something wakes it. */
  function Readied(s: State, run: seq<Turn>, t: Task): nat
    requires Turns(s, run)
  {
    if run == [] then 0
    else
      var was, turn := After(s, run[..|run| - 1]), run[|run| - 1];
      Readied(s, run[..|run| - 1], t) + if Readies(was, turn, t) then 1 else 0
  }

  predicate Readies(s: State, turn: Turn, t: Task)
    requires Enabled(s, turn)
  {
    if turn.Spawn? then t == s.made
    else
      var e := EffectOf(s, turn);
      !e.Drops? && e.q == Ready && In(s, e.p)[e.i] == t
  }

  /** A handle that is made ready is not in the ready queue already. */
  lemma ReadiesAbsent(s: State, turn: Turn, k: nat)
    requires Inv(s) && Enabled(s, turn) && k < |In(s, Ready)|
    ensures !Readies(s, turn, In(s, Ready)[k])
  {
    NoneStale(s, Ready);
    if turn.Spawn? {
      assert Live(s, Spot(Ready, k).p)[k] in s.live;
    } else {
      var e := EffectOf(s, turn);
      assert Local(s, turn.c);
      TouchesLive(s, turn);
      if !e.Drops? && e.q == Ready {
        NoneStale(s, e.p);
        TwoTasks(LiveView(s), Spot(Ready, k), Spot(e.p, e.i));
      }
    }
  }

  /** What a step does to the ready queue, for one task. */
  lemma ReadyChanges(s: State, turn: Turn, t: Task)
    requires Inv(s) && Enabled(s, turn)
    ensures Readies(s, turn, t) ==> t !in In(s, Ready)
    ensures turn.Schedule? ==> In(s, Ready)[0] !in In(Step(s, turn), Ready)
    ensures t in In(Step(s, turn), Ready) <==>
      Readies(s, turn, t) || (t in In(s, Ready) && !(turn.Schedule? && In(s, Ready)[0] == t))
  {
    var l, l' := In(s, Ready), In(Step(s, turn), Ready);
    forall k | 0 <= k < |l| ensures !Readies(s, turn, l[k]) {
      ReadiesAbsent(s, turn, k);
    }
    if turn.Schedule? {
      ReadyDistinct(s);
    }
    ReadyContents(s, turn);
  }

  lemma ReadyDistinct(s: State)
    requires Once(LiveView(s))
    ensures forall i, j :: 0 <= i < j < |In(s, Ready)| ==> In(s, Ready)[i] != In(s, Ready)[j]
  {
    NoneStale(s, Ready);
    forall i, j | 0 <= i < j < |In(s, Ready)|
      ensures In(s, Ready)[i] != In(s, Ready)[j]
    {
      TwoTasks(LiveView(s), Spot(Ready, i), Spot(Ready, j));
    }
  }

  lemma ReadyContents(s: State, turn: Turn)
    requires Enabled(s, turn) && (!turn.Spawn? ==> Local(s, turn.c))
    ensures var l, l' := In(s, Ready), In(Step(s, turn), Ready);
      if turn.Spawn? then l' == l + [s.made]
      else
        var e := EffectOf(s, turn);
        l' == if turn.Schedule? then l[1..] else if !e.Drops? && e.q == Ready then l + [In(s, e.p)[e.i]] else l
  {
    if !turn.Spawn? && !turn.Schedule? {
      var e := EffectOf(s, turn);
      assert e.p != Ready;
      if e.Drops? || e.q != Ready {
        InElsewhere(s, turn, Ready);
      }
    }
  }

  /**
   * Every resumption answers its own wake-up: a task has been made ready exactly once more
   * often than it was resumed while it is in the ready queue, and as often while it is not.
   */
  lemma {:induction false} ResumptionsMatchWakeUps(s: State, run: seq<Turn>, t: Task)
    requires Start(s) && Turns(s, run)
    ensures Readied(s, run, t) == Resumed(s, run, t) + if t in In(After(s, run), Ready) then 1 else 0
  {
    if run != [] {
      var before := run[..|run| - 1];
      ResumptionsMatchWakeUps(s, before, t);
      RunKeeps(s, before);
      ReadyChanges(After(s, before), run[|run| - 1], t);
    }
  }

  // ----- a handle resumed early -----

  /** Where two cores are, and what is ready, on each of them, queued on core 1 and in its function. */
  predicate Two(s: State, p: PC, q: PC, ready: seq<Task>,
                on0: seq<Task>, on1: seq<Task>, queue: seq<Task>, carried: seq<Task>) {
    && s.pcs == [p, q] && (0 in s.targets ==> s.targets[0] == Back)
    && In(s, Ready) == ready && In(s, OnCore(0)) == on0 && In(s, OnCore(1)) == on1
    && In(s, FuncQueue(1)) == queue && In(s, Carried(1)) == carried
  }

  lemma Early0(s: State)
    requires Two(s, Loop, Loop, [0], [], [], [], [])
    ensures Two(Step(s, Schedule(0)), Running, Loop, [], [0], [], [], [])
  {
  }

  lemma Early1(s: State)
    requires Two(s, Running, Loop, [], [0], [], [], [])
    ensures Two(Step(s, CrossCalls(0, 1)), Leaving, Loop, [], [0], [], [0], [])
  {
  }

  lemma Early2(s: State)
    requires Two(s, Leaving, Loop, [], [0], [], [0], [])
    ensures Two(Step(s, RunsFunc(1)), Leaving, InFunc, [], [0], [], [], [0])
  {
  }

  lemma Early3(s: State)
    requires Two(s, Leaving, InFunc, [], [0], [], [], [0])
    ensures Two(Step(s, FuncEnds(1, false)), Leaving, FuncDone, [0], [0], [], [], [0])
  {
  }

  lemma Early4(s: State)
    requires Two(s, Leaving, FuncDone, [0], [0], [], [], [0])
    ensures Two(Step(s, FuncReturns(1)), Leaving, Loop, [0], [0], [], [], [])
  {
  }

  lemma Early5(s: State)
    requires Two(s, Leaving, Loop, [0], [0], [], [], [])
    ensures Two(Step(s, Schedule(1)), Leaving, Running, [], [0], [0], [], [])
  {
  }

  /** The new task's first steps: it calls a function on core 1, which makes it ready and resumes it. */
  predicate Stage(s: State, k: nat) {
    match k
    case 0 => Two(s, Loop, Loop, [0], [], [], [], [])
    case 1 => Two(s, Running, Loop, [], [0], [], [], [])
    case 2 => Two(s, Leaving, Loop, [], [0], [], [0], [])
    case 3 => Two(s, Leaving, InFunc, [], [0], [], [], [0])
    case 4 => Two(s, Leaving, FuncDone, [0], [0], [], [], [0])
    case 5 => Two(s, Leaving, Loop, [0], [0], [], [], [])
    case 6 => Two(s, Leaving, Running, [], [0], [0], [], [])
    case _ => false
  }

  function StageTurn(k: nat): Turn {
    match k
    case 0 => Schedule(0)
    case 1 => CrossCalls(0, 1)
    case 2 => RunsFunc(1)
    case 3 => FuncEnds(1, false)
    case 4 => FuncReturns(1)
    case 5 => Schedule(1)
    case _ => Spawn
  }

  lemma StageStep(s: State, k: nat)
    requires Stage(s, k) && k < 6
    ensures Enabled(s, StageTurn(k)) && Stage(Step(s, StageTurn(k)), k + 1)
  {
    match k
    case 0 => Early0(s);
    case 1 => Early1(s);
    case 2 => Early2(s);
    case 3 => Early3(s);
    case 4 => Early4(s);
    case 5 => Early5(s);
  }

  lemma {:induction false} ReachStage(s: State, k: nat) returns (run: seq<Turn>)
    requires Start(s) && s.pcs == [Loop, Loop] && s.made == 0 && k <= 6
    ensures Turns(s, run) && Stage(After(s, run), k)
  {
    if k == 0 {
      run := [Spawn];
      assert run[..0] == [];
      assert After(s, run) == Born(s);
    } else {
      var before := ReachStage(s, k - 1);
      StageStep(After(s, before), k - 1);
      run := before + [StageTurn(k - 1)];
      assert run[..|before|] == before;
    }
  }

  lemma LastStage(s: State)
    requires Stage(s, 6)
    ensures In(s, OnCore(0)) == [0] && In(s, OnCore(1)) == [0]
    ensures Live(s, OnCore(0)) == [] && Live(s, OnCore(1)) == [0]
  {
    AloneStale(s, OnCore(0));
    NoneStale(s, OnCore(1));
  }

  /**
   * A coroutine may run on a core while another is still in the await_suspend that published
   * it: both cores' threads have the handle, but on the first one it is stale.
   */
  lemma ResumedEarly(s: State) returns (run: seq<Turn>)
    requires Start(s) && s.pcs == [Loop, Loop] && s.made == 0
    ensures Turns(s, run)
    ensures var now := After(s, run);
      && In(now, OnCore(0)) == [0] && In(now, OnCore(1)) == [0]
      && Live(now, OnCore(0)) == [] && Live(now, OnCore(1)) == [0]
  {
    run := ReachStage(s, 6);
    LastStage(After(s, run));
  }
}
