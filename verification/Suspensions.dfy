/**
 * What becomes of a suspended task, over the moves of all handles: which queues are first in,
 * first out, and that each kind of suspension ends by its own wake-up and by no other.
 */
module Suspensions {
  import opened Handles

  // ----- instants of a run -----

  lemma {:induction false} PrefixTurns(s: State, run: seq<Turn>, m: nat)
    requires Turns(s, run) && m <= |run|
    ensures Turns(s, run[..m])
  {
    if m < |run| {
      assert run[..|run| - 1][..m] == run[..m];
      PrefixTurns(s, run[..|run| - 1], m);
    } else {
      assert run[..m] == run;
    }
  }

  /** The state before turn m of a run that starts at s. */
  ghost function Now(s: State, run: seq<Turn>, m: nat): State
    requires Turns(s, run) && m <= |run|
  {
    PrefixTurns(s, run, m);
    After(s, run[..m])
  }

  lemma NowStep(s: State, run: seq<Turn>, m: nat)
    requires Start(s) && Turns(s, run) && m < |run|
    ensures Inv(Now(s, run, m)) && Enabled(Now(s, run, m), run[m])
    ensures Now(s, run, m + 1) == Step(Now(s, run, m), run[m])
  {
    PrefixTurns(s, run, m);
    PrefixTurns(s, run, m + 1);
    RunKeeps(s, run[..m]);
    assert run[..m + 1][..m] == run[..m];
  }

  // ----- first in, first out -----

  predicate IsQueue(p: Place) {
    p == Ready || p.FuncQueue? || p.MutexList?
  }

  /** The task that core c runs, the one that a lock waits with, and so on: the first of the place. */
  function First(s: State, p: Place): seq<Task> {
    if In(s, p) == [] then [] else [In(s, p)[0]]
  }

  /** The handles that a turn adds to queue p. */
  function Entering(s: State, turn: Turn, p: Place): seq<Task> {
    match turn
    case Spawn => if p == Ready then [s.made] else []
    case LockWaits(c, mu) => if p == MutexList(mu) then First(s, OnCore(c)) else []
    case CrossCalls(c, d) => if p == FuncQueue(d) then First(s, OnCore(c)) else []
    case FileCalls(c, fd) => if fd in s.owner && p == FuncQueue(s.owner[fd]) then First(s, OnCore(c)) else []
    case UnlockWakes(c) => if p == Ready then First(s, InHand(c)) else []
    case TimerWakes(c) => if p == Ready then First(s, TimerList(c)) else []
    case FileWakes(_, fd, i) => if p == Ready && i < |In(s, FileList(fd))| then [In(s, FileList(fd))[i]] else []
    case FuncEnds(c, blocked) =>
      if p == Ready && In(s, Carried(c)) != [] && !(blocked && WaitsFor(s, c)) then First(s, Carried(c)) else []
    case _ => []
  }

  /** The handles that a turn takes from queue p. */
  function Leaving(s: State, turn: Turn, p: Place): seq<Task> {
    match turn
    case Schedule(_) => if p == Ready then First(s, Ready) else []
    case RunsFunc(c) => if p == FuncQueue(c) then First(s, FuncQueue(c)) else []
    case UnlockTakes(_, mu) => if p == MutexList(mu) then First(s, MutexList(mu)) else []
    case _ => []
  }

  /** All that a run has added to a queue, in order. */
  function Entered(s: State, run: seq<Turn>, p: Place): seq<Task>
    requires Turns(s, run)
  {
    if run == [] then []
    else
      var before := run[..|run| - 1];
      Entered(s, before, p) + Entering(After(s, before), run[|run| - 1], p)
  }

  /** All that it has taken from it, in order. */
  function Left(s: State, run: seq<Turn>, p: Place): seq<Task>
    requires Turns(s, run)
  {
    if run == [] then []
    else
      var before := run[..|run| - 1];
      Left(s, before, p) + Leaving(After(s, before), run[|run| - 1], p)
  }

  lemma TurnOnQueue(s: State, turn: Turn, p: Place)
    requires Enabled(s, turn) && !turn.Spawn? && IsQueue(p) && Local(s, turn.c)
    ensures var e := EffectOf(s, turn);
      && (e.Takes? || e.p != p)
      && Leaving(s, turn, p) == (if e.Takes? && e.p == p then [In(s, p)[0]] else [])
      && (e.p == p ==> e.i == 0)
      && Entering(s, turn, p) == (if !e.Drops? && e.q == p then [In(s, e.p)[e.i]] else [])
      && (!e.Drops? && e.q == p ==> e.j == |In(s, p)|)
  {
  }

  lemma QueueStep(s: State, turn: Turn, p: Place)
    requires Enabled(s, turn) && IsQueue(p) && (turn.Spawn? || Local(s, turn.c))
    ensures Leaving(s, turn, p) + In(Step(s, turn), p) == In(s, p) + Entering(s, turn, p)
  {
    if turn.Spawn? {
      BornQueue(s, p);
    } else {
      TurnOnQueue(s, turn, p);
      QueueEffect(s, turn, p);
    }
  }

  lemma BornQueue(s: State, p: Place)
    ensures In(Born(s), p) == In(s, p) + if p == Ready then [s.made] else []
  {
  }

  lemma QueueEffect(s: State, turn: Turn, p: Place)
    requires Enabled(s, turn) && !turn.Spawn?
    requires var e := EffectOf(s, turn);
      (e.p == p ==> e.i == 0 && e.Takes?) && (!e.Drops? && e.q == p ==> e.j == |In(s, p)|)
    ensures var e := EffectOf(s, turn);
      (if e.Takes? && e.p == p then [In(s, p)[0]] else []) + In(Step(s, turn), p)
      == In(s, p) + (if !e.Drops? && e.q == p then [In(s, e.p)[e.i]] else [])
  {
    var e := EffectOf(s, turn);
    if e.p == p {
      assert [In(s, p)[0]] + Without(In(s, p), 0) == In(s, p);
    } else if !e.Drops? && e.q == p {
    } else {
      InElsewhere(s, turn, p);
    }
  }

  lemma Rejoin(left: seq<Task>, was: seq<Task>, leaving: seq<Task>, entering: seq<Task>, now: seq<Task>)
    requires leaving + now == was + entering
    ensures left + was + entering == left + leaving + now
  {
    assert left + was + entering == left + (was + entering);
    assert left + leaving + now == left + (leaving + now);
  }

  lemma EnteredNext(s: State, before: seq<Turn>, turn: Turn, p: Place)
    requires Turns(s, before + [turn])
    ensures Turns(s, before) && Enabled(After(s, before), turn)
    ensures After(s, before + [turn]) == Step(After(s, before), turn)
    ensures Entered(s, before + [turn], p) == Entered(s, before, p) + Entering(After(s, before), turn, p)
    ensures Left(s, before + [turn], p) == Left(s, before, p) + Leaving(After(s, before), turn, p)
  {
    assert (before + [turn])[..|before|] == before;
  }

  /**
   * The ready queue, each core's function queue and each mutex's queue are first in, first
   * out, and lose nothing: what a run has put in is what it has taken out, in the same order,
   * followed by what is there.
   */
  lemma {:induction false} QueuesAreFifo(s: State, run: seq<Turn>, p: Place)
    requires Start(s) && Turns(s, run) && IsQueue(p)
    ensures Entered(s, run, p) == Left(s, run, p) + In(After(s, run), p)
  {
    if run != [] {
      var before, turn := run[..|run| - 1], run[|run| - 1];
      assert run == before + [turn];
      EnteredNext(s, before, turn, p);
      QueuesAreFifo(s, before, p);
      var was := After(s, before);
      RunKeeps(s, before);
      QueueStep(was, turn, p);
      Rejoin(Left(s, before, p), In(was, p), Leaving(was, turn, p), Entering(was, turn, p), In(Step(was, turn), p));
    }
  }

  // ----- what a suspended task waits for -----

  datatype Wait =
    | OnTimer(core: nat)
    | OnFile(fd: int)
    | OnMutex(mu: nat)
    | OnCall(core: nat)                     // of a function that makes it ready
    | OnFileCall(core: nat, fd: int)        // of a function that does, or leaves it waiting for fd

  function WaitOf(s: State, turn: Turn): Wait
    requires Enabled(s, turn) && Suspends(turn)
  {
    match turn
    case Sleep(c, _) => OnTimer(c)
    case FileWaits(_, fd) => OnFile(fd)
    case LockWaits(_, mu) => OnMutex(mu)
    case CrossCalls(_, d) => OnCall(d)
    case FileCalls(_, fd) => OnFileCall(s.owner[fd], fd)
  }

  /** Where its handle is until it is woken. */
  predicate Keeps(w: Wait, p: Place) {
    match w
    case OnTimer(c) => p == TimerList(c)
    case OnFile(fd) => p == FileList(fd)
    case OnMutex(mu) => p == MutexList(mu) || p.InHand?
    case OnCall(d) => p == FuncQueue(d) || p == Carried(d)
    case OnFileCall(d, fd) => p == FuncQueue(d) || p == Carried(d) || p == FileList(fd)
  }

  /** The turn is the one that w waits for, and it is for task t. */
  predicate Wakes(s: State, turn: Turn, w: Wait, t: Task) {
    match w
    case OnTimer(c) => turn == TimerWakes(c) && First(s, TimerList(c)) == [t]
    case OnFile(fd) => FileWakesTask(s, turn, fd, t)
    case OnMutex(_) => turn.UnlockWakes? && In(s, InHand(turn.c)) == [t]
    case OnCall(d) => turn.FuncEnds? && turn.c == d && In(s, Carried(d)) == [t]
    case OnFileCall(d, fd) =>
      (turn == FuncEnds(d, false) && In(s, Carried(d)) == [t]) || FileWakesTask(s, turn, fd, t)
  }

  predicate FileWakesTask(s: State, turn: Turn, fd: int, t: Task) {
    turn.FileWakes? && turn.fd == fd && turn.i < |In(s, FileList(fd))| && In(s, FileList(fd))[turn.i] == t
  }

  /** The function that has been queued for t is told what w says. */
  predicate Told(s: State, w: Wait, t: Task) {
    match w
    case OnCall(_) => t in s.targets && s.targets[t] == Back
    case OnFileCall(_, fd) => t in s.targets && s.targets[t] == Handles.Wait(fd)
    case _ => true
  }

  predicate In1(s: State, p: Place, t: Task) {
    t in Live(s, p)
  }

  lemma MovedIn(v: View, v': View, p: Place, i: nat, q: Place, j: nat, x: Place, t: Task)
    requires Once(v) && Moved(v, v', p, i, q, j) && t in v(x)
    ensures if v(p)[i] == t then x == p && t in v'(q) else t in v'(x)
  {
    var k :| 0 <= k < |v(x)| && v(x)[k] == t;
    MoveGoal(v, v', p, i, q, j, Spot(x, k));
    if v(p)[i] == t && Spot(x, k) != Spot(p, i) {
      TwoTasks(v, Spot(x, k), Spot(p, i));
    }
  }

  /** A step moves t's live handle on, or leaves it where it is. */
  lemma LiveStep(s: State, turn: Turn, t: Task, p: Place)
    requires Inv(s) && Enabled(s, turn) && !turn.Spawn? && In1(s, p, t) && !p.OnCore?
    ensures var e, s' := EffectOf(s, turn), Step(s, turn);
      if !e.Drops? && In(s, e.p)[e.i] == t then p == e.p && In1(s', e.q, t) else In1(s', p, t)
  {
    var e, s' := EffectOf(s, turn), Step(s, turn);
    assert Local(s, turn.c);
    TouchesLive(s, turn);
    StepMoves(s, turn);
    if e.Drops? {
      StillThere(s, turn, s', p);
    } else {
      NoneStale(s, e.p);
      MovedIn(LiveView(s), LiveView(s'), e.p, e.i, e.q, e.j, p, t);
    }
  }

  lemma StillThere(s: State, turn: Turn, s': State, p: Place)
    requires Enabled(s, turn) && !turn.Spawn? && LiveChange(s, turn, s') && EffectOf(s, turn).Drops? && !p.OnCore?
    ensures Live(s', p) == Live(s, p)
  {
    assert LiveView(s')(p) == LiveView(s)(p);
  }

  /** The turns that move a handle on from a place, other than from a core. */
  lemma MoverOf(s: State, turn: Turn)
    requires Enabled(s, turn) && !turn.Spawn? && !EffectOf(s, turn).Drops?
    ensures var e := EffectOf(s, turn);
      match e.p
      case TimerList(c) => turn == TimerWakes(c) && e.i == 0 && e.q == Ready
      case FileList(fd) => turn.FileWakes? && turn.fd == fd && turn.i == e.i && e.q == Ready
      case MutexList(mu) => turn == UnlockTakes(turn.c, mu) && e.i == 0 && e.q == InHand(turn.c)
      case InHand(c) => turn == UnlockWakes(c) && e.i == 0 && e.q == Ready
      case FuncQueue(c) => turn == RunsFunc(c) && e.i == 0 && e.q == Carried(c)
      case Carried(c) =>
        turn.FuncEnds? && turn.c == c && e.i == 0
        && e.q == if turn.blocked && WaitsFor(s, c) then FileList(s.targets[In(s, Carried(c))[0]].fd) else Ready
      case _ => true
  {
  }

  /** What the function of a waiting task is told changes only with the task's next call. */
  lemma ToldKept(s: State, turn: Turn, w: Wait, t: Task, p: Place)
    requires Inv(s) && Enabled(s, turn) && Told(s, w, t) && In1(s, p, t) && !p.OnCore?
    ensures Told(Step(s, turn), w, t)
  {
    if Calls(turn) {
      NoneStale(s, OnCore(turn.c));
      var k :| 0 <= k < |Live(s, p)| && Live(s, p)[k] == t;
      TwoTasks(LiveView(s), Spot(p, k), Spot(OnCore(turn.c), 0));
    }
  }

  lemma MovedOn(s: State, turn: Turn, w: Wait, t: Task)
    requires Enabled(s, turn) && !turn.Spawn? && !EffectOf(s, turn).Drops? && Local(s, turn.c)
    requires Keeps(w, EffectOf(s, turn).p) && Told(s, w, t) && In(s, EffectOf(s, turn).p)[EffectOf(s, turn).i] == t
    ensures var q := EffectOf(s, turn).q;
      if Keeps(w, q) then !q.InHand? || TakenBy(s, turn, w, q, t) else q == Ready && Wakes(s, turn, w, t)
  {
    MoverOf(s, turn);
  }

  lemma PlaceStep(s: State, turn: Turn, w: Wait, t: Task, p: Place) returns (q: Place)
    requires Inv(s) && Enabled(s, turn) && !turn.Spawn? && Keeps(w, p) && In1(s, p, t) && Told(s, w, t)
    ensures In1(Step(s, turn), q, t)
    ensures Keeps(w, q) ==> q == p || !q.InHand? || TakenBy(s, turn, w, q, t)
    ensures !Keeps(w, q) ==> q == Ready && Wakes(s, turn, w, t)
  {
    LiveStep(s, turn, t, p);
    assert Local(s, turn.c);
    var e := EffectOf(s, turn);
    q := p;
    if !e.Drops? && In(s, e.p)[e.i] == t {
      MovedOn(s, turn, w, t);
      q := e.q;
    }
  }

  /** One turn: t waits on, has been taken by an unlocker, or is woken. */
  lemma WaitStep(s: State, turn: Turn, w: Wait, t: Task, p: Place) returns (q: Place)
    requires Inv(s) && Enabled(s, turn) && Keeps(w, p) && In1(s, p, t) && Told(s, w, t)
    ensures Told(Step(s, turn), w, t) && In1(Step(s, turn), q, t)
    ensures Keeps(w, q) ==> q == p || !q.InHand? || TakenBy(s, turn, w, q, t)
    ensures !Keeps(w, q) ==> q == Ready && Wakes(s, turn, w, t)
  {
    ToldKept(s, turn, w, t, p);
    if turn.Spawn? {
      q := p;
      BornLive(s, p);
    } else {
      q := PlaceStep(s, turn, w, t, p);
    }
  }

  /** An unlocker of w's mutex has just taken t, the first in the queue. */
  predicate TakenBy(s: State, turn: Turn, w: Wait, q: Place, t: Task) {
    w.OnMutex? && q.InHand? && turn == UnlockTakes(q.core, w.mu) && First(s, MutexList(w.mu)) == [t]
  }

  /** At instant m task t, suspended in turn i, waits: its handle is where w keeps it. */
  ghost predicate Waits(s: State, run: seq<Turn>, i: nat, m: nat, w: Wait, t: Task, p: Place)
    requires Turns(s, run) && m <= |run|
  {
    && Keeps(w, p) && In1(Now(s, run, m), p, t)
    && (p.InHand? ==> exists k :: i < k < m && TakenBy(Now(s, run, k), run[k], w, p, t))
  }

  ghost predicate WaitsSomewhere(s: State, run: seq<Turn>, i: nat, m: nat, w: Wait, t: Task)
    requires Turns(s, run) && m <= |run|
  {
    exists p :: Waits(s, run, i, m, w, t, p)
  }

  /** The suspension puts the handle where w keeps it first. */
  lemma WaitBegins(s: State, turn: Turn) returns (p: Place)
    requires Inv(s) && Enabled(s, turn) && Suspends(turn)
    ensures var t, w := In(s, OnCore(turn.c))[0], WaitOf(s, turn);
      Keeps(w, p) && !p.InHand? && !p.Carried? && In1(Step(s, turn), p, t) && Told(Step(s, turn), w, t)
  {
    NoneStale(s, OnCore(turn.c));
    assert Local(s, turn.c);
    StepMoves(s, turn);
    var e := EffectOf(s, turn);
    p := e.q;
    MoveGoal(LiveView(s), LiveView(Step(s, turn)), e.p, e.i, e.q, e.j, Spot(OnCore(turn.c), 0));
  }

  lemma WaitTurn(s: State, run: seq<Turn>, i: nat, m: nat, w: Wait, t: Task, p: Place) returns (q: Place)
    requires Start(s) && Turns(s, run) && i < m < |run| && Waits(s, run, i, m, w, t, p) && Told(Now(s, run, m), w, t)
    ensures Told(Now(s, run, m + 1), w, t)
    ensures if Keeps(w, q) then Waits(s, run, i, m + 1, w, t, q)
      else In1(Now(s, run, m + 1), Ready, t) && Wakes(Now(s, run, m), run[m], w, t)
  {
    NowStep(s, run, m);
    q := WaitStep(Now(s, run, m), run[m], w, t, p);
    if Keeps(w, q) && q.InHand? {
      if q == p {
        var k :| i < k < m && TakenBy(Now(s, run, k), run[k], w, p, t);
        assert i < k < m + 1 && TakenBy(Now(s, run, k), run[k], w, q, t);
      } else {
        assert i < m < m + 1 && TakenBy(Now(s, run, m), run[m], w, q, t);
      }
    }
  }

  /** The task waits at every instant after turn i up to k, and is told as w says at k. */
  ghost predicate WaitsUpTo(s: State, run: seq<Turn>, i: nat, k: nat, w: Wait, t: Task)
    requires Turns(s, run) && k <= |run|
  {
    Told(Now(s, run, k), w, t) && forall m :: i < m <= k ==> WaitsSomewhere(s, run, i, m, w, t)
  }

  /** Turn k ends the wait: the task is ready after it. */
  ghost predicate EndsWait(s: State, run: seq<Turn>, k: nat, w: Wait, t: Task)
    requires Turns(s, run) && k < |run|
  {
    Wakes(Now(s, run, k), run[k], w, t) && In1(Now(s, run, k + 1), Ready, t)
  }

  lemma WaitsOn(s: State, run: seq<Turn>, i: nat, m: nat, w: Wait, t: Task, q: Place)
    requires Turns(s, run) && i < m < |run| && WaitsUpTo(s, run, i, m, w, t)
    requires Told(Now(s, run, m + 1), w, t) && Waits(s, run, i, m + 1, w, t, q)
    ensures WaitsUpTo(s, run, i, m + 1, w, t)
  {
    assert WaitsSomewhere(s, run, i, m + 1, w, t);
  }

  lemma WaitGoesOn(s: State, run: seq<Turn>, i: nat, m: nat, w: Wait, t: Task) returns (k: nat)
    requires Start(s) && Turns(s, run) && i < m < |run| && WaitsUpTo(s, run, i, m, w, t)
    ensures m <= k <= m + 1 && WaitsUpTo(s, run, i, k, w, t)
    ensures k == m ==> EndsWait(s, run, m, w, t)
  {
    assert WaitsSomewhere(s, run, i, m, w, t);
    var p :| Waits(s, run, i, m, w, t, p);
    var q := WaitTurn(s, run, i, m, w, t, p);
    k := m;
    if Keeps(w, q) {
      k := m + 1;
      WaitsOn(s, run, i, m, w, t, q);
    }
  }

  lemma WaitStarts(s: State, run: seq<Turn>, i: nat)
    requires Start(s) && Turns(s, run) && i < |run| && Suspends(run[i])
    ensures Enabled(Now(s, run, i), run[i]) && In(Now(s, run, i), OnCore(run[i].c)) != []
    ensures WaitsUpTo(s, run, i, i + 1, WaitOf(Now(s, run, i), run[i]), In(Now(s, run, i), OnCore(run[i].c))[0])
  {
    NowStep(s, run, i);
    var t, w := In(Now(s, run, i), OnCore(run[i].c))[0], WaitOf(Now(s, run, i), run[i]);
    var p := WaitBegins(Now(s, run, i), run[i]);
    assert Waits(s, run, i, i + 1, w, t, p);
    assert WaitsSomewhere(s, run, i, i + 1, w, t);
  }

  lemma {:induction false} WaitLasts(s: State, run: seq<Turn>, i: nat, j: nat, w: Wait, t: Task) returns (k: nat)
    requires Start(s) && Turns(s, run) && i < j <= |run| && WaitsUpTo(s, run, i, i + 1, w, t)
    ensures i < k <= j && WaitsUpTo(s, run, i, k, w, t)
    ensures k < j ==> EndsWait(s, run, k, w, t)
    decreases j
  {
    k := j;
    if j > i + 1 {
      k := WaitLasts(s, run, i, j - 1, w, t);
      if k == j - 1 {
        k := WaitGoesOn(s, run, i, k, w, t);
      }
    }
  }

  /**
   * A suspension ends by its own wake-up. After turn i, in which a task suspends, its handle
   * is where that suspension keeps it at every instant up to k: a sleeper in the timer list
   * of its core, a reader in the list of its descriptor, a waiter in the queue of its mutex
   * or in the hand of an unlocker that has taken it from there, the caller of a function in
   * the queue of the core that it calls or in the function that this core runs. If the wait
   * ends by instant j, it ends in turn k, by the wake-up that belongs to it, and the task is
   * then ready; no other turn makes it so.
   */
  lemma SuspendedUntilWoken(s: State, run: seq<Turn>, i: nat, j: nat) returns (k: nat)
    requires Start(s) && Turns(s, run) && i < j <= |run| && Suspends(run[i])
    ensures Enabled(Now(s, run, i), run[i]) && In(Now(s, run, i), OnCore(run[i].c)) != []
    ensures var t, w := In(Now(s, run, i), OnCore(run[i].c))[0], WaitOf(Now(s, run, i), run[i]);
      i < k <= j && WaitsUpTo(s, run, i, k, w, t) && (k < j ==> EndsWait(s, run, k, w, t))
  {
    WaitStarts(s, run, i);
    k := WaitLasts(s, run, i, j, WaitOf(Now(s, run, i), run[i]), In(Now(s, run, i), OnCore(run[i].c))[0]);
  }

  // ----- every core can go on -----

  /** What the thread of core c does next, if it is not in its loop and leaves its coroutine no other choice. */
  function NextTurn(s: State, c: nat): Turn
    requires c < |s.pcs|
  {
    match s.pcs[c]
    case Running => Ends(c)
    case Leaving => Returns(c)
    case Unlocking => UnlockWakes(c)
    case Unlocked => UnlockReturns(c)
    case InFunc => FuncEnds(c, false)
    case Added(_) => FuncReturns(c)
    case FuncDone => FuncReturns(c)
    case Erasing(_, _, _) => Erases(c)
    case Loop => Schedule(c)
  }

  lemma ThreadGoesOn(s: State, c: nat)
    requires c < |s.pcs| && Local(s, c) && s.pcs[c] != Loop
    ensures Enabled(s, NextTurn(s, c))
  {
  }

  /** What a thread in its loop may take. */
  predicate ForLoop(s: State, turn: Turn, c: nat) {
    match turn
    case Schedule(d) => d == c && In(s, Ready) != []
    case RunsFunc(d) => d == c && In(s, FuncQueue(c)) != []
    case TimerWakes(d) => d == c && In(s, TimerList(c)) != []
    case FileWakes(d, fd, i) => d == c && Owns(s, c, fd) && i < |In(s, FileList(fd))|
    case _ => false
  }

  /**
   * No core gets stuck on a missing handle: a thread that has left its loop finds the handle
   * that its next step works on, and one in its loop can take whatever is there for it.
   */
  lemma CoreGoesOn(s: State, run: seq<Turn>, c: nat, turn: Turn)
    requires Start(s) && Turns(s, run) && c < |After(s, run).pcs|
    ensures After(s, run).pcs[c] != Loop ==> Enabled(After(s, run), NextTurn(After(s, run), c))
    ensures After(s, run).pcs[c] == Loop && ForLoop(After(s, run), turn, c) ==> Enabled(After(s, run), turn)
  {
    RunKeeps(s, run);
    assert Local(After(s, run), c);
    if After(s, run).pcs[c] != Loop {
      ThreadGoesOn(After(s, run), c);
    }
  }

  /** A running coroutine can suspend, or unlock a mutex for which others wait, whichever it chooses. */
  lemma RunningMayChoose(s: State, run: seq<Turn>, c: nat, turn: Turn)
    requires Start(s) && Turns(s, run) && Is(After(s, run), c, Running)
    requires (Suspends(turn) || turn.UnlockTakes?) && turn.c == c
    requires turn.Sleep? ==> turn.j <= |In(After(s, run), TimerList(c))|
    requires turn.FileWaits? || turn.FileCalls? ==> turn.fd in After(s, run).owner
    requires turn.FileWaits? ==> After(s, run).owner[turn.fd] == c
    requires turn.FileCalls? ==> After(s, run).owner[turn.fd] != c
    requires turn.CrossCalls? ==> turn.d != c
    requires turn.UnlockTakes? ==> In(After(s, run), MutexList(turn.mu)) != []
    ensures Enabled(After(s, run), turn)
  {
    RunKeeps(s, run);
    assert Local(After(s, run), c);
  }
}
