/**
 * What keeps a call on the interleaved queue from returning: a lock that another thread has,
 * or a link that another thread is about to write, and nothing else. In every run, timely or
 * not, the other turns of a call bring it nearer to its return.
 */
module MpmcProgress {
  import opened Sequences
  import opened MpmcSteps
  import opened MpmcLinearizable

  // ----- the locks -----

  /** At every instant of every run a lock is taken if and only if a thread is in its section. */
  lemma {:induction false} LocksExact<T>(states: seq<State<T>>, turns: seq<Turn<T>>, i: nat)
    requires Run(states, turns) && i < |states|
    ensures states[i].sLk <==> exists t :: 0 <= t < |states[i].pcs| && InS(states[i].pcs[t])
    ensures states[i].uLk <==> exists t :: 0 <= t < |states[i].pcs| && InU(states[i].pcs[t])
    ensures Locks(states[i])
  {
    if i > 0 {
      LocksExact(states, turns, i - 1);
      assert Moves(states[i - 1], turns[i - 1], states[i]);
      KeepsLocks(states[i - 1], turns[i - 1].t, turns[i - 1].c);
    }
  }

  /** A thread that a turn leaves at line 48 or 72 is kept there by another one in that section. */
  lemma LockWaitsForAnother<T>(states: seq<State<T>>, turns: seq<Turn<T>>, i: nat, t: nat)
    requires Run(states, turns) && i < |turns| && turns[i].t == t < |states[i].pcs|
    ensures |states[i + 1].pcs| == |states[i].pcs|
    ensures states[i].pcs[t].ELock? && !states[i + 1].pcs[t].EReadHead?
      ==> exists u :: 0 <= u < |states[i].pcs| && u != t && InS(states[i].pcs[u])
    ensures states[i].pcs[t].DLock? && !states[i + 1].pcs[t].DReadHead?
      ==> exists u :: 0 <= u < |states[i].pcs| && u != t && InU(states[i].pcs[u])
  {
    LocksExact(states, turns, i);
    assert Moves(states[i], turns[i], states[i + 1]);
  }

  // ----- how far a call is from its return -----

  /** The turns left until the call returns, if each lock is free and each successor is there. */
  function Left<T>(pc: PC<T>): nat {
    match pc
    case Idle => 0
    case ELock(_) => 11
    case EReadHead(_) => 10
    case ESpin(_, _) => 9
    case ETest(_, _) => 10
    case ENew(_, _) => 8
    case EStore(_, _, _) => 7
    case EAdvance(_, _, _) => 6
    case EUnlock(_, _) => 5
    case EFill(_, _) => 4
    case EClear(_, _) => 3
    case EXchg(_, _) => 2
    case ELink(_, _) => 1
    case DLock => 9
    case DReadHead => 8
    case DSpin(_) => 7
    case DTest(_) => 8
    case DFail => 1
    case DAdvance(_, _) => 6
    case DTake(_, _) => 5
    case DUnlock(_, _) => 4
    case DClear(_, _) => 3
    case DXchg(_, _) => 2
    case DLink(_, _, _) => 1
  }

  /** The thread is about to find a lock taken, or no successor at line 50 or 74. */
  predicate InVain<T>(s: State<T>, t: nat)
    requires t < |s.pcs|
  {
    match s.pcs[t]
    case ELock(_) => s.sLk
    case ESpin(_, p) => p < |s.m.next| && s.m.next[p] == NULL
    case DLock => s.uLk
    case DSpin(p) => p < |s.m.next| && s.m.next[p] == NULL
    case _ => false
  }

  lemma StepNears<T>(s: State<T>, t: nat, c: Call<T>)
    requires t < |s.pcs| && Sound(s.m) && Pointers(s.m, s.pcs[t]) && !s.pcs[t].Idle?
    ensures var s' := Step(s, t, c);
      && |s'.pcs| == |s.pcs|
      && Left(s'.pcs[t]) + 1 <= Left(s.pcs[t]) + if InVain(s, t) then 2 else 0
  {
  }

  /** The turns of thread t, from i up to j, in which it finds what InVain says. */
  function VainTurns<T>(states: seq<State<T>>, turns: seq<Turn<T>>, t: nat, i: nat, j: nat): nat
    requires i <= j <= |turns| <= |states|
    decreases j
  {
    if i == j then 0
    else
      var vain := turns[j - 1].t == t && t < |states[j - 1].pcs| && InVain(states[j - 1], t);
      VainTurns(states, turns, t, i, j - 1) + if vain then 1 else 0
  }

  function TurnOf<T>(t: nat): Turn<T> -> bool {
    (turn: Turn<T>) => turn.t == t
  }

  /**
   * A call returns within the turns that Left counts and two more for each in vain: from i up
   * to j it has returned, at turn k, or has that many fewer turns left than at i.
   */
  lemma {:induction false} CallReturns<T>(states: seq<State<T>>, turns: seq<Turn<T>>, t: nat, i: nat, j: nat)
    returns (k: nat)
    requires Run(states, turns) && i <= j < |states| && t < |states[i].pcs|
    ensures |states[j].pcs| == |states[i].pcs|
    ensures (i <= k <= j && t < |states[k].pcs| && states[k].pcs[t].Idle?)
      || Count(turns, TurnOf(t), i, j) + Left(states[j].pcs[t])
         <= Left(states[i].pcs[t]) + 2 * VainTurns(states, turns, t, i, j)
  {
    k := i;
    if i < j {
      k := CallReturns(states, turns, t, i, j - 1);
      CallTurn(states, turns, t, j - 1);
      if !(i <= k < j && t < |states[k].pcs| && states[k].pcs[t].Idle?) && states[j - 1].pcs[t].Idle? {
        k := j - 1;
      }
    }
  }

  lemma CallTurn<T>(states: seq<State<T>>, turns: seq<Turn<T>>, t: nat, m: nat)
    requires Run(states, turns) && m < |turns| && t < |states[m].pcs|
    ensures |states[m + 1].pcs| == |states[m].pcs|
    ensures states[m].pcs[t].Idle?
      || Left(states[m + 1].pcs[t]) + (if turns[m].t == t then 1 else 0)
         <= Left(states[m].pcs[t]) + if turns[m].t == t && InVain(states[m], t) then 2 else 0
  {
    var s, turn := states[m], turns[m];
    assert Moves(s, turn, states[m + 1]);
    PcsCount(s, turn.t, turn.c);
    if turn.t != t {
      PcsKept(s, turn.t, turn.c, t);
    } else if !s.pcs[t].Idle? {
      StepNears(s, t, turn.c);
    }
  }

  // ----- no deadlock -----

  /** A turn of u, or two, bring its call nearer to its return. */
  predicate Advances<T>(s: State<T>, u: nat, c: Call<T>)
    requires u < |s.pcs| && Sound(s.m) && Pointers(s.m, s.pcs[u])
  {
    var s' := Step(s, u, c);
    && u < |s'.pcs|
    && (Left(s'.pcs[u]) < Left(s.pcs[u])
        || (Sound(s'.m) && Pointers(s'.m, s'.pcs[u])
            && u < |Step(s', u, c).pcs| && Left(Step(s', u, c).pcs[u]) < Left(s.pcs[u])))
  }

  /** The thread is in a call and can go on by itself. */
  ghost predicate GoesOn<T>(s: State<T>, u: nat, c: Call<T>) {
    u < |s.pcs| && !s.pcs[u].Idle? && Sound(s.m) && Pointers(s.m, s.pcs[u]) && Advances(s, u, c)
  }

  lemma LinkerGoesOn<T>(s: State<T>, u: nat, c: Call<T>)
    requires Inv(s) && u < |s.pcs| && (s.pcs[u].ELink? || s.pcs[u].DLink?)
    ensures GoesOn(s, u, c)
  {
    assert Local(s.m, s.pcs[u]);
    StepNears(s, u, c);
  }

  /** A thread that does not wait for a lock goes on, or another one is about to write its link. */
  lemma UnlockedGoesOn<T>(s: State<T>, t: nat, c: Call<T>) returns (u: nat)
    requires Inv(s) && t < |s.pcs| && !s.pcs[t].Idle?
    requires !(s.pcs[t].ELock? && s.sLk) && !(s.pcs[t].DLock? && s.uLk)
    ensures GoesOn(s, u, c)
  {
    assert Local(s.m, s.pcs[t]);
    u := t;
    if s.pcs[t].DSpin? || s.pcs[t].DTest? {
      u := DequeuerGoesOn(s, t, c);
    } else if s.pcs[t].ESpin? || s.pcs[t].ETest? {
      u := EnqueuerGoesOn(s, t, c);
    } else {
      StepNears(s, t, c);
    }
  }

  lemma DequeuerGoesOn<T>(s: State<T>, t: nat, c: Call<T>) returns (u: nat)
    requires Inv(s) && t < |s.pcs| && (s.pcs[t].DSpin? || s.pcs[t].DTest?) && Local(s.m, s.pcs[t])
    ensures GoesOn(s, u, c)
  {
    u := t;
    if s.m.next[s.m.uHead] == NULL && s.m.uHead != s.m.uTail {
      u := Awaited(s.m.next, Froms(s.pcs), Tos(s.pcs), s.m.used);
      LinkerGoesOn(s, u, c);
    }
  }

  lemma EnqueuerGoesOn<T>(s: State<T>, t: nat, c: Call<T>) returns (u: nat)
    requires Inv(s) && t < |s.pcs| && (s.pcs[t].ESpin? || s.pcs[t].ETest?) && Local(s.m, s.pcs[t])
    ensures GoesOn(s, u, c)
  {
    u := t;
    if s.m.next[s.m.sHead] == NULL && s.m.sHead != s.m.sTail {
      u := Awaited(s.m.next, Froms(s.pcs), Tos(s.pcs), s.m.spare);
      LinkerGoesOn(s, u, c);
    }
  }

  /**
   * No deadlock: at every instant of a timely run at which some thread is in a call, some
   * thread in a call can go on by itself.
   */
  lemma NoDeadlock<T>(states: seq<State<T>>, turns: seq<Turn<T>>, i: nat, t: nat, c: Call<T>) returns (u: nat)
    requires TimelyRun(states, turns) && i < |states| && t < |states[i].pcs| && !states[i].pcs[t].Idle?
    ensures GoesOn(states[i], u, c)
  {
    RunInv(states, turns, i);
    var s := states[i];
    u := t;
    if s.pcs[t].ELock? && s.sLk {
      u :| 0 <= u < |s.pcs| && InS(s.pcs[u]);
    } else if s.pcs[t].DLock? && s.uLk {
      u :| 0 <= u < |s.pcs| && InU(s.pcs[u]);
    }
    u := UnlockedGoesOn(s, u, c);
  }

  // ----- when the store of line 55 is clean -----

  /** The thread is between lines 52 and 55. */
  predicate Renewing<T>(pc: PC<T>) {
    pc.ENew? || pc.EStore?
  }

  /** An exchange of line 85 in some turn from i up to j. */
  ghost predicate Exchanges<T>(states: seq<State<T>>, turns: seq<Turn<T>>, i: nat, j: nat)
    requires i <= j <= |turns| <= |states|
  {
    exists k :: i <= k < j && turns[k].t < |states[k].pcs| && states[k].pcs[turns[k].t].DXchg?
  }

  lemma TailStays<T>(s: State<T>, turn: Turn<T>, s': State<T>, t: nat)
    requires Moves(s, turn, s') && Locks(s) && t < |s.pcs| && Renewing(s.pcs[t]) && !s.pcs[turn.t].DXchg?
    requires t < |s'.pcs| && Renewing(s'.pcs[t])
    ensures s'.m.sTail == s.m.sTail && s'.pcs[t].pres == s.pcs[t].pres
  {
    if turn.t != t {
      PcsKept(s, turn.t, turn.c, t);
      assert InS(s.pcs[t]);
    }
  }

  lemma HeadStays<T>(s: State<T>, turn: Turn<T>, s': State<T>, t: nat)
    requires Moves(s, turn, s') && Locks(s) && t < |s.pcs| == |s'.pcs|
    requires s'.pcs[t].ESpin? || s'.pcs[t].ETest?
    requires s.pcs[t].ESpin? || s.pcs[t].ETest? ==> s.pcs[t].pres == s.m.sHead
    ensures s'.pcs[t].pres == s'.m.sHead
  {
    if turn.t != t {
      PcsKept(s, turn.t, turn.c, t);
      assert InS(s.pcs[t]);
    }
  }

  /** The node that lines 50 and 52 look at is sHead_, because its lock is held. */
  lemma {:induction false} LooksAtHead<T>(states: seq<State<T>>, turns: seq<Turn<T>>, i: nat, t: nat)
    requires Run(states, turns) && i < |states| && t < |states[i].pcs|
    requires states[i].pcs[t].ESpin? || states[i].pcs[t].ETest?
    ensures states[i].pcs[t].pres == states[i].m.sHead
  {
    if i > 0 {
      var s, turn := states[i - 1], turns[i - 1];
      assert Moves(s, turn, states[i]);
      LocksExact(states, turns, i - 1);
      PcsCount(s, turn.t, turn.c);
      if s.pcs[t].ESpin? || s.pcs[t].ETest? {
        LooksAtHead(states, turns, i - 1, t);
      }
      HeadStays(s, turn, states[i], t);
    }
  }

  lemma TestFindsTail<T>(s: State<T>, turn: Turn<T>, s': State<T>, t: nat)
    requires Moves(s, turn, s') && t < |s.pcs| == |s'.pcs|
    requires s.pcs[t].ETest? && s.pcs[t].pres == s.m.sHead && Renewing(s'.pcs[t])
    ensures s'.m.sTail == s'.pcs[t].pres
  {
    if turn.t != t {
      PcsKept(s, turn.t, turn.c, t);
    }
  }

  /**
   * A node is allocated only where line 52 has found one spare node left, and the store of
   * line 55 is then clean unless another thread's exchange of line 85 has come in between. So
   * no store of a queue that one thread uses at a time is ever unclean.
   */
  lemma {:induction false} CleanUnlessExchange<T>(
      states: seq<State<T>>, turns: seq<Turn<T>>, t: nat, i: nat, j: nat)
    requires Run(states, turns) && i < j < |states| && t < |states[i].pcs| && states[i].pcs[t].ETest?
    requires forall k :: i < k <= j ==> t < |states[k].pcs| && Renewing(states[k].pcs[t])
    requires !Exchanges(states, turns, i, j)
    ensures t < |states[j].pcs| && Renewing(states[j].pcs[t])
    ensures states[j].m.sTail == states[j].pcs[t].pres && Clean(states[j], t)
  {
    var s, turn := states[j - 1], turns[j - 1];
    assert Moves(s, turn, states[j]);
    assert !s.pcs[turn.t].DXchg?;
    if j - 1 > i {
      LocksExact(states, turns, j - 1);
      CleanUnlessExchange(states, turns, t, i, j - 1);
      TailStays(s, turn, states[j], t);
    } else {
      LooksAtHead(states, turns, i, t);
      PcsCount(s, turn.t, turn.c);
      TestFindsTail(s, turn, states[j], t);
    }
  }

  // ----- what a dequeue leaves behind -----

  /** The first used node holds no value, unless a dequeuer is about to move it out. */
  ghost predicate DummyBlank<T>(s: State<T>)
    requires Sound(s.m)
  {
    s.m.data[s.m.uHead] == s.m.blank || exists t :: 0 <= t < |s.pcs| && s.pcs[t].DTake?
  }

  lemma DummyKept<T>(s: State<T>, t: nat, c: Call<T>)
    requires Inv(s) && t < |s.pcs| && DummyBlank(s) && Local(s.m, s.pcs[t]) && Sound(Step(s, t, c).m)
    ensures DummyBlank(Step(s, t, c))
  {
    var s' := Step(s, t, c);
    assert s.m.uHead in s.m.used;
    assert s.pcs[t].EFill? ==> Owns(s.pcs)[t] == s.pcs[t].pres;
    if s.pcs[t].DAdvance? {
      assert s'.pcs[t].DTake?;
    } else if !s.pcs[t].DTake? {
      if u :| 0 <= u < |s.pcs| && s.pcs[u].DTake? {
        PcsKept(s, t, c, u);
        assert s'.pcs[u].DTake?;
      } else {
        DataKept(s, t, c, s.m.uHead);
      }
    }
  }

  /** A dequeued value is moved out: at every instant the dummy holds none, or one about to be taken. */
  lemma {:induction false} ValuesMoveOut<T>(states: seq<State<T>>, turns: seq<Turn<T>>, i: nat)
    requires TimelyRun(states, turns) && i < |states|
    ensures Sound(states[i].m) && DummyBlank(states[i])
  {
    RunInv(states, turns, i);
    if i > 0 {
      ValuesMoveOut(states, turns, i - 1);
      RunInv(states, turns, i - 1);
      assert Moves(states[i - 1], turns[i - 1], states[i]);
      assert Local(states[i - 1].m, states[i - 1].pcs[turns[i - 1].t]);
      DummyKept(states[i - 1], turns[i - 1].t, turns[i - 1].c);
    }
  }
}
