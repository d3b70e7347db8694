/**
 * Two runs in which a store of line 55 is not clean. Line 52 tests the spare tail and line 55
 * replaces it; in between an exchange of line 85 lands, and is overwritten. If the link of
 * line 86 then comes in time, the queue is none the worse but for a node that is lost; if it
 * comes when its node has joined the used list, a value is taken that no one put.
 */
module MpmcRace {
  import opened MpmcSteps
  import opened MpmcLinearizable
  import MpmcLostNodes

  /** The turns lead from the first state to the last. */
  ghost predicate Leads(states: seq<State<int>>, turns: seq<Turn<int>>) {
    && |states| == |turns| + 1
    && forall i :: 0 <= i < |turns| ==> Moves(states[i], turns[i], states[i + 1])
  }

  /** n turns of one thread lead from s to s'. */
  ghost predicate Reaches(s: State<int>, turn: Turn<int>, n: nat, s': State<int>)
    decreases n
  {
    if n == 0 then s == s'
    else
      && turn.t < |s.pcs| && Sound(s.m) && Pointers(s.m, s.pcs[turn.t])
      && Reaches(Step(s, turn.t, turn.c), turn, n - 1, s')
  }

  ghost predicate OnTime(states: seq<State<int>>, turns: seq<Turn<int>>) {
    && |turns| <= |states|
    && forall i :: 0 <= i < |turns| && turns[i].t < |states[i].pcs| ==> Timely(states[i], turns[i].t)
  }

  /** Of two threads, the second only dequeues, and owes no link while the first has its turns. */
  predicate Calm(s: State<int>, turn: Turn<int>) {
    && |s.pcs| == 2 && (s.pcs[1].Idle? || Dequeues(s.pcs[1]))
    && (turn == GET || (turn.t == 0 && !s.pcs[1].DLink?))
  }

  lemma CalmStep(s: State<int>, turn: Turn<int>)
    requires Calm(s, turn) && Sound(s.m) && Pointers(s.m, s.pcs[turn.t])
    ensures Timely(s, turn.t) && Calm(Step(s, turn.t, turn.c), turn)
  {
  }

  lemma {:induction false} Extend(
      states: seq<State<int>>, turns: seq<Turn<int>>, turn: Turn<int>, n: nat, s': State<int>)
      returns (states': seq<State<int>>, turns': seq<Turn<int>>)
    requires Leads(states, turns) && Reaches(states[|states| - 1], turn, n, s')
    ensures Leads(states', turns') && states'[0] == states[0] && states'[|states'| - 1] == s'
    ensures OnTime(states, turns) && Calm(states[|states| - 1], turn) ==> OnTime(states', turns')
    decreases n
  {
    if n == 0 {
      states', turns' := states, turns;
    } else {
      var s1 := Append(states, turns, turn);
      states', turns' := Extend(states + [s1], turns + [turn], turn, n - 1, s');
    }
  }

  lemma Append(states: seq<State<int>>, turns: seq<Turn<int>>, turn: Turn<int>) returns (s1: State<int>)
    requires Leads(states, turns)
    requires var s := states[|states| - 1]; turn.t < |s.pcs| && Sound(s.m) && Pointers(s.m, s.pcs[turn.t])
    ensures s1 == Step(states[|states| - 1], turn.t, turn.c) && Leads(states + [s1], turns + [turn])
    ensures OnTime(states, turns) && Calm(states[|states| - 1], turn) ==>
      OnTime(states + [s1], turns + [turn]) && Calm(s1, turn)
  {
    s1 := Step(states[|states| - 1], turn.t, turn.c);
    if Calm(states[|states| - 1], turn) {
      CalmStep(states[|states| - 1], turn);
    }
  }

  const PUT_10 := Turn(0, Enqueue(10))
  const PUT_20 := Turn(0, Enqueue(20))
  const GET := Turn(1, Call.Dequeue)

  // the constructed queue
  function S0(): State<int> {
    State(Mem([0, 0, 0], [0, 0, 0], 2, 2, 1, 1, 0, [2], [1], [], []),
          false, false, [Idle, Idle])
  }

  function S1(): State<int> {
    State(Mem([0, 0, 0], [0, 0, 0], 2, 2, 1, 1, 0, [2], [1], [], []),
          false, true, [ESpin(10, 1), Idle])
  }

  function S2(): State<int> {
    State(Mem([0, 0, 0, 0], [0, 0, 0, 0], 2, 2, 1, 1, 0, [2], [1], [], []),
          false, true, [EStore(10, 1, 3), Idle])
  }

  function S3(): State<int> {
    State(Mem([0, 0, 0, 0], [0, 0, 0, 0], 2, 2, 3, 3, 0, [2], [3], [], []),
          false, false, [EFill(10, 1), Idle])
  }

  function S4(): State<int> {
    State(Mem([0, 0, 0, 0], [0, 10, 0, 0], 2, 1, 3, 3, 0, [2, 1], [3], [10], []),
          false, false, [ELink(2, 1), Idle])
  }

  // thread 0 has put 10
  function S5(): State<int> {
    State(Mem([0, 0, 1, 0], [0, 10, 0, 0], 2, 1, 3, 3, 0, [2, 1], [3], [10], []),
          false, false, [Idle, Idle])
  }

  function S6(): State<int> {
    State(Mem([0, 0, 1, 0], [0, 10, 0, 0], 2, 1, 3, 3, 0, [2, 1], [3], [10], []),
          true, false, [Idle, DSpin(2)])
  }

  function S7(): State<int> {
    State(Mem([0, 0, 1, 0], [0, 0, 0, 0], 1, 1, 3, 3, 0, [1], [3], [10], [10]),
          true, false, [Idle, DUnlock(2, 10)])
  }

  // thread 1 has got 10 and is about to recycle node 2
  function S8(): State<int> {
    State(Mem([0, 0, 0, 0], [0, 0, 0, 0], 1, 1, 3, 3, 0, [1], [3], [10], [10]),
          false, false, [Idle, DXchg(2, 10)])
  }

  function S9(): State<int> {
    State(Mem([0, 0, 0, 0], [0, 0, 0, 0], 1, 1, 3, 3, 0, [1], [3], [10], [10]),
          false, true, [ESpin(20, 3), DXchg(2, 10)])
  }

  // thread 0, putting 20, has found node 3 to be the spare tail
  function S10(): State<int> {
    State(Mem([0, 0, 0, 0], [0, 0, 0, 0], 1, 1, 3, 3, 0, [1], [3], [10], [10]),
          false, true, [ENew(20, 3), DXchg(2, 10)])
  }

  // thread 1 exchanges node 2 onto the spare list
  function S11(): State<int> {
    State(Mem([0, 0, 0, 0], [0, 0, 0, 0], 1, 1, 3, 2, 0, [1], [3, 2], [10], [10]),
          false, true, [ENew(20, 3), DLink(3, 2, 10)])
  }

  function S12(): State<int> {
    State(Mem([0, 0, 0, 0, 0], [0, 0, 0, 0, 0], 1, 1, 4, 4, 0, [1], [4], [10], [10]),
          false, true, [EUnlock(20, 3), DLink(3, 2, 10)])
  }

  function S13(): State<int> {
    State(Mem([0, 0, 0, 0, 0], [0, 0, 0, 20, 0], 1, 1, 4, 4, 0, [1], [4], [10], [10]),
          false, false, [EXchg(20, 3), DLink(3, 2, 10)])
  }

  // thread 0 has overwritten that exchange and put 20 in node 3
  function S14(): State<int> {
    State(Mem([0, 3, 0, 0, 0], [0, 0, 0, 20, 0], 1, 3, 4, 4, 0, [1, 3], [4], [10, 20], [10]),
          false, false, [Idle, DLink(3, 2, 10)])
  }

  // thread 1 links node 3, now in the used list, to node 2
  function S15(): State<int> {
    State(Mem([0, 3, 0, 2, 0], [0, 0, 0, 20, 0], 1, 3, 4, 4, 0, [1, 3], [4], [10, 20], [10]),
          false, false, [Idle, Idle])
  }

  function S16(): State<int> {
    State(Mem([0, 3, 0, 2, 0], [0, 0, 0, 20, 0], 1, 3, 4, 4, 0, [1, 3], [4], [10, 20], [10]),
          true, false, [Idle, DSpin(1)])
  }

  function S17(): State<int> {
    State(Mem([0, 3, 0, 2, 0], [0, 0, 0, 0, 0], 3, 3, 4, 4, 0, [3], [4], [10, 20], [10, 20]),
          true, false, [Idle, DUnlock(1, 20)])
  }

  function S18(): State<int> {
    State(Mem([0, 0, 0, 2, 0], [0, 0, 0, 0, 0], 3, 3, 4, 1, 0, [3], [4, 1], [10, 20], [10, 20]),
          false, false, [Idle, DLink(4, 1, 20)])
  }

  // thread 1 has got 20
  function S19(): State<int> {
    State(Mem([0, 0, 0, 2, 1], [0, 0, 0, 0, 0], 3, 3, 4, 1, 0, [3], [4, 1], [10, 20], [10, 20]),
          false, false, [Idle, Idle])
  }

  function S20(): State<int> {
    State(Mem([0, 0, 0, 2, 1], [0, 0, 0, 0, 0], 3, 3, 4, 1, 0, [3], [4, 1], [10, 20], [10, 20]),
          true, false, [Idle, DSpin(3)])
  }

  // thread 1 takes a value that no one put
  function S21(): State<int> {
    State(Mem([0, 0, 0, 2, 1], [0, 0, 0, 0, 0], 2, 3, 4, 1, 0, [], [4, 1], [10, 20], [10, 20, 0]),
          true, false, [Idle, DTake(3, 2)])
  }

  // thread 1 writes its link into node 3 first
  function T12(): State<int> {
    State(Mem([0, 0, 0, 2], [0, 0, 0, 0], 1, 1, 3, 2, 0, [1], [3, 2], [10], [10]),
          false, true, [ENew(20, 3), Idle])
  }

  function T13(): State<int> {
    State(Mem([0, 0, 0, 2, 0], [0, 0, 0, 0, 0], 1, 1, 4, 4, 0, [1], [4], [10], [10]),
          false, true, [EUnlock(20, 3), Idle])
  }

  function T14(): State<int> {
    State(Mem([0, 0, 0, 0, 0], [0, 0, 0, 20, 0], 1, 1, 4, 4, 0, [1], [4], [10], [10]),
          false, false, [EXchg(20, 3), Idle])
  }

  // thread 0 has put 20 in node 3; nothing leads to node 2
  function T15(): State<int> {
    State(Mem([0, 3, 0, 0, 0], [0, 0, 0, 20, 0], 1, 3, 4, 4, 0, [1, 3], [4], [10, 20], [10]),
          false, false, [Idle, Idle])
  }

  lemma Leg1()
    ensures Reaches(S0(), PUT_10, 3, S1())
  {
  }

  lemma Leg2()
    ensures Reaches(S1(), PUT_10, 3, S2())
  {
  }

  lemma Leg3()
    ensures Reaches(S2(), PUT_10, 3, S3())
  {
  }

  lemma Leg4()
    ensures Reaches(S3(), PUT_10, 3, S4())
  {
  }

  lemma Leg5()
    ensures Reaches(S4(), PUT_10, 1, S5())
  {
  }

  lemma Leg6()
    ensures Reaches(S5(), GET, 3, S6())
  {
  }

  lemma Leg7()
    ensures Reaches(S6(), GET, 3, S7())
  {
  }

  lemma Leg8()
    ensures Reaches(S7(), GET, 2, S8())
  {
  }

  lemma Leg9()
    ensures Reaches(S8(), PUT_20, 3, S9())
  {
  }

  lemma Leg10()
    ensures Reaches(S9(), PUT_20, 2, S10())
  {
  }

  lemma Leg11()
    ensures Reaches(S10(), GET, 1, S11())
  {
  }

  lemma Leg12()
    ensures Reaches(S11(), PUT_20, 3, S12())
  {
  }

  lemma Leg13()
    ensures Reaches(S12(), PUT_20, 3, S13())
  {
  }

  lemma Leg14()
    ensures Reaches(S13(), PUT_20, 2, S14())
  {
  }

  lemma Leg15()
    ensures Reaches(S14(), GET, 1, S15())
  {
  }

  lemma Leg16()
    ensures Reaches(S15(), GET, 3, S16())
  {
  }

  lemma Leg17()
    ensures Reaches(S16(), GET, 3, S17())
  {
  }

  lemma Leg18()
    ensures Reaches(S17(), GET, 3, S18())
  {
  }

  lemma Leg19()
    ensures Reaches(S18(), GET, 1, S19())
  {
  }

  lemma Leg20()
    ensures Reaches(S19(), GET, 3, S20())
  {
  }

  lemma Leg21()
    ensures Reaches(S20(), GET, 2, S21())
  {
  }

  lemma TimelyLeg12()
    ensures Reaches(S11(), GET, 1, T12())
  {
  }

  lemma TimelyLeg13()
    ensures Reaches(T12(), PUT_20, 3, T13())
  {
  }

  lemma TimelyLeg14()
    ensures Reaches(T13(), PUT_20, 3, T14())
  {
  }

  lemma TimelyLeg15()
    ensures Reaches(T14(), PUT_20, 2, T15())
  {
  }

  lemma FirstPut() returns (r: seq<State<int>>, turns: seq<Turn<int>>)
    ensures Leads(r, turns) && OnTime(r, turns) && r[0] == S0() && r[|r| - 1] == S5()
  {
    r, turns := [S0()], [];
    Leg1();
    r, turns := Extend(r, turns, PUT_10, 3, S1());
    Leg2();
    r, turns := Extend(r, turns, PUT_10, 3, S2());
    Leg3();
    r, turns := Extend(r, turns, PUT_10, 3, S3());
    Leg4();
    r, turns := Extend(r, turns, PUT_10, 3, S4());
    Leg5();
    r, turns := Extend(r, turns, PUT_10, 1, S5());
  }

  /** The run up to the exchange of line 85 that is about to be overwritten. */
  lemma FirstLegs() returns (r: seq<State<int>>, turns: seq<Turn<int>>)
    ensures Leads(r, turns) && OnTime(r, turns) && r[0] == S0() && r[|r| - 1] == S11()
  {
    r, turns := FirstPut();
    Leg6();
    r, turns := Extend(r, turns, GET, 3, S6());
    Leg7();
    r, turns := Extend(r, turns, GET, 3, S7());
    Leg8();
    r, turns := Extend(r, turns, GET, 2, S8());
    Leg9();
    r, turns := Extend(r, turns, PUT_20, 3, S9());
    Leg10();
    r, turns := Extend(r, turns, PUT_20, 2, S10());
    Leg11();
    r, turns := Extend(r, turns, GET, 1, S11());
  }

  /** The link comes late. */
  lemma LateLegs() returns (r: seq<State<int>>, turns: seq<Turn<int>>)
    ensures Leads(r, turns) && r[0] == S0() && r[|r| - 1] == S21()
  {
    r, turns := FirstLegs();
    Leg12();
    r, turns := Extend(r, turns, PUT_20, 3, S12());
    Leg13();
    r, turns := Extend(r, turns, PUT_20, 3, S13());
    Leg14();
    r, turns := Extend(r, turns, PUT_20, 2, S14());
    Leg15();
    r, turns := Extend(r, turns, GET, 1, S15());
    Leg16();
    r, turns := Extend(r, turns, GET, 3, S16());
    Leg17();
    r, turns := Extend(r, turns, GET, 3, S17());
    Leg18();
    r, turns := Extend(r, turns, GET, 3, S18());
    Leg19();
    r, turns := Extend(r, turns, GET, 1, S19());
    Leg20();
    r, turns := Extend(r, turns, GET, 3, S20());
    Leg21();
    r, turns := Extend(r, turns, GET, 2, S21());
  }

  /** The link comes in time; the dirty store is the second of the turns that lead from T12. */
  lemma TimelyLegs() returns (r: seq<State<int>>, turns: seq<Turn<int>>)
    ensures Leads(r, turns) && OnTime(r, turns) && r[0] == S0() && r[|r| - 1] == T15()
  {
    r, turns := FirstLegs();
    TimelyLeg12();
    r, turns := Extend(r, turns, GET, 1, T12());
    TimelyLeg13();
    r, turns := Extend(r, turns, PUT_20, 3, T13());
    TimelyLeg14();
    r, turns := Extend(r, turns, PUT_20, 3, T14());
    TimelyLeg15();
    r, turns := Extend(r, turns, PUT_20, 2, T15());
  }

  /**
   * The queue as written is not linearizable: in this run two values are put, 10 and 20,
   * and three are taken, the last out of a node that no one put.
   */
  lemma DirtyStoreBreaksFifo()
    ensures exists states: seq<State<int>>, turns ::
      && Run(states, turns) && !TimelyRun(states, turns)
      && states[|states| - 1].m.put == [10, 20]
      && states[|states| - 1].m.got == [10, 20, 0]
  {
    var r, turns := LateLegs();
    assert S0() == Init(2, 0);
    assert Run(r, turns);
    if TimelyRun(r, turns) {
      GotIsPrefixOfPut(r, turns, |r| - 1);
    }
  }

  /**
   * A store that is not clean need not break it: in this run the link of line 86 comes in
   * time, and both threads end idle with 10 put and taken, 20 put and queued, and node 2 lost.
   */
  lemma DirtyStoreMayBeTimely()
    ensures exists states: seq<State<int>>, turns ::
      && TimelyRun(states, turns) && !MpmcLostNodes.CleanRun(states, turns)
      && states[|states| - 1] == T15()
    ensures T15().m.put == [10, 20] && T15().m.got == [10] && T15().pcs == [Idle, Idle]
  {
    var r, turns := TimelyLegs();
    assert S0() == Init(2, 0);
    assert TimelyRun(r, turns);
    if MpmcLostNodes.CleanRun(r, turns) {
      MpmcLostNodes.NodesPartitioned(r, turns, |r| - 1, 2);
    }
  }

  /** A lost node may come back: the late link leads from the used list to node 2 again. */
  lemma LateLinkFindsLostNode()
    ensures !MpmcLostNodes.Lost(S15(), 2)
  {
    var m, pcs := S15().m, S15().pcs;
    var l := [1, 3, 2];
    assert MpmcLostNodes.Path(m.next, Froms(pcs), Tos(pcs), l) && l[0] == m.uHead && l[|l| - 1] == 2;
  }
}
