/**
 * The interleaved queue is linearizable: it refines a machine in which each operation
 * takes effect in one indivisible step between its call and its return.
 */
module MpmcLinearizable {
  import opened Sequences
  import opened MpmcSteps
  import opened Options

  // ----- the specification: an atomic FIFO -----

  /** An operation in progress, before or after it takes effect. */
  datatype Op<T> = Free | Putting(v: T) | Put | Getting | Got(r: Option<T>)

  datatype Fifo<T> = Fifo(queue: seq<T>, ops: seq<Op<T>>)

  /** What a client sees of a step of thread t. */
  datatype Event<T> = Internal | Invokes(c: Call<T>) | PutReturns | GetReturns(r: Option<T>)

  ghost predicate FifoStep<T>(a: Fifo<T>, t: nat, e: Event<T>, b: Fifo<T>) {
    && t < |a.ops|
    && match e
       case Invokes(Enqueue(v)) => a.ops[t] == Free && b == Fifo(a.queue, a.ops[t := Putting(v)])
       case Invokes(Dequeue) => a.ops[t] == Free && b == Fifo(a.queue, a.ops[t := Getting])
       case PutReturns => a.ops[t] == Put && b == Fifo(a.queue, a.ops[t := Free])
       case GetReturns(r) => a.ops[t] == Got(r) && b == Fifo(a.queue, a.ops[t := Free])
       case Internal => a == b || TakesEffect(a, t, b)
  }

  /** The one step at which the operation of thread t happens. */
  ghost predicate TakesEffect<T>(a: Fifo<T>, t: nat, b: Fifo<T>)
    requires t < |a.ops|
  {
    match a.ops[t]
    case Putting(v) => b == Fifo(a.queue + [v], a.ops[t := Put])
    case Getting =>
      if a.queue == [] then b == Fifo([], a.ops[t := Got(None)])
      else b == Fifo(a.queue[1..], a.ops[t := Got(Some(a.queue[0]))])
    case _ => false
  }

  // ----- the refinement -----

  function OpOf<T>(m: Mem<T>, pc: PC<T>): Op<T>
    requires Readable(m) && Pointers(m, pc)
  {
    match pc
    case Idle => Free
    case ELock(v) => Putting(v)
    case EReadHead(v) => Putting(v)
    case ESpin(v, _) => Putting(v)
    case ETest(v, _) => Putting(v)
    case ENew(v, _) => Putting(v)
    case EStore(v, _, _) => Putting(v)
    case EAdvance(v, _, _) => Putting(v)
    case EUnlock(v, _) => Putting(v)
    case EFill(v, _) => Putting(v)
    case EClear(v, _) => Putting(v)
    case EXchg(v, _) => Putting(v)
    case ELink(_, _) => Put
    case DFail => Got(None)
    case DTake(_, n) => Got(Some(m.data[n]))
    case DUnlock(_, out) => Got(Some(out))
    case DClear(_, out) => Got(Some(out))
    case DXchg(_, out) => Got(Some(out))
    case DLink(_, _, out) => Got(Some(out))
    case _ => Getting
  }

  function EventOf<T>(pc: PC<T>, c: Call<T>): Event<T> {
    match pc
    case Idle => Invokes(c)
    case ELink(_, _) => PutReturns
    case DFail => GetReturns(None)
    case DLink(_, _, out) => GetReturns(Some(out))
    case _ => Internal
  }

  ghost function Abs<T>(s: State<T>): Fifo<T>
    requires Inv(s)
  {
    Fifo(Contents(s.m), Ops(s.m, s.pcs))
  }

  ghost function Ops<T>(m: Mem<T>, pcs: seq<PC<T>>): seq<Op<T>>
    requires Readable(m) && Locals(m, pcs)
  {
    seq(|pcs|, t requires 0 <= t < |pcs| => assert Local(m, pcs[t]); OpOf(m, pcs[t]))
  }

  /** A step writes at most the value of the node that its thread holds or has reached. */
  lemma DataKept<T>(s: State<T>, t: nat, c: Call<T>, n: nat)
    requires Sound(s.m) && t < |s.pcs| && Pointers(s.m, s.pcs[t]) && IsNode(s.m, n)
    requires s.pcs[t].EFill? ==> n != s.pcs[t].pres
    requires s.pcs[t].DTake? ==> n != s.pcs[t].nextu
    ensures |Step(s, t, c).m.data| >= |s.m.data| && |Step(s, t, c).m.next| >= |s.m.next|
    ensures Step(s, t, c).m.data[n] == s.m.data[n]
  {
  }

  lemma PcsKept<T>(s: State<T>, t: nat, c: Call<T>, u: nat)
    requires Sound(s.m) && t < |s.pcs| && Pointers(s.m, s.pcs[t]) && u < |s.pcs| && u != t
    ensures |Step(s, t, c).pcs| == |s.pcs| && Step(s, t, c).pcs[u] == s.pcs[u]
  {
  }

  /** A step of t leaves the operations of the others as they are. */
  lemma OtherKept<T>(s: State<T>, t: nat, c: Call<T>, u: nat)
    requires Inv(s) && t < |s.pcs| && u < |s.pcs| && u != t && Local(s.m, s.pcs[t]) && Local(s.m, s.pcs[u])
    requires Readable(Step(s, t, c).m) && Pointers(Step(s, t, c).m, s.pcs[u])
    ensures OpOf(Step(s, t, c).m, s.pcs[u]) == OpOf(s.m, s.pcs[u])
  {
    if s.pcs[u].DTake? {
      var n := s.pcs[u].nextu;
      assert n in s.m.used;
      assert s.pcs[t].EFill? ==> Owns(s.pcs)[t] == s.pcs[t].pres;
      DataKept(s, t, c, n);
    }
  }

  lemma OpsMoved<T>(s: State<T>, t: nat, c: Call<T>)
    requires Inv(s) && t < |s.pcs| && Timely(s, t)
    ensures Local(s.m, s.pcs[t]) && Inv(Step(s, t, c)) && t < |Step(s, t, c).pcs|
    ensures Pointers(Step(s, t, c).m, Step(s, t, c).pcs[t])
    ensures Ops(Step(s, t, c).m, Step(s, t, c).pcs)
         == Ops(s.m, s.pcs)[t := OpOf(Step(s, t, c).m, Step(s, t, c).pcs[t])]
  {
    assert Local(s.m, s.pcs[t]);
    StepKeeps(s, t, c);
    forall u | 0 <= u < |s.pcs| && u != t
      ensures |Step(s, t, c).pcs| == |s.pcs| && Ops(Step(s, t, c).m, Step(s, t, c).pcs)[u] == Ops(s.m, s.pcs)[u]
    {
      OpKept(s, t, c, u);
    }
    PcsCount(s, t, c);
    OpsUpdated(s, t, Step(s, t, c));
  }

  lemma PcsCount<T>(s: State<T>, t: nat, c: Call<T>)
    requires Sound(s.m) && t < |s.pcs| && Pointers(s.m, s.pcs[t])
    ensures |Step(s, t, c).pcs| == |s.pcs|
  {
  }

  lemma OpsUpdated<T>(s: State<T>, t: nat, s': State<T>)
    requires Readable(s.m) && Locals(s.m, s.pcs) && Readable(s'.m) && Locals(s'.m, s'.pcs)
    requires t < |s.pcs| == |s'.pcs|
    requires forall u :: 0 <= u < |s.pcs| && u != t ==> Ops(s'.m, s'.pcs)[u] == Ops(s.m, s.pcs)[u]
    ensures Local(s'.m, s'.pcs[t]) && Pointers(s'.m, s'.pcs[t])
    ensures Ops(s'.m, s'.pcs) == Ops(s.m, s.pcs)[t := OpOf(s'.m, s'.pcs[t])]
  {
  }

  lemma OpKept<T>(s: State<T>, t: nat, c: Call<T>, u: nat)
    requires Inv(s) && t < |s.pcs| && Inv(Step(s, t, c)) && u < |s.pcs| && u != t
    ensures |Step(s, t, c).pcs| == |s.pcs|
    ensures Ops(Step(s, t, c).m, Step(s, t, c).pcs)[u] == Ops(s.m, s.pcs)[u]
  {
    var s' := Step(s, t, c);
    PcsKept(s, t, c, u);
    assert Local(s.m, s.pcs[u]) && Local(s'.m, s'.pcs[u]);
    OtherKept(s, t, c, u);
  }

  /** Only line 63 adds a value and only line 81 removes one, and what they do is FIFO. */
  lemma ContentsMoved<T>(s: State<T>, t: nat, c: Call<T>)
    requires Nodes(s.m, s.pcs) && t < |s.pcs| && Local(s.m, s.pcs[t])
    requires Readable(Step(s, t, c).m)
    ensures QueueChange(s.m, s.pcs[t], Contents(s.m), Contents(Step(s, t, c).m))
  {
    var m, pc := s.m, s.pcs[t];
    if pc.EXchg? {
      assert Owns(s.pcs)[t] == pc.pres;
      PushUsedLists(m, pc.pres, pc.v);
    } else if pc.DAdvance? {
      PopUsedLists(m, pc.nextu);
    } else if pc.EFill? {
      assert Owns(s.pcs)[t] == pc.pres;
      WriteLists(m, pc.pres, pc.v);
    } else if pc.DTake? {
      assert pc.nextu !in m.used[1..];
      WriteLists(m, pc.nextu, m.blank);
    } else {
      OtherContents(s, t, c);
    }
  }

  lemma OtherContents<T>(s: State<T>, t: nat, c: Call<T>)
    requires Readable(s.m) && t < |s.pcs| && Pointers(s.m, s.pcs[t])
    requires !s.pcs[t].EXchg? && !s.pcs[t].DAdvance? && !s.pcs[t].EFill? && !s.pcs[t].DTake?
    requires Readable(Step(s, t, c).m)
    ensures Contents(Step(s, t, c).m) == Contents(s.m)
  {
    var m' := Step(s, t, c).m;
    assert m'.used == s.m.used && s.m.data <= m'.data;
  }

  /** What a step from pc does to its own thread's operation. */
  ghost predicate OpChange<T>(m: Mem<T>, pc: PC<T>, c: Call<T>, o: Op<T>, o': Op<T>)
    requires Pointers(m, pc) && Sound(m)
  {
    match pc
    case Idle => o == Free && o' == (match c case Enqueue(v) => Putting(v) case Dequeue => Getting)
    case ELink(_, _) => o == Put && o' == Free
    case DFail => o == Got(None) && o' == Free
    case DLink(_, _, out) => o == Got(Some(out)) && o' == Free
    case EXchg(v, _) => o == Putting(v) && o' == Put
    case DAdvance(_, n) => o == Getting && o' == Got(Some(m.data[n]))
    case DTest(_) => o == Getting && (o' == o || (o' == Got(None) && m.uHead == m.uTail))
    case _ => o' == o
  }

  predicate Dequeuing<T>(pc: PC<T>) {
    pc.DLock? || pc.DTest? || pc.DFail? || pc.DClear? || pc.DXchg? || pc.DLink? || InU(pc)
  }

  lemma EnqueueOpMoved<T>(s: State<T>, t: nat, c: Call<T>)
    requires Readable(s.m) && t < |s.pcs| && Local(s.m, s.pcs[t]) && !Dequeuing(s.pcs[t])
    requires Readable(Step(s, t, c).m) && t < |Step(s, t, c).pcs| && Pointers(Step(s, t, c).m, Step(s, t, c).pcs[t])
    ensures OpChange(s.m, s.pcs[t], c, OpOf(s.m, s.pcs[t]), OpOf(Step(s, t, c).m, Step(s, t, c).pcs[t]))
  {
  }

  lemma SectionOpMoved<T>(s: State<T>, t: nat, c: Call<T>)
    requires Readable(s.m) && t < |s.pcs| && Local(s.m, s.pcs[t]) && InU(s.pcs[t])
    requires Readable(Step(s, t, c).m) && t < |Step(s, t, c).pcs| && Pointers(Step(s, t, c).m, Step(s, t, c).pcs[t])
    ensures OpChange(s.m, s.pcs[t], c, OpOf(s.m, s.pcs[t]), OpOf(Step(s, t, c).m, Step(s, t, c).pcs[t]))
  {
  }

  lemma DequeueOpMoved<T>(s: State<T>, t: nat, c: Call<T>)
    requires Readable(s.m) && t < |s.pcs| && Local(s.m, s.pcs[t]) && Dequeuing(s.pcs[t]) && !InU(s.pcs[t])
    requires Readable(Step(s, t, c).m) && t < |Step(s, t, c).pcs| && Pointers(Step(s, t, c).m, Step(s, t, c).pcs[t])
    ensures OpChange(s.m, s.pcs[t], c, OpOf(s.m, s.pcs[t]), OpOf(Step(s, t, c).m, Step(s, t, c).pcs[t]))
  {
  }

  ghost predicate QueueChange<T>(m: Mem<T>, pc: PC<T>, q: seq<T>, q': seq<T>)
    requires Pointers(m, pc) && Sound(m)
  {
    match pc
    case EXchg(v, _) => q' == q + [v]
    case DAdvance(_, n) => q == [m.data[n]] + q'
    case _ => q' == q
  }

  lemma ChangesAreFifo<T>(m: Mem<T>, pc: PC<T>, c: Call<T>, a: Fifo<T>, t: nat, q': seq<T>, o': Op<T>)
    requires Pointers(m, pc) && Sound(m) && t < |a.ops|
    requires OpChange(m, pc, c, a.ops[t], o') && QueueChange(m, pc, a.queue, q')
    requires m.uHead == m.uTail ==> a.queue == []
    ensures FifoStep(a, t, EventOf(pc, c), Fifo(q', a.ops[t := o']))
  {
    if o' == a.ops[t] {
      assert a.ops[t := o'] == a.ops;
    }
  }

  /** Every timely step is a step of the atomic FIFO. */
  lemma StepRefines<T>(s: State<T>, t: nat, c: Call<T>)
    requires Inv(s) && t < |s.pcs| && Timely(s, t)
    ensures Local(s.m, s.pcs[t]) && Inv(Step(s, t, c))
    ensures FifoStep(Abs(s), t, EventOf(s.pcs[t], c), Abs(Step(s, t, c)))
  {
    OpsMoved(s, t, c);
    ContentsMoved(s, t, c);
    OpMoved(s, t, c);
    EmptyIffHeadIsTail(s.m);
    ChangesAreFifo(s.m, s.pcs[t], c, Abs(s), t, Abs(Step(s, t, c)).queue, Abs(Step(s, t, c)).ops[t]);
  }

  lemma OpMoved<T>(s: State<T>, t: nat, c: Call<T>)
    requires Readable(s.m) && t < |s.pcs| && Local(s.m, s.pcs[t])
    requires Readable(Step(s, t, c).m) && t < |Step(s, t, c).pcs| && Pointers(Step(s, t, c).m, Step(s, t, c).pcs[t])
    ensures OpChange(s.m, s.pcs[t], c, OpOf(s.m, s.pcs[t]), OpOf(Step(s, t, c).m, Step(s, t, c).pcs[t]))
  {
    if InU(s.pcs[t]) {
      SectionOpMoved(s, t, c);
    } else if Dequeuing(s.pcs[t]) {
      DequeueOpMoved(s, t, c);
    } else {
      EnqueueOpMoved(s, t, c);
    }
  }

  /** The test of line 76 is exact: head equals tail just when the queue is empty. */
  lemma EmptyIffHeadIsTail<T>(m: Mem<T>)
    requires Lists(m)
    ensures m.uHead == m.uTail <==> Contents(m) == []
  {
    assert m.uHead == m.uTail ==> |m.used| == 1;
    assert |Contents(m)| == |m.used| - 1;
  }

  // ----- whole runs -----

  datatype Turn<T> = Turn(t: nat, c: Call<T>)

  ghost predicate Moves<T>(s: State<T>, turn: Turn<T>, s': State<T>) {
    && turn.t < |s.pcs| && Sound(s.m) && Pointers(s.m, s.pcs[turn.t])
    && s' == Step(s, turn.t, turn.c)
  }

  /** Any interleaving: the threads take turns in any order, each idle one making any call. */
  ghost predicate Run<T>(states: seq<State<T>>, turns: seq<Turn<T>>) {
    && |states| == |turns| + 1
    && states[0] == Init(|states[0].pcs|, states[0].m.blank)
    && forall i :: 0 <= i < |turns| ==> Moves(states[i], turns[i], states[i + 1])
  }

  /** Line 62 never clears a node into which a link of line 86 is still to be written. */
  ghost predicate TimelyRun<T>(states: seq<State<T>>, turns: seq<Turn<T>>) {
    && Run(states, turns)
    && forall i :: 0 <= i < |turns| && turns[i].t < |states[i].pcs| ==> Timely(states[i], turns[i].t)
  }

  lemma InitInv<T>(threads: nat, blank: T)
    ensures Inv(Init(threads, blank))
    ensures Abs(Init(threads, blank)) == Fifo([], seq(threads, _ => Free))
  {
    var s := Init(threads, blank);
    assert Owns(s.pcs) == seq(threads, _ => NULL);
    assert Froms(s.pcs) == seq(threads, _ => NULL);
    assert Contents(s.m) == [];
  }

  lemma {:induction false} RunInv<T>(states: seq<State<T>>, turns: seq<Turn<T>>, i: nat)
    requires TimelyRun(states, turns) && i < |states|
    ensures Inv(states[i])
  {
    if i == 0 {
      InitInv(|states[0].pcs|, states[0].m.blank);
    } else {
      RunInv(states, turns, i - 1);
      assert Moves(states[i - 1], turns[i - 1], states[i]);
      StepKeeps(states[i - 1], turns[i - 1].t, turns[i - 1].c);
    }
  }

  /** The turn from s to s' is a step of the atomic FIFO, as its client sees it. */
  ghost predicate FifoAt<T>(s: State<T>, turn: Turn<T>, s': State<T>) {
    && Inv(s) && Inv(s') && turn.t < |s.pcs|
    && FifoStep(Abs(s), turn.t, EventOf(s.pcs[turn.t], turn.c), Abs(s'))
  }

  /**
   * Linearizability. In every timely interleaving of any number of threads, the queue
   * starts as an empty FIFO and each step is a step of the atomic FIFO with the same
   * calls and the same results: an enqueue adds its value, and a dequeue takes the
   * oldest value or finds the FIFO empty, at one instant between its call and return.
   */
  lemma Linearizable<T>(states: seq<State<T>>, turns: seq<Turn<T>>)
    requires TimelyRun(states, turns)
    ensures Inv(states[0]) && Abs(states[0]).queue == [] && forall o :: o in Abs(states[0]).ops ==> o == Free
    ensures forall i :: 0 <= i < |turns| ==> FifoAt(states[i], turns[i], states[i + 1])
  {
    InitInv(|states[0].pcs|, states[0].m.blank);
    forall i | 0 <= i < |turns|
      ensures FifoAt(states[i], turns[i], states[i + 1])
    {
      RunInv(states, turns, i);
      assert Moves(states[i], turns[i], states[i + 1]);
      StepRefines(states[i], turns[i].t, turns[i].c);
    }
  }

  /**
   * Values leave exactly once and in the order of the uTail_ exchanges: at every instant
   * what has been got, followed by what is in the queue, is what has been put.
   */
  lemma GotIsPrefixOfPut<T>(states: seq<State<T>>, turns: seq<Turn<T>>, i: nat)
    requires TimelyRun(states, turns) && i < |states|
    ensures Inv(states[i]) && states[i].m.got <= states[i].m.put
    ensures states[i].m.put == states[i].m.got + Contents(states[i].m)
  {
    RunInv(states, turns, i);
  }

  /** At every instant a node is in at most one list or held by at most one thread. */
  lemma NodesApart<T>(states: seq<State<T>>, turns: seq<Turn<T>>, i: nat, n: nat)
    requires TimelyRun(states, turns) && i < |states| && IsNode(states[i].m, n)
    ensures var m, owns := states[i].m, Owns(states[i].pcs);
      && (n in m.used ==> n !in m.spare && n !in owns)
      && (n in m.spare ==> n !in m.used && n !in owns)
      && (forall t, u :: 0 <= t < |owns| && 0 <= u < |owns| && owns[t] == owns[u] == n ==> t == u)
  {
    RunInv(states, turns, i);
  }

  /**
   * The spin loops wait only for a link that another thread has yet to write: a dequeuer
   * that goes round, having found neither a successor (line 74) nor an empty queue (line 76),
   * is kept by a thread between lines 63 and 64; likewise an enqueuer by one between lines 85
   * and 86.
   */
  lemma SpinsWaitForALink<T>(s: State<T>, t: nat, c: Call<T>)
    requires Inv(s) && t < |s.pcs|
    ensures Sound(s.m) && Pointers(s.m, s.pcs[t]) && t < |Step(s, t, c).pcs|
    ensures s.pcs[t].DTest? && s.m.next[s.m.uHead] == NULL && !Step(s, t, c).pcs[t].DFail?
      ==> exists u :: 0 <= u < |s.pcs| && s.pcs[u].ELink? && s.pcs[u].preu == s.m.uHead
    ensures s.pcs[t].ETest? && s.m.next[s.m.sHead] == NULL && !Step(s, t, c).pcs[t].ENew?
      ==> exists u :: 0 <= u < |s.pcs| && s.pcs[u].DLink? && s.pcs[u].pres == s.m.sHead
  {
    assert Local(s.m, s.pcs[t]);
    if s.pcs[t].DTest? {
      DequeuerGoesRound(s, t, c);
      if s.m.next[s.m.uHead] == NULL && s.m.uHead != s.m.uTail {
        LinkOfHead(s);
      }
    } else if s.pcs[t].ETest? {
      EnqueuerGoesRound(s, t, c);
      if s.m.next[s.m.sHead] == NULL && s.m.sHead != s.m.sTail {
        LinkOfSpareHead(s, t);
      }
    }
  }

  lemma DequeuerGoesRound<T>(s: State<T>, t: nat, c: Call<T>)
    requires Sound(s.m) && t < |s.pcs| && s.pcs[t].DTest? && Pointers(s.m, s.pcs[t])
    ensures Step(s, t, c).pcs[t].DFail? <==> s.m.uHead == s.m.uTail
  {
  }

  lemma EnqueuerGoesRound<T>(s: State<T>, t: nat, c: Call<T>)
    requires Sound(s.m) && t < |s.pcs| && s.pcs[t].ETest? && Pointers(s.m, s.pcs[t])
    ensures Step(s, t, c).pcs[t].ENew? <==> s.m.sHead == s.m.sTail
  {
  }

  lemma LinkOfHead<T>(s: State<T>)
    requires Inv(s) && s.m.next[s.m.uHead] == NULL && s.m.uHead != s.m.uTail
    ensures exists u :: 0 <= u < |s.pcs| && s.pcs[u].ELink? && s.pcs[u].preu == s.m.uHead
  {
    var u := Awaited(s.m.next, Froms(s.pcs), Tos(s.pcs), s.m.used);
    assert Local(s.m, s.pcs[u]);
    NotSpare(s.m, s.pcs[u]);
  }

  lemma LinkOfSpareHead<T>(s: State<T>, t: nat)
    requires Inv(s) && t < |s.pcs| && s.pcs[t].ETest? && s.m.next[s.m.sHead] == NULL && s.m.sHead != s.m.sTail
    ensures exists u :: 0 <= u < |s.pcs| && s.pcs[u].DLink? && s.pcs[u].pres == s.m.sHead
  {
    assert Local(s.m, s.pcs[t]);
    var u := Awaited(s.m.next, Froms(s.pcs), Tos(s.pcs), s.m.spare);
    assert Local(s.m, s.pcs[u]);
    NotSpare(s.m, s.pcs[u]);
  }

  lemma Awaited(next: seq<nat>, froms: seq<nat>, tos: seq<nat>, l: seq<nat>) returns (u: nat)
    requires Linked(next, froms, tos, l) && |froms| == |tos| && |l| >= 2
    requires l[0] < |next| && next[l[0]] == NULL && NULL !in l
    ensures u < |froms| && froms[u] == l[0]
  {
    assert l[1] in l;
    assert Pending(froms, tos, l[0], l[1]);
    u :| 0 <= u < |froms| && froms[u] == l[0] && tos[u] == l[1];
  }

  lemma NotSpare<T>(m: Mem<T>, pc: PC<T>)
    requires Lists(m) && Local(m, pc) && From(pc) != NULL
    ensures From(pc) in m.used ==> pc.ELink?
    ensures From(pc) in m.spare ==> pc.DLink?
  {
  }

  // ----- the clearing of line 62 -----

  /** Some lists and histories make the memory and the threads' places satisfy the invariant. */
  ghost predicate Consistent<T(!new)>(s: State<T>) {
    exists used: seq<nat>, spare: seq<nat>, put: seq<T>, got: seq<T> :: Inv(Recast(s, used, spare, put, got))
  }

  function Recast<T>(s: State<T>, used: seq<nat>, spare: seq<nat>, put: seq<T>, got: seq<T>): State<T> {
    s.(m := s.m.(used := used, spare := spare, put := put, got := got))
  }

  /** Line 62 keeps the invariant, for some lists, exactly when it is timely. */
  lemma ClearKeepsIffTimely<T(!new)>(s: State<T>, t: nat, c: Call<T>)
    requires Inv(s) && t < |s.pcs| && s.pcs[t].EClear?
    ensures Sound(s.m) && Pointers(s.m, s.pcs[t])
    ensures Inv(Step(s, t, c)) <==> Timely(s, t)
    ensures Consistent(Step(s, t, c)) <==> Timely(s, t)
  {
    assert Local(s.m, s.pcs[t]);
    var s' := Step(s, t, c);
    if Timely(s, t) {
      StepKeeps(s, t, c);
      assert Inv(Recast(s', s'.m.used, s'.m.spare, s'.m.put, s'.m.got));
    } else {
      var u :| 0 <= u < |s.pcs| && s.pcs[u].DLink? && s.pcs[u].pres == s.pcs[t].pres;
      assert s'.pcs[u] == s.pcs[u] && Own(s'.pcs[t]) == s'.pcs[u].pres;
      assert !Owed(s'.pcs);
    }
  }

  /**
   * The runs that keep the invariant throughout, for the lists of the history or for any
   * others at each instant, are exactly the timely ones.
   */
  lemma InvariantIffTimely<T(!new)>(states: seq<State<T>>, turns: seq<Turn<T>>)
    requires Run(states, turns)
    ensures (forall i :: 0 <= i < |states| ==> Inv(states[i])) <==> TimelyRun(states, turns)
    ensures (forall i :: 0 <= i < |states| ==> Consistent(states[i])) <==> TimelyRun(states, turns)
  {
    if TimelyRun(states, turns) {
      forall i | 0 <= i < |states|
        ensures Inv(states[i]) && Consistent(states[i])
      {
        RunInv(states, turns, i);
        var m := states[i].m;
        assert Inv(Recast(states[i], m.used, m.spare, m.put, m.got));
      }
    } else {
      var i := FirstLate(states, turns);
      ClearKeepsIffTimely(states[i], turns[i].t, turns[i].c);
      assert Moves(states[i], turns[i], states[i + 1]);
    }
  }

  /** A run that is not timely is so from some turn on, and keeps the invariant up to there. */
  lemma FirstLate<T>(states: seq<State<T>>, turns: seq<Turn<T>>) returns (i: nat)
    requires Run(states, turns) && !TimelyRun(states, turns)
    ensures i < |turns| && turns[i].t < |states[i].pcs| && !Timely(states[i], turns[i].t) && Inv(states[i])
  {
    InitInv(|states[0].pcs|, states[0].m.blank);
    i := 0;
    while turns[i].t >= |states[i].pcs| || Timely(states[i], turns[i].t)
      invariant i < |turns| && Inv(states[i])
      invariant forall k :: 0 <= k < i && turns[k].t < |states[k].pcs| ==> Timely(states[k], turns[k].t)
      decreases |turns| - i
    {
      assert Moves(states[i], turns[i], states[i + 1]);
      StepKeeps(states[i], turns[i].t, turns[i].c);
      i := i + 1;
      if i == |turns| {
        assert false;
      }
    }
  }

  // ----- what a late link does -----

  /**
   * Thread t clears its node and exchanges it onto the used list, at lines 62 and 63, and
   * then u writes its link, at line 86.
   */
  function ThenLinks<T>(s: State<T>, t: nat, u: nat, c: Call<T>): State<T>
    requires Sound(s.m) && t < |s.pcs| && u < |s.pcs| && s.pcs[t].EClear? && s.pcs[u].DLink?
    requires Pointers(s.m, s.pcs[t]) && Pointers(s.m, s.pcs[u])
  {
    Step(Step(Step(s, t, c), t, c), u, c)
  }

  /**
   * A link of line 86 that comes after line 62 has cleared its node gives the last node of
   * the queue a successor that no enqueue has put; no other one does.
   */
  lemma LateLinkFollowsTail<T>(s: State<T>, t: nat, u: nat, c: Call<T>)
    requires Inv(s) && t < |s.pcs| && u < |s.pcs| && s.pcs[t].EClear? && s.pcs[u].DLink?
    ensures Sound(s.m) && Pointers(s.m, s.pcs[t]) && Pointers(s.m, s.pcs[u])
    ensures var s3 := ThenLinks(s, t, u, c);
      && s3.m.uTail == s.pcs[t].pres && s3.m.uTail < |s3.m.next|
      && (s3.m.next[s3.m.uTail] != NULL <==> s.pcs[u].pres == s.pcs[t].pres)
  {
    assert Local(s.m, s.pcs[t]) && Local(s.m, s.pcs[u]);
  }

  /** Five turns of one thread. */
  function Five<T>(s: State<T>, d: nat, c: Call<T>): State<T>
    requires d < |s.pcs| && s.pcs[d].Idle? && !s.uLk && c.Dequeue? && Sound(s.m) && IsNode(s.m, s.m.next[s.m.uHead])
  {
    Step(Step(Step(Step(Step(s, d, c), d, c), d, c), d, c), d, c)
  }

  /** What a client then sees: a dequeue of the empty queue takes the value of that successor. */
  lemma EmptyQueueYieldsValue<T>(s: State<T>, d: nat, c: Call<T>)
    requires d < |s.pcs| && s.pcs[d].Idle? && !s.uLk && c.Dequeue? && Sound(s.m)
    requires s.m.put == s.m.got && s.m.uHead == s.m.uTail && IsNode(s.m, s.m.next[s.m.uTail])
    ensures Five(s, d, c).m.put == s.m.put
    ensures Five(s, d, c).m.got == s.m.got + [s.m.data[s.m.next[s.m.uTail]]]
  {
  }
}
