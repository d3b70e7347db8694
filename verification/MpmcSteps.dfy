/**
 * The queue as an interleaved machine: any number of threads, one step per atomic
 * operation of `enqueue` and `dequeue`.
 *
 * Nodes are numbered in the order of their allocation and 0 is the null pointer, so a
 * node indexes `next` and `data`. `used` and `spare` are history variables: the nodes
 * of each list in the order in which they were exchanged onto its tail. A node is off the
 * spare list once a thread is bound to take it, a little before line 59 moves the head; and
 * the store of line 55 starts the list anew, whatever was behind the node that it takes. No
 * step reads them, nor `put` (the values in the order of the uTail_ exchanges) and `got`
 * (the values in the order of the uHead_ advances).
 */
module MpmcSteps {
  import opened Sequences

  const NULL: nat := 0

  datatype Call<T> = Enqueue(value: T) | Dequeue

  /** Where a thread is; the comment gives the line about to execute. */
  datatype PC<T> =
    | Idle
    | ELock(v: T)                               // 48
    | EReadHead(v: T)                           // 49
    | ESpin(v: T, pres: nat)                    // 50
    | ETest(v: T, pres: nat)                    // 52
    | ENew(v: T, pres: nat)                     // 54
    | EStore(v: T, pres: nat, nexts: nat)       // 55
    | EAdvance(v: T, pres: nat, nexts: nat)     // 59
    | EUnlock(v: T, pres: nat)                  // 60
    | EFill(v: T, pres: nat)                    // 61
    | EClear(v: T, pres: nat)                   // 62
    | EXchg(v: T, pres: nat)                    // 63
    | ELink(preu: nat, pres: nat)               // 64
    | DLock                                     // 72
    | DReadHead                                 // 73
    | DSpin(preu: nat)                          // 74
    | DTest(preu: nat)                          // 76
    | DFail                                     // 78
    | DAdvance(preu: nat, nextu: nat)           // 81
    | DTake(preu: nat, nextu: nat)              // 82
    | DUnlock(preu: nat, out: T)                // 83
    | DClear(preu: nat, out: T)                 // 84
    | DXchg(preu: nat, out: T)                  // 85
    | DLink(pres: nat, preu: nat, out: T)       // 86

  datatype Mem<T> = Mem(
    next: seq<nat>, data: seq<T>,
    uHead: nat, uTail: nat, sHead: nat, sTail: nat,
    blank: T,                                   // a default-constructed or moved-from value
    used: seq<nat>, spare: seq<nat>, put: seq<T>, got: seq<T>)

  datatype State<T> = State(m: Mem<T>, uLk: bool, sLk: bool, pcs: seq<PC<T>>)

  /** The constructor: a dummy node in each list. */
  function Init<T>(threads: nat, blank: T): State<T> {
    State(Mem([NULL, NULL, NULL], [blank, blank, blank], 2, 2, 1, 1, blank, [2], [1], [], []),
          false, false, seq(threads, _ => Idle))
  }

  predicate IsNode<T>(m: Mem<T>, n: nat) {
    1 <= n < |m.next|
  }

  /** What a step needs in order to read and write memory. */
  predicate Sound<T>(m: Mem<T>) {
    && |m.data| == |m.next|
    && IsNode(m, m.uHead) && IsNode(m, m.uTail) && IsNode(m, m.sHead) && IsNode(m, m.sTail)
  }

  predicate Readable<T>(m: Mem<T>) {
    && Sound(m)
    && m.used != [] && m.spare != []
    && (forall k :: 0 <= k < |m.used| ==> IsNode(m, m.used[k]))
    && (forall k :: 0 <= k < |m.spare| ==> IsNode(m, m.spare[k]))
    && m.used[0] == m.uHead && m.used[|m.used| - 1] == m.uTail
    && m.spare[|m.spare| - 1] == m.sTail
  }

  /** The nodes a thread names are allocated. */
  predicate Pointers<T>(m: Mem<T>, pc: PC<T>) {
    match pc
    case ESpin(_, p) => IsNode(m, p)
    case ETest(_, p) => IsNode(m, p)
    case ENew(_, p) => IsNode(m, p)
    case EStore(_, p, q) => IsNode(m, p) && IsNode(m, q)
    case EAdvance(_, p, q) => IsNode(m, p) && IsNode(m, q)
    case EUnlock(_, p) => IsNode(m, p)
    case EFill(_, p) => IsNode(m, p)
    case EClear(_, p) => IsNode(m, p)
    case EXchg(_, p) => IsNode(m, p)
    case ELink(p, q) => IsNode(m, p) && IsNode(m, q)
    case DSpin(p) => IsNode(m, p)
    case DTest(p) => IsNode(m, p)
    case DAdvance(p, q) => IsNode(m, p) && IsNode(m, q)
    case DTake(p, q) => IsNode(m, p) && IsNode(m, q)
    case DUnlock(p, _) => IsNode(m, p)
    case DClear(p, _) => IsNode(m, p)
    case DXchg(p, _) => IsNode(m, p)
    case DLink(p, q, _) => IsNode(m, p) && IsNode(m, q)
    case _ => true
  }

  /** Thread t takes its next atomic step; `c` is the call an idle thread makes. */
  function Step<T>(s: State<T>, t: nat, c: Call<T>): State<T>
    requires Sound(s.m) && t < |s.pcs| && Pointers(s.m, s.pcs[t])
  {
    var m := s.m;
    match s.pcs[t]
    case Idle =>
      At(s, t, match c case Enqueue(v) => ELock(v) case Dequeue => DLock)
    case ELock(v) =>
      if s.sLk then s else At(s.(sLk := true), t, EReadHead(v))
    case EReadHead(v) =>
      At(s, t, ESpin(v, m.sHead))
    case ESpin(v, pres) =>
      if m.next[pres] != NULL then At(s.(m := PopSpare(m)), t, EAdvance(v, pres, m.next[pres]))
      else At(s, t, ETest(v, pres))
    case ETest(v, pres) =>
      At(s, t, if m.sHead == m.sTail then ENew(v, pres) else ESpin(v, pres))
    case ENew(v, pres) =>
      At(s.(m := Allocate(m)), t, EStore(v, pres, |m.next|))
    case EStore(v, pres, nexts) =>
      At(s.(m := RenewSpare(m, nexts)), t, EAdvance(v, pres, nexts))
    case EAdvance(v, pres, nexts) =>
      At(s.(m := m.(sHead := nexts)), t, EUnlock(v, pres))
    case EUnlock(v, pres) =>
      At(s.(sLk := false), t, EFill(v, pres))
    case EFill(v, pres) =>
      At(s.(m := m.(data := m.data[pres := v])), t, EClear(v, pres))
    case EClear(v, pres) =>
      At(s.(m := SetNext(m, pres, NULL)), t, EXchg(v, pres))
    case EXchg(v, pres) =>
      At(s.(m := PushUsed(m, pres, v)), t, ELink(m.uTail, pres))
    case ELink(preu, pres) =>
      At(s.(m := SetNext(m, preu, pres)), t, Idle)
    case DLock =>
      if s.uLk then s else At(s.(uLk := true), t, DReadHead)
    case DReadHead =>
      At(s, t, DSpin(m.uHead))
    case DSpin(preu) =>
      At(s, t, if m.next[preu] != NULL then DAdvance(preu, m.next[preu]) else DTest(preu))
    case DTest(preu) =>
      At(s, t, if m.uHead == m.uTail then DFail else DSpin(preu))
    case DFail =>
      At(s.(uLk := false), t, Idle)
    case DAdvance(preu, nextu) =>
      At(s.(m := PopUsed(m, nextu)), t, DTake(preu, nextu))
    case DTake(preu, nextu) =>
      At(s.(m := m.(data := m.data[nextu := m.blank])), t, DUnlock(preu, m.data[nextu]))
    case DUnlock(preu, out) =>
      At(s.(uLk := false), t, DClear(preu, out))
    case DClear(preu, out) =>
      At(s.(m := SetNext(m, preu, NULL)), t, DXchg(preu, out))
    case DXchg(preu, out) =>
      At(s.(m := PushSpare(m, preu)), t, DLink(m.sTail, preu, out))
    case DLink(pres, preu, out) =>
      At(s.(m := SetNext(m, pres, preu)), t, Idle)
  }

  function At<T>(s: State<T>, t: nat, pc: PC<T>): State<T>
    requires t < |s.pcs|
  {
    s.(pcs := s.pcs[t := pc])
  }

  function Allocate<T>(m: Mem<T>): Mem<T> {
    m.(next := m.next + [NULL], data := m.data + [m.blank])
  }

  function PushSpare<T>(m: Mem<T>, n: nat): Mem<T> {
    m.(sTail := n, spare := m.spare + [n])
  }

  function PopSpare<T>(m: Mem<T>): Mem<T> {
    m.(spare := Rest(m.spare))
  }

  function RenewSpare<T>(m: Mem<T>, n: nat): Mem<T> {
    m.(sTail := n, spare := [n])
  }

  function PushUsed<T>(m: Mem<T>, n: nat, v: T): Mem<T> {
    m.(uTail := n, used := m.used + [n], put := m.put + [v])
  }

  function PopUsed<T>(m: Mem<T>, n: nat): Mem<T>
    requires n < |m.data|
  {
    m.(uHead := n, used := Rest(m.used), got := m.got + [m.data[n]])
  }

  function Rest<A>(l: seq<A>): seq<A> {
    if l == [] then [] else l[1..]
  }

  function SetNext<T>(m: Mem<T>, n: nat, to: nat): Mem<T>
    requires n < |m.next|
  {
    m.(next := m.next[n := to])
  }

  /**
   * The store of line 55 replaces the very tail that line 52 compared with. It fails
   * only if an exchange of line 85 has landed in between.
   */
  predicate Clean<T>(s: State<T>, t: nat)
    requires t < |s.pcs|
  {
    s.pcs[t].EStore? ==> s.m.sTail == s.pcs[t].pres
  }

  /** Some thread is still to write a link of line 86 into p. */
  ghost predicate Owing<T>(pcs: seq<PC<T>>, p: nat) {
    exists u :: 0 <= u < |pcs| && pcs[u].DLink? && pcs[u].pres == p
  }

  /** Line 62 does not clear a node into which a link of line 86 is still to be written. */
  ghost predicate Timely<T>(s: State<T>, t: nat)
    requires t < |s.pcs|
  {
    s.pcs[t].EClear? ==> !Owing(s.pcs, s.pcs[t].pres)
  }

  // ----- the invariant -----

  /** The node a thread holds privately, or NULL. */
  function Own<T>(pc: PC<T>): nat {
    match pc
    case EStore(_, _, q) => q
    case EAdvance(_, p, _) => p
    case EUnlock(_, p) => p
    case EFill(_, p) => p
    case EClear(_, p) => p
    case EXchg(_, p) => p
    case DTake(p, _) => p
    case DUnlock(p, _) => p
    case DClear(p, _) => p
    case DXchg(p, _) => p
    case _ => NULL
  }

  /** The node a thread is about to link to its successor, or NULL. */
  function From<T>(pc: PC<T>): nat {
    match pc
    case ELink(p, _) => p
    case DLink(p, _, _) => p
    case _ => NULL
  }

  /** The successor of that node. */
  function To<T>(pc: PC<T>): nat {
    match pc
    case ELink(_, q) => q
    case DLink(_, q, _) => q
    case _ => NULL
  }

  predicate InS<T>(pc: PC<T>) {
    pc.EReadHead? || pc.ESpin? || pc.ETest? || pc.ENew? || pc.EStore? || pc.EAdvance? || pc.EUnlock?
  }

  predicate InU<T>(pc: PC<T>) {
    pc.DReadHead? || pc.DSpin? || pc.DTest? || pc.DFail? || pc.DAdvance? || pc.DTake? || pc.DUnlock?
  }

  /** Each spin lock has at most one thread in its section, and is taken exactly while one is. */
  ghost predicate Locks<T>(s: State<T>) {
    SpareLock(s) && UsedLock(s)
  }

  ghost predicate SpareLock<T>(s: State<T>) {
    && (s.sLk <==> exists t :: 0 <= t < |s.pcs| && InS(s.pcs[t]))
    && (forall t, u :: 0 <= t < |s.pcs| && 0 <= u < |s.pcs| && t != u ==> !(InS(s.pcs[t]) && InS(s.pcs[u])))
  }

  ghost predicate UsedLock<T>(s: State<T>) {
    && (s.uLk <==> exists t :: 0 <= t < |s.pcs| && InU(s.pcs[t]))
    && (forall t, u :: 0 <= t < |s.pcs| && 0 <= u < |s.pcs| && t != u ==> !(InU(s.pcs[t]) && InU(s.pcs[u])))
  }

  /** The lists end, repeat no node and share none; the queue holds what was put and not got. */
  ghost predicate Lists<T>(m: Mem<T>) {
    && Readable(m)
    && m.next[m.uTail] == NULL && m.next[m.sTail] == NULL
    && Distinct(m.used) && Distinct(m.spare)
    && (forall n :: n in m.used ==> n !in m.spare)
    && m.put == m.got + Contents(m)
  }

  /** What a thread's place in the code says about the nodes it names. */
  ghost predicate Local<T>(m: Mem<T>, pc: PC<T>)
    requires Readable(m)
  {
    && Pointers(m, pc)
    && match pc
       case ESpin(_, p) => p == m.sHead == m.spare[0]
       case ETest(_, p) => p == m.sHead == m.spare[0]
       case ENew(_, p) => p == m.sHead == m.spare[0]
       case EStore(_, p, q) => p == m.sHead == m.spare[0] && m.next[q] == NULL
       case EAdvance(_, p, q) => p == m.sHead && q == m.spare[0]
       case EClear(v, p) => m.data[p] == v
       case EXchg(v, p) => m.data[p] == v && m.next[p] == NULL
       case DXchg(p, _) => m.next[p] == NULL
       case ELink(p, q) => m.next[p] == NULL && Adjacent(m.used, p, q)
       case DLink(p, q, _) => m.next[p] == NULL && p !in m.used && (p in m.spare ==> Adjacent(m.spare, p, q))
       case DSpin(p) => p == m.uHead
       case DTest(p) => p == m.uHead
       case DAdvance(p, q) => p == m.uHead && m.next[p] == q && |m.used| >= 2 && m.used[1] == q
       case DTake(p, q) => q == m.uHead && m.got != [] && m.got[|m.got| - 1] == m.data[q]
       case _ => true
  }

  ghost predicate Locals<T>(m: Mem<T>, pcs: seq<PC<T>>)
    requires Readable(m)
  {
    forall t :: 0 <= t < |pcs| ==> Local(m, pcs[t])
  }

  function Owns<T>(pcs: seq<PC<T>>): seq<nat> {
    seq(|pcs|, t requires 0 <= t < |pcs| => Own(pcs[t]))
  }

  function Froms<T>(pcs: seq<PC<T>>): seq<nat> {
    seq(|pcs|, t requires 0 <= t < |pcs| => From(pcs[t]))
  }

  function Tos<T>(pcs: seq<PC<T>>): seq<nat> {
    seq(|pcs|, t requires 0 <= t < |pcs| => To(pcs[t]))
  }

  /** No two threads name the same node, NULL apart. */
  ghost predicate Sole(nodes: seq<nat>) {
    forall t, u :: 0 <= t < |nodes| && 0 <= u < |nodes| && t != u && nodes[t] != NULL ==> nodes[t] != nodes[u]
  }

  /** A node held by a thread is in no list. */
  ghost predicate Private(used: seq<nat>, spare: seq<nat>, owns: seq<nat>) {
    forall t :: 0 <= t < |owns| && owns[t] != NULL ==> owns[t] !in used && owns[t] !in spare
  }

  /** Every allocated node is in one of the lists or held by a thread: none is lost. */
  ghost predicate Accounted(count: nat, used: seq<nat>, spare: seq<nat>, owns: seq<nat>) {
    forall n :: 1 <= n < count ==> n in used || n in spare || n in owns
  }

  ghost predicate Pending(froms: seq<nat>, tos: seq<nat>, p: nat, q: nat) {
    exists t :: 0 <= t < |froms| && t < |tos| && froms[t] == p && tos[t] == q
  }

  /** Neighbours are linked, or some thread is about to link them. */
  ghost predicate Linked(next: seq<nat>, froms: seq<nat>, tos: seq<nat>, l: seq<nat>) {
    forall k :: 0 <= k < |l| - 1 ==>
      l[k] < |next| && (next[l[k]] == l[k + 1] || (next[l[k]] == NULL && Pending(froms, tos, l[k], l[k + 1])))
  }

  function Values<T>(data: seq<T>, l: seq<nat>): (vs: seq<T>)
    requires forall k :: 0 <= k < |l| ==> l[k] < |data|
  {
    seq(|l|, k requires 0 <= k < |l| => data[l[k]])
  }

  /** The values in the queue, oldest first. */
  function Contents<T>(m: Mem<T>): seq<T>
    requires Readable(m)
  {
    Values(m.data, m.used[1..])
  }

  /** The nodes and the threads' hold on them. */
  ghost predicate Nodes<T>(m: Mem<T>, pcs: seq<PC<T>>) {
    && Lists(m)
    && Locals(m, pcs)
    && Holds(m, Owns(pcs))
    && Links(m, Froms(pcs), Tos(pcs))
  }

  ghost predicate Holds<T>(m: Mem<T>, owns: seq<nat>) {
    Sole(owns) && Private(m.used, m.spare, owns)
  }

  ghost predicate Links<T>(m: Mem<T>, froms: seq<nat>, tos: seq<nat>) {
    && |froms| == |tos|
    && Sole(froms)
    && Linked(m.next, froms, tos, m.used)
    && Linked(m.next, froms, tos, m.spare)
  }

  /** The thread is between taking a spare node and clearing its link, at lines 59 to 62. */
  predicate Early<T>(pc: PC<T>) {
    pc.EAdvance? || pc.EUnlock? || pc.EFill? || pc.EClear?
  }

  /** A link that is still to be written into a thread's node comes before the thread clears it. */
  ghost predicate Owed<T>(pcs: seq<PC<T>>) {
    forall t, u :: 0 <= t < |pcs| && 0 <= u < |pcs| && pcs[u].DLink? && Own(pcs[t]) == pcs[u].pres ==> Early(pcs[t])
  }

  /** sHead_ is the first spare node, or some thread is about to make it so. */
  ghost predicate Head<T>(m: Mem<T>, pcs: seq<PC<T>>) {
    m.spare != [] && (m.sHead == m.spare[0] || exists t :: 0 <= t < |pcs| && pcs[t].EAdvance?)
  }

  ghost predicate Inv<T>(s: State<T>) {
    Nodes(s.m, s.pcs) && Owed(s.pcs) && Head(s.m, s.pcs) && Locks(s)
  }

  // ----- what one thread's move does to the holds and the links -----

  lemma Moved<T>(pcs: seq<PC<T>>, t: nat, pc: PC<T>)
    requires t < |pcs|
    ensures Owns(pcs[t := pc]) == Owns(pcs)[t := Own(pc)]
    ensures Froms(pcs[t := pc]) == Froms(pcs)[t := From(pc)]
    ensures Tos(pcs[t := pc]) == Tos(pcs)[t := To(pc)]
  {
  }

  lemma InUpdated(l: seq<nat>, t: nat, x: nat, n: nat)
    requires t < |l| && n in l && n != l[t]
    ensures n in l[t := x]
  {
    var u :| 0 <= u < |l| && l[u] == n;
    assert l[t := x][u] == n;
  }

  lemma PendingUpdated(froms: seq<nat>, tos: seq<nat>, t: nat, f: nat, g: nat, p: nat, q: nat)
    requires |froms| == |tos| && t < |froms| && Pending(froms, tos, p, q) && p != froms[t]
    ensures Pending(froms[t := f], tos[t := g], p, q)
  {
    var u :| 0 <= u < |froms| && froms[u] == p && tos[u] == q;
    assert froms[t := f][u] == p && tos[t := g][u] == q;
  }

  /** A thread that names no node of l moves; l and its links stay. */
  lemma LinkedElsewhere(next: seq<nat>, next': seq<nat>, froms: seq<nat>, tos: seq<nat>, l: seq<nat>,
                        t: nat, f: nat, g: nat)
    requires |froms| == |tos| && t < |froms| && froms[t] !in l
    requires Linked(next, froms, tos, l)
    requires |next'| >= |next| && forall n :: 0 <= n < |next| && n in l ==> next'[n] == next[n]
    ensures Linked(next', froms[t := f], tos[t := g], l)
  {
    forall k | 0 <= k < |l| - 1 && next[l[k]] != l[k + 1]
      ensures Pending(froms[t := f], tos[t := g], l[k], l[k + 1])
    {
      PendingUpdated(froms, tos, t, f, g, l[k], l[k + 1]);
    }
  }

  /** A thread exchanges n onto the tail of l and is now to link it. */
  lemma LinkedPush(next: seq<nat>, froms: seq<nat>, tos: seq<nat>, l: seq<nat>, t: nat, n: nat)
    requires |froms| == |tos| && t < |froms| && froms[t] !in l && l != []
    requires Linked(next, froms, tos, l) && l[|l| - 1] < |next| && next[l[|l| - 1]] == NULL
    ensures Linked(next, froms[t := l[|l| - 1]], tos[t := n], l + [n])
  {
    var last := l[|l| - 1];
    LinkedElsewhere(next, next, froms, tos, l, t, last, n);
    assert froms[t := last][t] == last && tos[t := n][t] == n;
    assert Pending(froms[t := last], tos[t := n], last, n);
  }

  /** The head of l is removed; a thread that was to remove it is done. */
  lemma LinkedPop(next: seq<nat>, froms: seq<nat>, tos: seq<nat>, l: seq<nat>, t: nat)
    requires |froms| == |tos| && t < |froms| && l != [] && Distinct(l)
    requires froms[t] == l[0] || froms[t] !in l
    requires Linked(next, froms, tos, l)
    ensures Linked(next, froms[t := NULL], tos[t := NULL], l[1..])
  {
    forall k | 0 <= k < |l[1..]| - 1 && next[l[1..][k]] != l[1..][k + 1]
      ensures Pending(froms[t := NULL], tos[t := NULL], l[1..][k], l[1..][k + 1])
    {
      assert l[1..][k] == l[k + 1] && l[1..][k + 1] == l[k + 2];
      PendingUpdated(froms, tos, t, NULL, NULL, l[k + 1], l[k + 2]);
    }
  }

  /** The pending link from p to q is written. */
  lemma LinkedSet(next: seq<nat>, froms: seq<nat>, tos: seq<nat>, l: seq<nat>, t: nat)
    requires |froms| == |tos| && t < |froms| && Distinct(l) && froms[t] < |next|
    requires Adjacent(l, froms[t], tos[t]) || froms[t] !in l
    requires Linked(next, froms, tos, l)
    ensures Linked(next[froms[t] := tos[t]], froms[t := NULL], tos[t := NULL], l)
  {
    var p, q := froms[t], tos[t];
    forall k | 0 <= k < |l| - 1 && l[k] != p && next[l[k]] != l[k + 1]
      ensures Pending(froms[t := NULL], tos[t := NULL], l[k], l[k + 1])
    {
      PendingUpdated(froms, tos, t, NULL, NULL, l[k], l[k + 1]);
    }
  }

  /** A thread that is to link a node does not have it at a tail. */
  lemma FromListed<T>(m: Mem<T>, pc: PC<T>)
    requires Lists(m) && Local(m, pc)
    ensures From(pc) != m.uTail && From(pc) != m.sTail
    ensures pc.ELink? ==> From(pc) in m.used && From(pc) !in m.spare
    ensures NULL !in m.used && NULL !in m.spare
  {
    assert m.uTail in m.used && m.sTail in m.spare;
  }

  lemma FromsListed<T>(m: Mem<T>, pcs: seq<PC<T>>)
    requires Lists(m) && Locals(m, pcs)
    ensures m.uTail !in Froms(pcs) && m.sTail !in Froms(pcs)
    ensures NULL !in m.used && NULL !in m.spare
  {
    forall t | 0 <= t < |pcs|
      ensures Froms(pcs)[t] != m.uTail && Froms(pcs)[t] != m.sTail
    {
      FromListed(m, pcs[t]);
    }
    assert NULL !in m.used && NULL !in m.spare;
  }

  // ----- every kind of step keeps the invariant -----

  /** A step of thread t that touches no node. */
  lemma QuietKeeps<T>(m: Mem<T>, pcs: seq<PC<T>>, t: nat, pc: PC<T>)
    requires Nodes(m, pcs) && t < |pcs|
    requires Own(pc) == Own(pcs[t]) && From(pc) == From(pcs[t]) && To(pc) == To(pcs[t])
    requires Local(m, pc)
    ensures Nodes(m, pcs[t := pc])
  {
    Moved(pcs, t, pc);
    assert Owns(pcs[t := pc]) == Owns(pcs);
    assert Froms(pcs[t := pc]) == Froms(pcs);
    assert Tos(pcs[t := pc]) == Tos(pcs);
  }

  /** Line 54. */
  lemma AllocateKeeps<T>(m: Mem<T>, pcs: seq<PC<T>>, t: nat)
    requires Nodes(m, pcs) && t < |pcs| && pcs[t].ENew?
    ensures Nodes(Allocate(m), pcs[t := EStore(pcs[t].v, pcs[t].pres, |m.next|)])
  {
    var m', pc := Allocate(m), EStore(pcs[t].v, pcs[t].pres, |m.next|);
    var pcs' := pcs[t := pc];
    AllocateLists(m);
    forall u | 0 <= u < |pcs|
      ensures Local(m', pcs'[u])
    {
      AllocateLocal(m, pcs[u]);
    }
    OwnsAllocated(m, pcs);
    AllocateHolds(m, Owns(pcs), t);
    FromsListed(m, pcs);
    LinkedElsewhere(m.next, m'.next, Froms(pcs), Tos(pcs), m.used, t, NULL, NULL);
    LinkedElsewhere(m.next, m'.next, Froms(pcs), Tos(pcs), m.spare, t, NULL, NULL);
    Moved(pcs, t, pc);
  }

  lemma AllocateLists<T>(m: Mem<T>)
    requires Lists(m)
    ensures Lists(Allocate(m))
  {
    assert Contents(Allocate(m)) == Contents(m);
  }

  lemma AllocateLocal<T>(m: Mem<T>, pc: PC<T>)
    requires Readable(m) && Local(m, pc)
    ensures Readable(Allocate(m)) && Local(Allocate(m), pc)
  {
  }

  lemma OwnsAllocated<T>(m: Mem<T>, pcs: seq<PC<T>>)
    requires Readable(m) && Locals(m, pcs)
    ensures forall n :: n in Owns(pcs) && n != NULL ==> IsNode(m, n)
  {
    forall u | 0 <= u < |pcs| && Owns(pcs)[u] != NULL
      ensures IsNode(m, Owns(pcs)[u])
    {
      assert Local(m, pcs[u]);
    }
  }

  lemma AllocateHolds<T>(m: Mem<T>, owns: seq<nat>, t: nat)
    requires Readable(m) && Holds(m, owns) && t < |owns| && owns[t] == NULL
    requires forall n :: n in owns && n != NULL ==> IsNode(m, n)
    ensures Holds(Allocate(m), owns[t := |m.next|])
  {
    var n, owns' := |m.next|, owns[t := |m.next|];
    forall u | 0 <= u < |owns| && owns[u] != NULL
      ensures owns[u] != n
    {
      assert owns[u] in owns;
    }
    assert n !in m.used && n !in m.spare;
  }

  /** Line 85: a private node becomes the tail of the spare list. */
  lemma PushSpareKeeps<T>(m: Mem<T>, pcs: seq<PC<T>>, t: nat)
    requires Nodes(m, pcs) && Owed(pcs) && t < |pcs| && pcs[t].DXchg?
    ensures Nodes(PushSpare(m, pcs[t].preu), pcs[t := DLink(m.sTail, pcs[t].preu, pcs[t].out)])
  {
    var n, pc := pcs[t].preu, DLink(m.sTail, pcs[t].preu, pcs[t].out);
    assert Local(m, pcs[t]) && Owns(pcs)[t] == n;
    Moved(pcs, t, pc);
    PushSpareLists(m, n);
    PushSpareLocals(m, pcs, t);
    ReleaseHolds(m.used, m.spare, m.used, m.spare + [n], Owns(pcs), t);
    PushSpareJoins(m, pcs, t);
  }

  lemma PushSpareLocals<T>(m: Mem<T>, pcs: seq<PC<T>>, t: nat)
    requires Lists(m) && Locals(m, pcs) && Holds(m, Owns(pcs)) && Owed(pcs) && t < |pcs| && pcs[t].DXchg?
    ensures Readable(PushSpare(m, pcs[t].preu))
    ensures Locals(PushSpare(m, pcs[t].preu), pcs[t := DLink(m.sTail, pcs[t].preu, pcs[t].out)])
  {
    var n, pc := pcs[t].preu, DLink(m.sTail, pcs[t].preu, pcs[t].out);
    assert Local(m, pcs[t]) && Owns(pcs)[t] == n;
    AdjacentLast(m.spare, n);
    assert m.sTail in m.spare;
    forall u | 0 <= u < |pcs| && u != t
      ensures Local(PushSpare(m, n), pcs[u])
    {
      PushSpareLocal(m, n, pcs[u]);
    }
  }

  lemma PushSpareJoins<T>(m: Mem<T>, pcs: seq<PC<T>>, t: nat)
    requires Lists(m) && Locals(m, pcs) && Links(m, Froms(pcs), Tos(pcs)) && t < |pcs| && pcs[t].DXchg?
    ensures var pcs' := pcs[t := DLink(m.sTail, pcs[t].preu, pcs[t].out)];
      Links(PushSpare(m, pcs[t].preu), Froms(pcs'), Tos(pcs'))
  {
    FromsListed(m, pcs);
    PushSpareLinks(m, pcs[t].preu, Froms(pcs), Tos(pcs), t);
    Moved(pcs, t, DLink(m.sTail, pcs[t].preu, pcs[t].out));
  }

  lemma PushSpareLinks<T>(m: Mem<T>, n: nat, froms: seq<nat>, tos: seq<nat>, t: nat)
    requires Lists(m) && Links(m, froms, tos) && t < |froms| && froms[t] == NULL
    requires m.sTail !in froms && NULL !in m.used && NULL !in m.spare
    ensures Links(PushSpare(m, n), froms[t := m.sTail], tos[t := n])
  {
    LinkedElsewhere(m.next, m.next, froms, tos, m.used, t, m.sTail, n);
    LinkedPush(m.next, froms, tos, m.spare, t, n);
  }

  lemma PushSpareLists<T>(m: Mem<T>, n: nat)
    requires Lists(m) && IsNode(m, n) && n !in m.used && n !in m.spare && m.next[n] == NULL
    ensures Lists(PushSpare(m, n))
  {
    assert Contents(PushSpare(m, n)) == Contents(m);
  }

  lemma PushSpareLocal<T>(m: Mem<T>, n: nat, pc: PC<T>)
    requires Readable(m) && IsNode(m, n) && Local(m, pc) && (pc.DLink? ==> pc.pres != n)
    ensures Readable(PushSpare(m, n)) && Local(PushSpare(m, n), pc)
  {
    if pc.DLink? && pc.pres in m.spare {
      AdjacentSnoc(m.spare, n, pc.pres, pc.preu);
    }
  }

  /** The node of thread t moves to a list. */
  lemma ReleaseHolds(used: seq<nat>, spare: seq<nat>, used': seq<nat>, spare': seq<nat>, owns: seq<nat>, t: nat)
    requires Sole(owns) && Private(used, spare, owns) && t < |owns| && owns[t] != NULL
    requires (used' == used + [owns[t]] && spare' == spare) || (used' == used && spare' == spare + [owns[t]])
    ensures Sole(owns[t := NULL]) && Private(used', spare', owns[t := NULL])
  {
  }

  /** The head of a list moves to thread t. */
  lemma TakeHolds(used: seq<nat>, spare: seq<nat>, used': seq<nat>, spare': seq<nat>,
                  owns: seq<nat>, t: nat, n: nat)
    requires Sole(owns) && Private(used, spare, owns)
    requires t < |owns| && owns[t] == NULL
    requires Distinct(used) && Distinct(spare) && forall k :: k in used ==> k !in spare
    requires (used == [n] + used' && spare' == spare) || (used' == used && spare == [n] + spare')
    ensures Sole(owns[t := n]) && Private(used', spare', owns[t := n])
  {
    assert owns[t := n][t] == n;
    if used == [n] + used' {
      assert used[0] == n && forall k :: 0 <= k < |used'| ==> used'[k] == used[k + 1];
    } else {
      assert spare[0] == n && forall k :: 0 <= k < |spare'| ==> spare'[k] == spare[k + 1];
    }
  }

  lemma PushUsedLocals<T>(m: Mem<T>, pcs: seq<PC<T>>, t: nat, n: nat, v: T)
    requires Lists(m) && Locals(m, pcs) && t < |pcs| && IsNode(m, n) && m.next[m.uTail] == NULL && !Owing(pcs, n)
    ensures Readable(PushUsed(m, n, v)) && Locals(PushUsed(m, n, v), pcs[t := ELink(m.uTail, n)])
  {
    var m', pcs' := PushUsed(m, n, v), pcs[t := ELink(m.uTail, n)];
    AdjacentLast(m.used, n);
    forall u | 0 <= u < |pcs|
      ensures Local(m', pcs'[u])
    {
      PushUsedLocal(m, n, v, pcs[u]);
    }
  }

  /** Line 63: a private node becomes the tail of the used list. */
  lemma PushUsedKeeps<T>(m: Mem<T>, pcs: seq<PC<T>>, t: nat)
    requires Nodes(m, pcs) && Owed(pcs) && t < |pcs| && pcs[t].EXchg?
    ensures Nodes(PushUsed(m, pcs[t].pres, pcs[t].v), pcs[t := ELink(m.uTail, pcs[t].pres)])
  {
    assert Local(m, pcs[t]);
    PushUsedHolds(m, pcs, t);
    PushUsedLists(m, pcs[t].pres, pcs[t].v);
    PushUsedLocals(m, pcs, t, pcs[t].pres, pcs[t].v);
    PushUsedJoins(m, pcs, t);
  }

  lemma PushUsedHolds<T>(m: Mem<T>, pcs: seq<PC<T>>, t: nat)
    requires Holds(m, Owns(pcs)) && t < |pcs| && pcs[t].EXchg? && IsNode(m, pcs[t].pres)
    ensures Holds(PushUsed(m, pcs[t].pres, pcs[t].v), Owns(pcs[t := ELink(m.uTail, pcs[t].pres)]))
    ensures pcs[t].pres !in m.used && pcs[t].pres !in m.spare
  {
    var n := pcs[t].pres;
    assert Owns(pcs)[t] == n;
    Moved(pcs, t, ELink(m.uTail, n));
    ReleaseHolds(m.used, m.spare, m.used + [n], m.spare, Owns(pcs), t);
  }

  lemma PushUsedJoins<T>(m: Mem<T>, pcs: seq<PC<T>>, t: nat)
    requires Lists(m) && Locals(m, pcs) && Links(m, Froms(pcs), Tos(pcs)) && t < |pcs| && pcs[t].EXchg?
    ensures var pcs' := pcs[t := ELink(m.uTail, pcs[t].pres)];
      Links(PushUsed(m, pcs[t].pres, pcs[t].v), Froms(pcs'), Tos(pcs'))
  {
    FromsListed(m, pcs);
    PushUsedLinks(m, pcs[t].pres, pcs[t].v, Froms(pcs), Tos(pcs), t);
    Moved(pcs, t, ELink(m.uTail, pcs[t].pres));
  }

  lemma PushUsedLinks<T>(m: Mem<T>, n: nat, v: T, froms: seq<nat>, tos: seq<nat>, t: nat)
    requires Lists(m) && Links(m, froms, tos) && t < |froms| && froms[t] == NULL
    requires m.uTail !in froms && NULL !in m.used && NULL !in m.spare
    ensures Links(PushUsed(m, n, v), froms[t := m.uTail], tos[t := n])
  {
    LinkedPush(m.next, froms, tos, m.used, t, n);
    LinkedElsewhere(m.next, m.next, froms, tos, m.spare, t, m.uTail, n);
  }

  lemma PushUsedLists<T>(m: Mem<T>, n: nat, v: T)
    requires Lists(m) && IsNode(m, n) && n !in m.used && n !in m.spare && m.next[n] == NULL && m.data[n] == v
    ensures Lists(PushUsed(m, n, v))
    ensures Contents(PushUsed(m, n, v)) == Contents(m) + [v]
  {
    assert (m.used + [n])[1..] == m.used[1..] + [n];
    assert Contents(PushUsed(m, n, v)) == Contents(m) + [v];
  }

  lemma PushUsedLocal<T>(m: Mem<T>, n: nat, v: T, pc: PC<T>)
    requires Readable(m) && IsNode(m, n) && Local(m, pc) && (pc.DLink? ==> pc.pres != n)
    ensures Readable(PushUsed(m, n, v)) && Local(PushUsed(m, n, v), pc)
  {
    if pc.ELink? {
      AdjacentSnoc(m.used, n, pc.preu, pc.pres);
    }
  }

  /** Line 50 finds a successor: the first spare node becomes private. */
  lemma FoundSpareKeeps<T>(m: Mem<T>, pcs: seq<PC<T>>, t: nat)
    requires Nodes(m, pcs) && t < |pcs| && pcs[t].ESpin? && Alone(pcs, t) && Local(m, pcs[t])
    requires m.next[pcs[t].pres] != NULL
    ensures Nodes(PopSpare(m), pcs[t := EAdvance(pcs[t].v, pcs[t].pres, m.next[pcs[t].pres])])
  {
    var p, n := pcs[t].pres, m.next[pcs[t].pres];
    FoundHasNext(m, pcs, t);
    PopSpareLists(m);
    PopSpareLocals(m, pcs, t, EAdvance(pcs[t].v, p, n));
    assert m.spare == [p] + m.spare[1..] && Owns(pcs)[t] == NULL;
    TakeHolds(m.used, m.spare, m.used, m.spare[1..], Owns(pcs), t, p);
    PopSpareJoins(m, pcs, t, EAdvance(pcs[t].v, p, n));
    Moved(pcs, t, EAdvance(pcs[t].v, p, n));
  }

  lemma PopSpareLists<T>(m: Mem<T>)
    requires Lists(m) && |m.spare| >= 2
    ensures Lists(PopSpare(m))
  {
    assert Contents(PopSpare(m)) == Contents(m);
  }

  lemma PopSpareLocals<T>(m: Mem<T>, pcs: seq<PC<T>>, t: nat, pc: PC<T>)
    requires Lists(m) && Locals(m, pcs) && t < |pcs| && |m.spare| >= 2 && m.next[m.spare[0]] != NULL
    requires forall u :: 0 <= u < |pcs| && u != t ==> !InS(pcs[u])
    requires Readable(PopSpare(m)) ==> Local(PopSpare(m), pc)
    ensures Readable(PopSpare(m)) && Locals(PopSpare(m), pcs[t := pc])
  {
    forall u | 0 <= u < |pcs| && u != t
      ensures Local(PopSpare(m), pcs[u])
    {
      PopSpareLocal(m, pcs[u]);
    }
  }

  lemma PopSpareJoins<T>(m: Mem<T>, pcs: seq<PC<T>>, t: nat, pc: PC<T>)
    requires Lists(m) && Locals(m, pcs) && Links(m, Froms(pcs), Tos(pcs)) && t < |pcs| && |m.spare| >= 2
    requires From(pcs[t]) == To(pcs[t]) == From(pc) == To(pc) == NULL
    ensures Links(PopSpare(m), Froms(pcs[t := pc]), Tos(pcs[t := pc]))
  {
    FromsListed(m, pcs);
    LinkedElsewhere(m.next, m.next, Froms(pcs), Tos(pcs), m.used, t, NULL, NULL);
    LinkedPop(m.next, Froms(pcs), Tos(pcs), m.spare, t);
    Moved(pcs, t, pc);
  }

  lemma PopSpareLocal<T>(m: Mem<T>, pc: PC<T>)
    requires Lists(m) && |m.spare| >= 2 && m.next[m.spare[0]] != NULL && Local(m, pc) && !InS(pc)
    ensures Readable(PopSpare(m)) && Local(PopSpare(m), pc)
  {
    if pc.DLink? && pc.pres in m.spare[1..] {
      AdjacentTail(m.spare, pc.pres, pc.preu);
    }
  }

  /** Line 55: the spare list starts anew with the private node, and the node taken becomes private. */
  lemma StoreKeeps<T>(m: Mem<T>, pcs: seq<PC<T>>, t: nat)
    requires Nodes(m, pcs) && Owed(pcs) && t < |pcs| && pcs[t].EStore? && Alone(pcs, t)
    ensures Nodes(RenewSpare(m, pcs[t].nexts), pcs[t := EAdvance(pcs[t].v, pcs[t].pres, pcs[t].nexts)])
  {
    var q, pc := pcs[t].nexts, EAdvance(pcs[t].v, pcs[t].pres, pcs[t].nexts);
    assert Local(m, pcs[t]) && Owns(pcs)[t] == q;
    assert Contents(RenewSpare(m, q)) == Contents(m);
    RenewLocals(m, pcs, t);
    RenewHolds(m, Owns(pcs), t);
    FromsListed(m, pcs);
    LinkedElsewhere(m.next, m.next, Froms(pcs), Tos(pcs), m.used, t, NULL, NULL);
    Moved(pcs, t, pc);
  }

  lemma RenewLocals<T>(m: Mem<T>, pcs: seq<PC<T>>, t: nat)
    requires Lists(m) && Locals(m, pcs) && Owed(pcs) && t < |pcs| && pcs[t].EStore? && Alone(pcs, t)
    ensures Readable(RenewSpare(m, pcs[t].nexts))
    ensures Locals(RenewSpare(m, pcs[t].nexts), pcs[t := EAdvance(pcs[t].v, pcs[t].pres, pcs[t].nexts)])
  {
    var q := pcs[t].nexts;
    assert Local(m, pcs[t]) && Own(pcs[t]) == q;
    forall u | 0 <= u < |pcs| && u != t
      ensures Local(RenewSpare(m, q), pcs[u])
    {
      assert Local(m, pcs[u]);
    }
  }

  lemma RenewHolds<T>(m: Mem<T>, owns: seq<nat>, t: nat)
    requires Lists(m) && Holds(m, owns) && t < |owns| && owns[t] != NULL
    ensures Holds(RenewSpare(m, owns[t]), owns[t := m.spare[0]])
  {
    assert m.spare[0] in m.spare;
  }

  /** Line 59: the head of the spare list is moved on. */
  lemma AdvanceKeeps<T>(m: Mem<T>, pcs: seq<PC<T>>, t: nat)
    requires Nodes(m, pcs) && t < |pcs| && pcs[t].EAdvance? && Alone(pcs, t)
    ensures Nodes(m.(sHead := pcs[t].nexts), pcs[t := EUnlock(pcs[t].v, pcs[t].pres)])
  {
    var m', pc := m.(sHead := pcs[t].nexts), EUnlock(pcs[t].v, pcs[t].pres);
    assert Local(m, pcs[t]);
    assert Contents(m') == Contents(m);
    forall u | 0 <= u < |pcs| && u != t
      ensures Local(m', pcs[u])
    {
      AdvanceLocal(m, pcs[t].nexts, pcs[u]);
    }
    Moved(pcs, t, pc);
    assert Owns(pcs[t := pc]) == Owns(pcs);
    assert Froms(pcs[t := pc]) == Froms(pcs) && Tos(pcs[t := pc]) == Tos(pcs);
  }

  lemma AdvanceLocal<T>(m: Mem<T>, n: nat, pc: PC<T>)
    requires Readable(m) && IsNode(m, n) && Local(m, pc) && !InS(pc)
    ensures Local(m.(sHead := n), pc)
  {
  }

  lemma PopUsedLocals<T>(m: Mem<T>, pcs: seq<PC<T>>, t: nat)
    requires Lists(m) && Locals(m, pcs) && t < |pcs| && pcs[t].DAdvance?
    requires forall u :: 0 <= u < |pcs| && u != t ==> !InU(pcs[u])
    ensures pcs[t].nextu < |m.data| && Readable(PopUsed(m, pcs[t].nextu))
    ensures Locals(PopUsed(m, pcs[t].nextu), pcs[t := DTake(pcs[t].preu, pcs[t].nextu)])
  {
    var n, pcs' := pcs[t].nextu, pcs[t := DTake(pcs[t].preu, pcs[t].nextu)];
    assert Local(m, pcs[t]);
    var m' := PopUsed(m, n);
    forall u | 0 <= u < |pcs|
      ensures Local(m', pcs'[u])
    {
      if u != t {
        PopUsedLocal(m, n, pcs[u]);
      }
    }
  }

  /** Line 81: the old dummy becomes private and its successor the new dummy. */
  lemma PopUsedKeeps<T>(m: Mem<T>, pcs: seq<PC<T>>, t: nat)
    requires Nodes(m, pcs) && t < |pcs| && pcs[t].DAdvance?
    requires forall u :: 0 <= u < |pcs| && u != t ==> !InU(pcs[u])
    ensures pcs[t].nextu < |m.data|
    ensures Nodes(PopUsed(m, pcs[t].nextu), pcs[t := DTake(pcs[t].preu, pcs[t].nextu)])
  {
    assert Local(m, pcs[t]);
    PopUsedLists(m, pcs[t].nextu);
    PopUsedLocals(m, pcs, t);
    PopUsedHolds(m, pcs, t);
    PopUsedJoins(m, pcs, t);
  }

  lemma PopUsedHolds<T>(m: Mem<T>, pcs: seq<PC<T>>, t: nat)
    requires Lists(m) && Holds(m, Owns(pcs)) && t < |pcs| && pcs[t].DAdvance? && Local(m, pcs[t])
    ensures Holds(PopUsed(m, pcs[t].nextu), Owns(pcs[t := DTake(pcs[t].preu, pcs[t].nextu)]))
  {
    Moved(pcs, t, DTake(pcs[t].preu, pcs[t].nextu));
    assert Owns(pcs)[t] == NULL;
    assert m.used == [m.used[0]] + m.used[1..];
    TakeHolds(m.used, m.spare, m.used[1..], m.spare, Owns(pcs), t, m.uHead);
  }

  lemma PopUsedJoins<T>(m: Mem<T>, pcs: seq<PC<T>>, t: nat)
    requires Lists(m) && Locals(m, pcs) && Links(m, Froms(pcs), Tos(pcs)) && t < |pcs| && pcs[t].DAdvance?
    requires pcs[t].nextu < |m.data|
    ensures var pcs' := pcs[t := DTake(pcs[t].preu, pcs[t].nextu)];
      Links(PopUsed(m, pcs[t].nextu), Froms(pcs'), Tos(pcs'))
  {
    FromsListed(m, pcs);
    PopUsedLinks(m, pcs[t].nextu, Froms(pcs), Tos(pcs), t);
    Moved(pcs, t, DTake(pcs[t].preu, pcs[t].nextu));
  }

  lemma PopUsedLinks<T>(m: Mem<T>, n: nat, froms: seq<nat>, tos: seq<nat>, t: nat)
    requires Lists(m) && Links(m, froms, tos) && t < |froms| && froms[t] == NULL && n < |m.data|
    requires NULL !in m.used && NULL !in m.spare
    ensures Links(PopUsed(m, n), froms[t := NULL], tos[t := NULL])
  {
    LinkedPop(m.next, froms, tos, m.used, t);
    LinkedElsewhere(m.next, m.next, froms, tos, m.spare, t, NULL, NULL);
  }

  lemma PopUsedLists<T>(m: Mem<T>, n: nat)
    requires Lists(m) && |m.used| >= 2 && m.used[1] == n
    ensures Lists(PopUsed(m, n))
    ensures Contents(m) == [m.data[n]] + Contents(PopUsed(m, n))
  {
    assert m.used[1..] == [n] + m.used[1..][1..];
    assert Contents(m) == [m.data[n]] + Contents(PopUsed(m, n));
  }

  lemma PopUsedLocal<T>(m: Mem<T>, n: nat, pc: PC<T>)
    requires Lists(m) && |m.used| >= 2 && m.used[1] == n && Local(m, pc) && m.next[m.uHead] == n
    requires !InU(pc)
    ensures Readable(PopUsed(m, n)) && Local(PopUsed(m, n), pc)
  {
    if pc.ELink? {
      AdjacentTail(m.used, pc.preu, pc.pres);
    }
  }

  /** Lines 61 and 82: a value is written to a node that holds no value of the queue. */
  lemma WriteKeeps<T>(m: Mem<T>, pcs: seq<PC<T>>, t: nat, n: nat, v: T, pc: PC<T>)
    requires Nodes(m, pcs) && t < |pcs| && IsNode(m, n) && n !in m.used[1..]
    requires Own(pc) == Own(pcs[t]) && From(pc) == From(pcs[t]) && To(pc) == To(pcs[t])
    requires Local(m.(data := m.data[n := v]), pc)
    requires forall u :: 0 <= u < |pcs| && u != t ==> Own(pcs[u]) != n && (pcs[u].DTake? ==> n != m.uHead)
    ensures Nodes(m.(data := m.data[n := v]), pcs[t := pc])
  {
    var pcs' := pcs[t := pc];
    var m' := m.(data := m.data[n := v]);
    WriteLists(m, n, v);
    forall u | 0 <= u < |pcs|
      ensures Local(m', pcs'[u])
    {
      if u != t {
        WriteLocal(m, n, v, pcs[u]);
      }
    }
    Moved(pcs, t, pc);
    assert Owns(pcs[t := pc]) == Owns(pcs);
    assert Froms(pcs[t := pc]) == Froms(pcs);
    assert Tos(pcs[t := pc]) == Tos(pcs);
  }

  lemma WriteLists<T>(m: Mem<T>, n: nat, v: T)
    requires Lists(m) && IsNode(m, n) && n !in m.used[1..]
    ensures Lists(m.(data := m.data[n := v]))
    ensures Contents(m.(data := m.data[n := v])) == Contents(m)
  {
    forall k | 0 <= k < |m.used[1..]|
      ensures m.used[1..][k] != n
    {
      assert m.used[1..][k] in m.used[1..];
    }
    assert Contents(m.(data := m.data[n := v])) == Contents(m);
  }

  lemma WriteLocal<T>(m: Mem<T>, n: nat, v: T, pc: PC<T>)
    requires Readable(m) && IsNode(m, n) && Local(m, pc)
    requires Own(pc) != n && (pc.DTake? ==> n != m.uHead)
    ensures Local(m.(data := m.data[n := v]), pc)
  {
  }

  /** Lines 62 and 84: the link of a private node is cleared. */
  lemma ClearKeeps<T>(m: Mem<T>, pcs: seq<PC<T>>, t: nat, n: nat, pc: PC<T>)
    requires Nodes(m, pcs) && t < |pcs| && n == Own(pcs[t]) && IsNode(m, n)
    requires Own(pc) == n && From(pcs[t]) == From(pc) == To(pcs[t]) == To(pc) == NULL
    requires Local(SetNext(m, n, NULL), pc)
    ensures Nodes(SetNext(m, n, NULL), pcs[t := pc])
  {
    var pcs' := pcs[t := pc];
    var m' := SetNext(m, n, NULL);
    assert Owns(pcs)[t] == n;
    assert Contents(m') == Contents(m);
    forall u | 0 <= u < |pcs|
      ensures Local(m', pcs'[u])
    {
      if u != t {
        assert Owns(pcs)[u] == Own(pcs[u]);
        ClearLocal(m, n, pcs[u]);
      }
    }
    FromsListed(m, pcs);
    LinkedElsewhere(m.next, m'.next, Froms(pcs), Tos(pcs), m.used, t, NULL, NULL);
    LinkedElsewhere(m.next, m'.next, Froms(pcs), Tos(pcs), m.spare, t, NULL, NULL);
    Moved(pcs, t, pc);
    assert Owns(pcs[t := pc]) == Owns(pcs);
  }

  lemma ClearLocal<T>(m: Mem<T>, n: nat, pc: PC<T>)
    requires Lists(m) && IsNode(m, n) && Local(m, pc) && Own(pc) != n && n !in m.used && n !in m.spare
    ensures Local(SetNext(m, n, NULL), pc)
  {
  }

  lemma LinkLocals<T>(m: Mem<T>, pcs: seq<PC<T>>, t: nat)
    requires Lists(m) && Locals(m, pcs) && Holds(m, Owns(pcs)) && Sole(Froms(pcs)) && Owed(pcs)
    requires t < |pcs| && (pcs[t].ELink? || pcs[t].DLink?) && Local(m, pcs[t])
    ensures Locals(SetNext(m, From(pcs[t]), To(pcs[t])), pcs[t := Idle])
  {
    var p := From(pcs[t]);
    FromListed(m, pcs[t]);
    assert Froms(pcs)[t] == p;
    forall u | 0 <= u < |pcs| && u != t
      ensures Local(SetNext(m, p, To(pcs[t])), pcs[u])
    {
      assert Owns(pcs)[u] == Own(pcs[u]) && Froms(pcs)[u] == From(pcs[u]);
      LinkLocal(m, p, To(pcs[t]), pcs[u]);
    }
  }

  /** Lines 64 and 86: the pending link is written. */
  lemma LinkKeeps<T>(m: Mem<T>, pcs: seq<PC<T>>, t: nat)
    requires Nodes(m, pcs) && Owed(pcs) && t < |pcs| && (pcs[t].ELink? || pcs[t].DLink?)
    ensures From(pcs[t]) < |m.next|
    ensures Nodes(SetNext(m, From(pcs[t]), To(pcs[t])), pcs[t := Idle])
  {
    var p, q := From(pcs[t]), To(pcs[t]);
    assert Local(m, pcs[t]) && Froms(pcs)[t] == p;
    FromListed(m, pcs[t]);
    LinkLists(m, p, q);
    LinkLocals(m, pcs, t);
    LinkHolds(m, pcs, t);
    LinkJoins(m, pcs, t);
  }

  lemma LinkHolds<T>(m: Mem<T>, pcs: seq<PC<T>>, t: nat)
    requires Holds(m, Owns(pcs)) && t < |pcs| && (pcs[t].ELink? || pcs[t].DLink?) && IsNode(m, From(pcs[t]))
    ensures Holds(SetNext(m, From(pcs[t]), To(pcs[t])), Owns(pcs[t := Idle]))
  {
    assert Owns(pcs[t := Idle]) == Owns(pcs);
  }

  lemma LinkJoins<T>(m: Mem<T>, pcs: seq<PC<T>>, t: nat)
    requires Lists(m) && Links(m, Froms(pcs), Tos(pcs)) && t < |pcs| && Local(m, pcs[t])
    requires (pcs[t].ELink? || pcs[t].DLink?) && IsNode(m, From(pcs[t]))
    ensures Links(SetNext(m, From(pcs[t]), To(pcs[t])), Froms(pcs[t := Idle]), Tos(pcs[t := Idle]))
  {
    assert Froms(pcs)[t] == From(pcs[t]) && Tos(pcs)[t] == To(pcs[t]);
    LinkLinks(m, Froms(pcs), Tos(pcs), t);
    Moved(pcs, t, Idle);
  }

  lemma LinkLists<T>(m: Mem<T>, p: nat, q: nat)
    requires Lists(m) && p < |m.next| && p != m.uTail && p != m.sTail
    ensures Lists(SetNext(m, p, q))
  {
    assert Contents(SetNext(m, p, q)) == Contents(m);
  }

  lemma LinkLocal<T>(m: Mem<T>, p: nat, q: nat, pc: PC<T>)
    requires Lists(m) && IsNode(m, p) && q != NULL && Local(m, pc) && m.next[p] == NULL
    requires Own(pc) == p ==> Early(pc)
    requires From(pc) != p
    ensures Local(SetNext(m, p, q), pc)
  {
    assert pc.DAdvance? ==> m.next[pc.preu] != NULL;
  }

  lemma LinkLinks<T>(m: Mem<T>, froms: seq<nat>, tos: seq<nat>, t: nat)
    requires Lists(m) && Links(m, froms, tos) && t < |froms| && IsNode(m, froms[t])
    requires froms[t] in m.used ==> Adjacent(m.used, froms[t], tos[t])
    requires froms[t] in m.spare ==> Adjacent(m.spare, froms[t], tos[t])
    ensures Links(SetNext(m, froms[t], tos[t]), froms[t := NULL], tos[t := NULL])
  {
    LinkedSet(m.next, froms, tos, m.used, t);
    LinkedSet(m.next, froms, tos, m.spare, t);
  }

  /** A thread enters a section only by taking its lock, and gives it up only by leaving. */
  lemma SpareLockStep<T>(s: State<T>, t: nat, c: Call<T>)
    requires t < |s.pcs| && Sound(s.m) && Pointers(s.m, s.pcs[t]) && (InS(s.pcs[t]) ==> s.sLk)
    ensures var s' := Step(s, t, c);
      && |s'.pcs| == |s.pcs| && s'.pcs == s.pcs[t := s'.pcs[t]]
      && (if InS(s'.pcs[t]) then s'.sLk && (InS(s.pcs[t]) || !s.sLk) else s'.sLk == (s.sLk && !InS(s.pcs[t])))
  {
    assert s.pcs[t := s.pcs[t]] == s.pcs;
  }

  lemma UsedLockStep<T>(s: State<T>, t: nat, c: Call<T>)
    requires t < |s.pcs| && Sound(s.m) && Pointers(s.m, s.pcs[t]) && (InU(s.pcs[t]) ==> s.uLk)
    ensures var s' := Step(s, t, c);
      && |s'.pcs| == |s.pcs| && s'.pcs == s.pcs[t := s'.pcs[t]]
      && (if InU(s'.pcs[t]) then s'.uLk && (InU(s.pcs[t]) || !s.uLk) else s'.uLk == (s.uLk && !InU(s.pcs[t])))
  {
    assert s.pcs[t := s.pcs[t]] == s.pcs;
  }

  lemma SpareLockKept<T>(s: State<T>, t: nat, s': State<T>)
    requires SpareLock(s) && t < |s.pcs| == |s'.pcs| && s'.pcs == s.pcs[t := s'.pcs[t]]
    requires if InS(s'.pcs[t]) then s'.sLk && (InS(s.pcs[t]) || !s.sLk) else s'.sLk == (s.sLk && !InS(s.pcs[t]))
    ensures SpareLock(s')
  {
    if InS(s'.pcs[t]) {
    } else if s'.sLk {
      var u :| 0 <= u < |s.pcs| && InS(s.pcs[u]);
      assert s'.pcs[u] == s.pcs[u];
    }
  }

  lemma UsedLockKept<T>(s: State<T>, t: nat, s': State<T>)
    requires UsedLock(s) && t < |s.pcs| == |s'.pcs| && s'.pcs == s.pcs[t := s'.pcs[t]]
    requires if InU(s'.pcs[t]) then s'.uLk && (InU(s.pcs[t]) || !s.uLk) else s'.uLk == (s.uLk && !InU(s.pcs[t]))
    ensures UsedLock(s')
  {
    if InU(s'.pcs[t]) {
    } else if s'.uLk {
      var u :| 0 <= u < |s.pcs| && InU(s.pcs[u]);
      assert s'.pcs[u] == s.pcs[u];
    }
  }

  /** Each lock is taken by entering its section and given up by leaving it, on every way out. */
  lemma KeepsLocks<T>(s: State<T>, t: nat, c: Call<T>)
    requires Locks(s) && t < |s.pcs| && Sound(s.m) && Pointers(s.m, s.pcs[t])
    ensures Locks(Step(s, t, c))
  {
    SpareLockStep(s, t, c);
    SpareLockKept(s, t, Step(s, t, c));
    UsedLockStep(s, t, c);
    UsedLockKept(s, t, Step(s, t, c));
  }

  /** Steps that touch no node: the lock and unlock steps, the reads and the tests. */
  predicate Quiet<T>(m: Mem<T>, pc: PC<T>) {
    || pc.Idle? || pc.ELock? || pc.EReadHead? || pc.ETest? || pc.EUnlock?
    || pc.DLock? || pc.DReadHead? || pc.DSpin? || pc.DTest? || pc.DFail? || pc.DUnlock?
    || (pc.ESpin? && pc.pres < |m.next| && m.next[pc.pres] == NULL)
  }

  lemma QuietStep<T>(s: State<T>, t: nat, c: Call<T>)
    requires Readable(s.m) && t < |s.pcs| && Local(s.m, s.pcs[t]) && Quiet(s.m, s.pcs[t])
    requires s.m.next[s.m.uHead] != NULL ==> |s.m.used| >= 2 && s.m.used[1] == s.m.next[s.m.uHead]
    requires s.pcs[t].EReadHead? ==> s.m.sHead == s.m.spare[0]
    ensures var s' := Step(s, t, c); var pc := s'.pcs[t];
      && s'.m == s.m && s'.pcs == s.pcs[t := pc] && Local(s.m, pc)
      && Own(pc) == Own(s.pcs[t]) && From(pc) == From(s.pcs[t]) && To(pc) == To(s.pcs[t])
  {
    assert s.pcs[t := s.pcs[t]] == s.pcs;
  }

  lemma QuietStepKeeps<T>(s: State<T>, t: nat, c: Call<T>)
    requires Nodes(s.m, s.pcs) && Head(s.m, s.pcs) && t < |s.pcs| && Alone(s.pcs, t) && Quiet(s.m, s.pcs[t])
    ensures Local(s.m, s.pcs[t]) && Nodes(Step(s, t, c).m, Step(s, t, c).pcs)
  {
    assert Local(s.m, s.pcs[t]);
    assert s.m.next[s.m.uHead] != NULL ==> |s.m.used| >= 2 && s.m.used[1] == s.m.next[s.m.uHead] by {
      assert s.m.next[s.m.used[0]] == s.m.next[s.m.uHead];
    }
    QuietStep(s, t, c);
    QuietKeeps(s.m, s.pcs, t, Step(s, t, c).pcs[t]);
  }

  /** Thread t alone is in the sections that it is in. */
  ghost predicate Alone<T>(pcs: seq<PC<T>>, t: nat)
    requires t < |pcs|
  {
    && (InS(pcs[t]) ==> forall u :: 0 <= u < |pcs| && u != t ==> !InS(pcs[u]))
    && (InU(pcs[t]) ==> forall u :: 0 <= u < |pcs| && u != t ==> !InU(pcs[u]))
  }

  /** Lines 50 to 59: a node is taken from the spare list or allocated. */
  lemma TakeNodeKeeps<T>(s: State<T>, t: nat, c: Call<T>)
    requires Nodes(s.m, s.pcs) && Owed(s.pcs) && t < |s.pcs| && Alone(s.pcs, t)
    requires InS(s.pcs[t]) && !Quiet(s.m, s.pcs[t])
    ensures Local(s.m, s.pcs[t]) && Nodes(Step(s, t, c).m, Step(s, t, c).pcs)
  {
    assert Local(s.m, s.pcs[t]);
    match s.pcs[t]
    case ESpin(_, _) => FoundSpareKeeps(s.m, s.pcs, t);
    case ENew(_, _) => AllocateKeeps(s.m, s.pcs, t);
    case EStore(_, _, _) => StoreKeeps(s.m, s.pcs, t);
    case EAdvance(_, _, _) => AdvanceKeeps(s.m, s.pcs, t);
  }

  predicate Putting<T>(pc: PC<T>) {
    pc.EFill? || pc.EClear? || pc.EXchg? || pc.ELink?
  }

  /** Lines 61 to 64: the node is filled and put on the used list. */
  lemma PutNodeKeeps<T>(s: State<T>, t: nat, c: Call<T>)
    requires Nodes(s.m, s.pcs) && Owed(s.pcs) && t < |s.pcs| && Putting(s.pcs[t])
    ensures Local(s.m, s.pcs[t]) && Nodes(Step(s, t, c).m, Step(s, t, c).pcs)
  {
    match s.pcs[t]
    case EFill(_, _) => FillKeeps(s.m, s.pcs, t);
    case EClear(_, _) => NewNodeCleared(s, t, c);
    case EXchg(_, _) => PushUsedKeeps(s.m, s.pcs, t);
    case ELink(_, _) => LinkKeeps(s.m, s.pcs, t);
  }

  /** Line 62. */
  lemma NewNodeCleared<T>(s: State<T>, t: nat, c: Call<T>)
    requires Nodes(s.m, s.pcs) && t < |s.pcs| && s.pcs[t].EClear?
    ensures Local(s.m, s.pcs[t]) && Nodes(Step(s, t, c).m, Step(s, t, c).pcs)
  {
    assert Local(s.m, s.pcs[t]);
    ClearKeeps(s.m, s.pcs, t, s.pcs[t].pres, EXchg(s.pcs[t].v, s.pcs[t].pres));
  }

  /** Line 61. */
  lemma FillKeeps<T>(m: Mem<T>, pcs: seq<PC<T>>, t: nat)
    requires Nodes(m, pcs) && t < |pcs| && pcs[t].EFill? && Local(m, pcs[t])
    ensures Nodes(m.(data := m.data[pcs[t].pres := pcs[t].v]), pcs[t := EClear(pcs[t].v, pcs[t].pres)])
  {
    var n := pcs[t].pres;
    assert Owns(pcs)[t] == n;
    assert m.used[0] in m.used;
    forall u | 0 <= u < |pcs| && u != t
      ensures Own(pcs[u]) != n
    {
      assert Owns(pcs)[u] == Own(pcs[u]);
    }
    WriteKeeps(m, pcs, t, n, pcs[t].v, EClear(pcs[t].v, n));
  }

  /** Lines 81 and 82: the dummy is detached and the value moved out. */
  lemma GetValueKeeps<T>(s: State<T>, t: nat, c: Call<T>)
    requires Nodes(s.m, s.pcs) && t < |s.pcs| && Alone(s.pcs, t) && (s.pcs[t].DAdvance? || s.pcs[t].DTake?)
    ensures Local(s.m, s.pcs[t]) && Nodes(Step(s, t, c).m, Step(s, t, c).pcs)
  {
    assert Local(s.m, s.pcs[t]);
    if s.pcs[t].DAdvance? {
      PopUsedKeeps(s.m, s.pcs, t);
    } else {
      TakeKeeps(s.m, s.pcs, t);
    }
  }

  /** Lines 84 to 86: the detached dummy is put on the spare list. */
  lemma RecycleKeeps<T>(s: State<T>, t: nat, c: Call<T>)
    requires Nodes(s.m, s.pcs) && Owed(s.pcs) && t < |s.pcs|
    requires s.pcs[t].DClear? || s.pcs[t].DXchg? || s.pcs[t].DLink?
    ensures Local(s.m, s.pcs[t]) && Nodes(Step(s, t, c).m, Step(s, t, c).pcs)
  {
    match s.pcs[t]
    case DClear(_, _) => OldDummyCleared(s, t, c);
    case DXchg(_, _) => PushSpareKeeps(s.m, s.pcs, t);
    case DLink(_, _, _) => LinkKeeps(s.m, s.pcs, t);
  }

  /** Line 84. */
  lemma OldDummyCleared<T>(s: State<T>, t: nat, c: Call<T>)
    requires Nodes(s.m, s.pcs) && t < |s.pcs| && s.pcs[t].DClear?
    ensures Local(s.m, s.pcs[t]) && Nodes(Step(s, t, c).m, Step(s, t, c).pcs)
  {
    assert Local(s.m, s.pcs[t]);
    ClearKeeps(s.m, s.pcs, t, s.pcs[t].preu, DXchg(s.pcs[t].preu, s.pcs[t].out));
  }

  /** Line 82: the value is moved out of the new dummy. */
  lemma TakeKeeps<T>(m: Mem<T>, pcs: seq<PC<T>>, t: nat)
    requires Nodes(m, pcs) && t < |pcs| && pcs[t].DTake? && Local(m, pcs[t])
    requires forall u :: 0 <= u < |pcs| && u != t ==> !InU(pcs[u])
    ensures Nodes(m.(data := m.data[pcs[t].nextu := m.blank]),
                  pcs[t := DUnlock(pcs[t].preu, m.data[pcs[t].nextu])])
  {
    var n := pcs[t].nextu;
    forall u | 0 <= u < |pcs| && u != t
      ensures Own(pcs[u]) != n
    {
      assert Owns(pcs)[u] == Own(pcs[u]);
      assert n in m.used;
    }
    forall k | 1 <= k < |m.used|
      ensures m.used[k] != n
    {
    }
    WriteKeeps(m, pcs, t, n, m.blank, DUnlock(pcs[t].preu, m.data[n]));
  }

  /** A step keeps the links that are owed on time, if it is timely. */
  lemma OwedKept<T>(pcs: seq<PC<T>>, t: nat, pc: PC<T>)
    requires Owed(pcs) && t < |pcs|
    requires Own(pc) != NULL && !Early(pc) ==> !Owing(pcs, Own(pc))
    requires pc.DLink? ==> pc.pres != NULL && forall u :: 0 <= u < |pcs| ==> Own(pcs[u]) != pc.pres
    ensures Owed(pcs[t := pc])
  {
    var pcs' := pcs[t := pc];
    forall i, u | 0 <= i < |pcs'| && 0 <= u < |pcs'| && pcs'[u].DLink? && Own(pcs'[i]) == pcs'[u].pres
      ensures Early(pcs'[i])
    {
      if i == t && u != t {
        assert Owing(pcs, pcs[u].pres);
      }
    }
  }

  predicate Dequeues<T>(pc: PC<T>) {
    || pc.DLock? || pc.DReadHead? || pc.DSpin? || pc.DTest? || pc.DFail? || pc.DAdvance?
    || pc.DTake? || pc.DUnlock? || pc.DClear? || pc.DXchg? || pc.DLink?
  }

  /**
   * A thread goes from `was` to pc': a node of its into which no link may be owed, or a node
   * into which it owes a link, is one of these.
   */
  predicate LateNode<T>(m: Mem<T>, was: PC<T>, pc': PC<T>) {
    && (Own(pc') != NULL && !Early(pc') ==>
          || (Own(pc') == Own(was) && (was.EClear? || !Early(was)))
          || Own(pc') == |m.next| || Own(pc') == m.uHead)
    && (pc'.DLink? ==> pc'.pres == m.sTail)
  }

  lemma EnqueueLateNode<T>(s: State<T>, t: nat, c: Call<T>)
    requires Readable(s.m) && t < |s.pcs| && Local(s.m, s.pcs[t]) && !Dequeues(s.pcs[t])
    ensures var pc' := Step(s, t, c).pcs[t]; Step(s, t, c).pcs == s.pcs[t := pc'] && LateNode(s.m, s.pcs[t], pc')
  {
    assert s.pcs[t := s.pcs[t]] == s.pcs;
  }

  lemma DequeueLateNode<T>(s: State<T>, t: nat, c: Call<T>)
    requires Readable(s.m) && t < |s.pcs| && Local(s.m, s.pcs[t]) && Dequeues(s.pcs[t])
    ensures var pc' := Step(s, t, c).pcs[t]; Step(s, t, c).pcs == s.pcs[t := pc'] && LateNode(s.m, s.pcs[t], pc')
  {
    assert s.pcs[t := s.pcs[t]] == s.pcs;
  }

  lemma NotOwing<T>(m: Mem<T>, pcs: seq<PC<T>>, n: nat)
    requires Nodes(m, pcs) && (n == |m.next| || n == m.uHead)
    ensures !Owing(pcs, n)
  {
    forall u | 0 <= u < |pcs| && pcs[u].DLink?
      ensures pcs[u].pres != n
    {
      assert Local(m, pcs[u]);
      assert m.uHead in m.used;
    }
  }

  lemma TailNotOwned<T>(m: Mem<T>, pcs: seq<PC<T>>)
    requires Nodes(m, pcs)
    ensures m.sTail != NULL && forall u :: 0 <= u < |pcs| ==> Own(pcs[u]) != m.sTail
  {
    assert m.sTail in m.spare;
    forall u | 0 <= u < |pcs|
      ensures Own(pcs[u]) != m.sTail
    {
      assert Owns(pcs)[u] == Own(pcs[u]);
    }
  }

  /** A timely step keeps the links that are owed on time. */
  lemma StepOwed<T>(s: State<T>, t: nat, c: Call<T>)
    requires Nodes(s.m, s.pcs) && Owed(s.pcs) && t < |s.pcs| && Timely(s, t) && Local(s.m, s.pcs[t])
    ensures Owed(Step(s, t, c).pcs)
  {
    if Dequeues(s.pcs[t]) {
      DequeueLateNode(s, t, c);
    } else {
      EnqueueLateNode(s, t, c);
    }
    LateKept(s, t, Step(s, t, c).pcs[t]);
  }

  lemma LateKept<T>(s: State<T>, t: nat, pc': PC<T>)
    requires Nodes(s.m, s.pcs) && Owed(s.pcs) && t < |s.pcs| && Timely(s, t) && LateNode(s.m, s.pcs[t], pc')
    ensures Owed(s.pcs[t := pc'])
  {
    TailNotOwned(s.m, s.pcs);
    NotOwing(s.m, s.pcs, |s.m.next|);
    NotOwing(s.m, s.pcs, s.m.uHead);
    OwedKept(s.pcs, t, pc');
  }

  /** The head and the first spare node after a step. */
  predicate HeadMoved<T>(m: Mem<T>, was: PC<T>, m': Mem<T>, pc': PC<T>) {
    && m'.spare != [] && m.spare != []
    && (was.EAdvance? ==> m'.sHead == m'.spare[0])
    && (was.EAdvance? || pc'.EAdvance? || (m'.sHead == m.sHead && m'.spare[0] == m.spare[0]))
  }

  lemma EnqueueMovesHead<T>(s: State<T>, t: nat, c: Call<T>)
    requires Readable(s.m) && t < |s.pcs| && Local(s.m, s.pcs[t]) && !Dequeues(s.pcs[t])
    requires s.pcs[t].ESpin? && s.m.next[s.pcs[t].pres] != NULL ==> |s.m.spare| >= 2
    ensures var s' := Step(s, t, c); s'.pcs == s.pcs[t := s'.pcs[t]] && HeadMoved(s.m, s.pcs[t], s'.m, s'.pcs[t])
  {
    assert s.pcs[t := s.pcs[t]] == s.pcs;
  }

  lemma DequeueKeepsHead<T>(s: State<T>, t: nat, c: Call<T>)
    requires Readable(s.m) && t < |s.pcs| && Local(s.m, s.pcs[t]) && Dequeues(s.pcs[t])
    ensures var s' := Step(s, t, c); s'.pcs == s.pcs[t := s'.pcs[t]] && HeadMoved(s.m, s.pcs[t], s'.m, s'.pcs[t])
  {
    assert s.pcs[t := s.pcs[t]] == s.pcs;
  }

  lemma StepHead<T>(s: State<T>, t: nat, c: Call<T>)
    requires Readable(s.m) && Head(s.m, s.pcs) && t < |s.pcs| && Local(s.m, s.pcs[t])
    requires s.pcs[t].ESpin? && s.m.next[s.pcs[t].pres] != NULL ==> |s.m.spare| >= 2
    ensures Head(Step(s, t, c).m, Step(s, t, c).pcs)
  {
    if Dequeues(s.pcs[t]) {
      DequeueKeepsHead(s, t, c);
    } else {
      EnqueueMovesHead(s, t, c);
    }
    HeadKept(s.m, s.pcs, t, Step(s, t, c).m, Step(s, t, c).pcs);
  }

  lemma HeadKept<T>(m: Mem<T>, pcs: seq<PC<T>>, t: nat, m': Mem<T>, pcs': seq<PC<T>>)
    requires Head(m, pcs) && t < |pcs| == |pcs'| && pcs' == pcs[t := pcs'[t]] && HeadMoved(m, pcs[t], m', pcs'[t])
    ensures Head(m', pcs')
  {
    if !pcs[t].EAdvance? && !pcs'[t].EAdvance? && m.sHead != m.spare[0] {
      var u :| 0 <= u < |pcs| && pcs[u].EAdvance?;
      assert pcs'[u].EAdvance?;
    }
  }

  /** Every timely step of any thread keeps the invariant. */
  lemma StepKeeps<T>(s: State<T>, t: nat, c: Call<T>)
    requires Inv(s) && t < |s.pcs| && Timely(s, t)
    ensures Sound(s.m) && Pointers(s.m, s.pcs[t]) && Inv(Step(s, t, c))
  {
    assert Local(s.m, s.pcs[t]);
    KeepsLocks(s, t, c);
    StepOwed(s, t, c);
    FoundHasNext(s.m, s.pcs, t);
    StepHead(s, t, c);
    if Quiet(s.m, s.pcs[t]) {
      QuietStepKeeps(s, t, c);
    } else if InS(s.pcs[t]) {
      TakeNodeKeeps(s, t, c);
    } else if Putting(s.pcs[t]) {
      PutNodeKeeps(s, t, c);
    } else if InU(s.pcs[t]) {
      GetValueKeeps(s, t, c);
    } else {
      RecycleKeeps(s, t, c);
    }
  }

  lemma FoundHasNext<T>(m: Mem<T>, pcs: seq<PC<T>>, t: nat)
    requires Nodes(m, pcs) && t < |pcs| && Local(m, pcs[t])
    ensures pcs[t].ESpin? && m.next[pcs[t].pres] != NULL ==> |m.spare| >= 2 && m.spare[1] == m.next[pcs[t].pres]
  {
    if pcs[t].ESpin? {
      assert m.next[m.spare[0]] == m.next[pcs[t].pres];
    }
  }
}
