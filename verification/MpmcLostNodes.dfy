/**
 * What a store of line 55 costs that is not clean. The queue stays a FIFO, but the nodes
 * behind the one that the store takes are in no list and held by no thread: they are lost,
 * unless a late link of line 86 brings one back, which breaks the FIFO.
 */
module MpmcLostNodes {
  import opened Sequences
  import opened MpmcSteps
  import opened MpmcLinearizable

  /** No exchange of line 85 lands between a test of line 52 and its store of line 55. */
  ghost predicate CleanRun<T>(states: seq<State<T>>, turns: seq<Turn<T>>) {
    && Run(states, turns)
    && forall i :: 0 <= i < |turns| && turns[i].t < |states[i].pcs| ==> Clean(states[i], turns[i].t)
  }

  /** Every node is in a list or held by a thread. */
  ghost predicate Accounted(count: nat, used: seq<nat>, spare: seq<nat>, owns: seq<nat>) {
    forall n :: 1 <= n < count ==> n in used || n in spare || n in owns
  }

  /** A link of line 86 is only ever to be written into a spare node. */
  ghost predicate Shelved<T>(m: Mem<T>, pcs: seq<PC<T>>) {
    forall u :: 0 <= u < |pcs| && pcs[u].DLink? ==> pcs[u].pres in m.spare
  }

  /** The invariant, and no node is lost. */
  ghost predicate Whole<T>(s: State<T>) {
    Inv(s) && Accounted(|s.m.next|, s.m.used, s.m.spare, Owns(s.pcs)) && Shelved(s.m, s.pcs)
  }

  lemma WholeIsTimely<T>(s: State<T>, t: nat)
    requires Whole(s) && t < |s.pcs|
    ensures Timely(s, t)
  {
    if s.pcs[t].EClear? {
      assert Owns(s.pcs)[t] == s.pcs[t].pres;
    }
  }

  // ----- clean steps lose nothing -----

  /** What a step of t does to the lists, but for the node that t takes up or puts down. */
  ghost predicate Carries<T>(s: State<T>, t: nat, s': State<T>)
    requires t < |s.pcs|
  {
    && |s'.pcs| == |s.pcs| && s'.pcs == s.pcs[t := s'.pcs[t]]
    && (|s'.m.next| == |s.m.next| || (|s'.m.next| == |s.m.next| + 1 && Own(s'.pcs[t]) == |s.m.next|))
    && (forall n :: n in s.m.used ==> n in s'.m.used || n == Own(s'.pcs[t]))
    && (forall n :: n in s.m.spare ==> n in s'.m.spare || n == Own(s'.pcs[t]))
    && (Own(s.pcs[t]) != NULL ==>
          || Own(s'.pcs[t]) == Own(s.pcs[t]) || Own(s.pcs[t]) in s'.m.used || Own(s.pcs[t]) in s'.m.spare)
  }

  lemma CarriedAccounted<T>(s: State<T>, t: nat, s': State<T>)
    requires t < |s.pcs| && Carries(s, t, s') && Accounted(|s.m.next|, s.m.used, s.m.spare, Owns(s.pcs))
    ensures Accounted(|s'.m.next|, s'.m.used, s'.m.spare, Owns(s'.pcs))
  {
    assert Owns(s'.pcs)[t] == Own(s'.pcs[t]);
    forall n | 1 <= n < |s'.m.next|
      ensures n in s'.m.used || n in s'.m.spare || n in Owns(s'.pcs)
    {
      if n < |s.m.next| && n in Owns(s.pcs) {
        var u :| 0 <= u < |s.pcs| && Owns(s.pcs)[u] == n;
        if u != t {
          assert Owns(s'.pcs)[u] == n;
        }
      }
    }
  }

  /** The lists' first nodes are those that a step may take off them. */
  lemma FirstsGo(l: seq<nat>, l': seq<nat>, n: nat)
    requires l != [] && ((l' == l[1..] && n == l[0]) || l <= l')
    ensures forall k :: k in l ==> k in l' || k == n
  {
    if l' == l[1..] {
      assert l == [l[0]] + l[1..];
    }
  }

  lemma TakeCarries<T>(s: State<T>, t: nat, c: Call<T>)
    requires Lists(s.m) && t < |s.pcs| && Local(s.m, s.pcs[t]) && Clean(s, t) && InS(s.pcs[t])
    ensures Carries(s, t, Step(s, t, c))
  {
    var s' := Step(s, t, c);
    if s.pcs[t].EStore? {
      assert s.m.spare == [s.pcs[t].pres] && s.pcs[t].nexts in s'.m.spare;
    } else if s.pcs[t].ESpin? && s.m.next[s.pcs[t].pres] != NULL {
      FirstsGo(s.m.spare, s'.m.spare, s.pcs[t].pres);
    }
  }

  lemma PutCarries<T>(s: State<T>, t: nat, c: Call<T>)
    requires Lists(s.m) && t < |s.pcs| && Local(s.m, s.pcs[t]) && !Dequeues(s.pcs[t]) && !InS(s.pcs[t])
    ensures Carries(s, t, Step(s, t, c))
  {
    var s' := Step(s, t, c);
    assert s.pcs[t := s.pcs[t]] == s.pcs;
    if s.pcs[t].EXchg? {
      assert s.pcs[t].pres in s'.m.used;
    }
  }

  lemma DummyCarries<T>(s: State<T>, t: nat, c: Call<T>)
    requires Lists(s.m) && t < |s.pcs| && Local(s.m, s.pcs[t]) && s.pcs[t].DAdvance?
    ensures Carries(s, t, Step(s, t, c))
  {
    FirstsGo(s.m.used, Step(s, t, c).m.used, s.m.uHead);
  }

  lemma GetCarries<T>(s: State<T>, t: nat, c: Call<T>)
    requires Lists(s.m) && t < |s.pcs| && Local(s.m, s.pcs[t]) && InU(s.pcs[t]) && !s.pcs[t].DAdvance?
    ensures Carries(s, t, Step(s, t, c))
  {
    var s' := Step(s, t, c);
    assert s'.m.used == s.m.used && s'.m.spare == s.m.spare && s'.m.next == s.m.next;
  }

  lemma RecycleCarries<T>(s: State<T>, t: nat, c: Call<T>)
    requires Lists(s.m) && t < |s.pcs| && Local(s.m, s.pcs[t]) && Dequeues(s.pcs[t]) && !InU(s.pcs[t])
    ensures Carries(s, t, Step(s, t, c))
  {
    var s' := Step(s, t, c);
    assert s.pcs[t := s.pcs[t]] == s.pcs;
    if s.pcs[t].DXchg? {
      assert s.pcs[t].preu in s'.m.spare;
    }
  }

  lemma StepCarries<T>(s: State<T>, t: nat, c: Call<T>)
    requires Lists(s.m) && t < |s.pcs| && Local(s.m, s.pcs[t]) && Clean(s, t)
    ensures Carries(s, t, Step(s, t, c))
  {
    if InS(s.pcs[t]) {
      TakeCarries(s, t, c);
    } else if s.pcs[t].DAdvance? {
      DummyCarries(s, t, c);
    } else if InU(s.pcs[t]) {
      GetCarries(s, t, c);
    } else if Dequeues(s.pcs[t]) {
      RecycleCarries(s, t, c);
    } else {
      PutCarries(s, t, c);
    }
  }

  /** Nor do they take a node off the spare list into which a link is still to be written. */
  lemma CleanKeepsShelved<T>(s: State<T>, t: nat, c: Call<T>)
    requires Inv(s) && Shelved(s.m, s.pcs) && t < |s.pcs| && Clean(s, t) && Local(s.m, s.pcs[t])
    ensures Shelved(Step(s, t, c).m, Step(s, t, c).pcs)
  {
    var s' := Step(s, t, c);
    forall u | 0 <= u < |s'.pcs| && s'.pcs[u].DLink?
      ensures s'.pcs[u].pres in s'.m.spare
    {
      PcsOf(s, t, c, u);
      if u == t {
        assert s'.m.spare == s.m.spare + [s.pcs[t].preu] && s.m.sTail in s.m.spare;
      } else {
        assert Local(s.m, s.pcs[u]);
        StillShelved(s, t, c, s.pcs[u]);
      }
    }
  }

  lemma PcsOf<T>(s: State<T>, t: nat, c: Call<T>, u: nat)
    requires Sound(s.m) && t < |s.pcs| && Pointers(s.m, s.pcs[t]) && u < |s.pcs|
    ensures |Step(s, t, c).pcs| == |s.pcs|
    ensures if u != t then Step(s, t, c).pcs[u] == s.pcs[u]
            else Step(s, t, c).pcs[t].DLink? ==> s.pcs[t].DXchg? && Step(s, t, c).pcs[t].pres == s.m.sTail
  {
  }

  lemma StillShelved<T>(s: State<T>, t: nat, c: Call<T>, pc: PC<T>)
    requires Lists(s.m) && t < |s.pcs| && Clean(s, t) && Local(s.m, s.pcs[t])
    requires pc.DLink? && Local(s.m, pc) && pc.pres in s.m.spare
    ensures pc.pres in Step(s, t, c).m.spare
  {
    var l := s.m.spare;
    var k :| 0 <= k < |l| - 1 && l[k] == pc.pres && l[k + 1] == pc.preu;
    SpareAfter(s, t, c);
    if Step(s, t, c).m.spare == l[1..] && s.m.next[l[0]] != NULL {
      assert l[1..][k - 1] == pc.pres;
    }
  }

  /** What a clean step does to the spare list. */
  lemma SpareAfter<T>(s: State<T>, t: nat, c: Call<T>)
    requires Readable(s.m) && t < |s.pcs| && Clean(s, t) && Local(s.m, s.pcs[t])
    ensures var l, l' := s.m.spare, Step(s, t, c).m.spare;
      l <= l' || (l' == l[1..] && s.m.next[l[0]] != NULL) || l[0] == l[|l| - 1]
  {
  }

  lemma CleanKeepsWhole<T>(s: State<T>, t: nat, c: Call<T>)
    requires Whole(s) && t < |s.pcs| && Clean(s, t)
    ensures Sound(s.m) && Pointers(s.m, s.pcs[t]) && Whole(Step(s, t, c))
  {
    assert Local(s.m, s.pcs[t]);
    WholeIsTimely(s, t);
    StepKeeps(s, t, c);
    StepCarries(s, t, c);
    CarriedAccounted(s, t, Step(s, t, c));
    CleanKeepsShelved(s, t, c);
  }

  // ----- clean runs -----

  lemma {:induction false} CleanRunIsWhole<T>(states: seq<State<T>>, turns: seq<Turn<T>>, i: nat)
    requires CleanRun(states, turns) && i < |states|
    ensures Whole(states[i])
  {
    if i == 0 {
      InitInv(|states[0].pcs|, states[0].m.blank);
      assert states[0].m.used[0] == 2 && states[0].m.spare[0] == 1;
    } else {
      CleanRunIsWhole(states, turns, i - 1);
      assert Moves(states[i - 1], turns[i - 1], states[i]);
      CleanKeepsWhole(states[i - 1], turns[i - 1].t, turns[i - 1].c);
    }
  }

  /** A clean run is timely, and so linearizable. */
  lemma CleanRunIsTimely<T>(states: seq<State<T>>, turns: seq<Turn<T>>)
    requires CleanRun(states, turns)
    ensures TimelyRun(states, turns)
  {
    forall i | 0 <= i < |turns| && turns[i].t < |states[i].pcs|
      ensures Timely(states[i], turns[i].t)
    {
      CleanRunIsWhole(states, turns, i);
      WholeIsTimely(states[i], turns[i].t);
    }
  }

  /** In a clean run each node is at every instant in exactly one list or held by exactly one thread. */
  lemma NodesPartitioned<T>(states: seq<State<T>>, turns: seq<Turn<T>>, i: nat, n: nat)
    requires CleanRun(states, turns) && i < |states| && IsNode(states[i].m, n)
    ensures var m, owns := states[i].m, Owns(states[i].pcs);
      && (n in m.used ==> n !in m.spare && n !in owns)
      && (n in m.spare ==> n !in m.used && n !in owns)
      && (n in m.used || n in m.spare || n in owns)
      && (forall t, u :: 0 <= t < |owns| && 0 <= u < |owns| && owns[t] == owns[u] == n ==> t == u)
  {
    CleanRunIsWhole(states, turns, i);
  }

  // ----- dirty stores -----

  /** Some lists and histories explain the memory and the threads' places, with no node lost. */
  ghost predicate Explained<T(!new)>(s: State<T>) {
    exists used: seq<nat>, spare: seq<nat>, put: seq<T>, got: seq<T> :: Whole(Recast(s, used, spare, put, got))
  }

  /** Two lists with the same ends and the same links are equal. */
  lemma {:induction false} ChainsAgree(next: seq<nat>, froms: seq<nat>, tos: seq<nat>, a: seq<nat>, b: seq<nat>, k: nat)
    requires Linked(next, froms, tos, a) && Linked(next, froms, tos, b) && Sole(froms) && |froms| == |tos|
    requires NULL !in a && NULL !in b && k < |a| && k < |b| && a[0] == b[0]
    ensures a[k] == b[k]
  {
    if k > 0 {
      ChainsAgree(next, froms, tos, a, b, k - 1);
      assert a[k] in a && b[k] in b && a[k - 1] in a;
      assert next[a[k - 1]] == a[k] || (next[a[k - 1]] == NULL && Pending(froms, tos, a[k - 1], a[k]));
      assert next[b[k - 1]] == b[k] || (next[b[k - 1]] == NULL && Pending(froms, tos, b[k - 1], b[k]));
    }
  }

  lemma SameUsed<T>(m: Mem<T>, m': Mem<T>, froms: seq<nat>, tos: seq<nat>)
    requires Lists(m) && Lists(m') && Links(m, froms, tos) && Links(m', froms, tos)
    requires m'.next == m.next && m'.uHead == m.uHead && m'.uTail == m.uTail
    ensures m'.used == m.used
  {
    var a, b := m.used, m'.used;
    forall k | 0 <= k < |a| && k < |b|
      ensures a[k] == b[k]
    {
      ChainsAgree(m.next, froms, tos, a, b, k);
    }
    SameEnd(a, b);
  }

  lemma SameEnd(a: seq<nat>, b: seq<nat>)
    requires a != [] && b != [] && Distinct(a) && Distinct(b) && a[|a| - 1] == b[|b| - 1]
    requires forall k :: 0 <= k < |a| && k < |b| ==> a[k] == b[k]
    ensures a == b
  {
    var k := if |a| <= |b| then |a| - 1 else |b| - 1;
    assert a[k] == b[k];
  }

  /** After a store that is not clean, no choice of lists explains the memory with no node lost. */
  lemma DirtyStoreInconsistent<T(!new)>(s: State<T>, t: nat, c: Call<T>)
    requires Inv(s) && t < |s.pcs| && s.pcs[t].EStore? && s.m.sTail != s.pcs[t].pres
    ensures Sound(s.m) && Pointers(s.m, s.pcs[t]) && !Explained(Step(s, t, c))
  {
    assert Local(s.m, s.pcs[t]);
    forall used, spare, put, got
      ensures !Whole(Recast(Step(s, t, c), used, spare, put, got))
    {
      TailUnaccounted(s, t, c, Recast(Step(s, t, c), used, spare, put, got));
    }
  }

  lemma TailUnaccounted<T>(s: State<T>, t: nat, c: Call<T>, s': State<T>)
    requires Inv(s) && t < |s.pcs| && s.pcs[t].EStore? && s.m.sTail != s.pcs[t].pres
    requires Sound(s.m) && Pointers(s.m, s.pcs[t])
    requires s'.pcs == Step(s, t, c).pcs && s'.m.next == s.m.next && s'.m.sTail == s.pcs[t].nexts
    requires s'.m.uHead == s.m.uHead && s'.m.uTail == s.m.uTail
    ensures !Whole(s')
  {
    var z, n := s.m.sTail, s.pcs[t].nexts;
    assert Local(s.m, s.pcs[t]) && Owns(s.pcs)[t] == n && z in s.m.spare;
    Moved(s.pcs, t, s'.pcs[t]);
    assert Froms(s'.pcs) == Froms(s.pcs) && Tos(s'.pcs) == Tos(s.pcs);
    if Inv(s') {
      SameUsed(s.m, s'.m, Froms(s.pcs), Tos(s.pcs));
      assert Local(s'.m, s'.pcs[t]);
      assert s'.m.spare == [n];
      assert z !in Owns(s'.pcs) by {
        assert forall u :: 0 <= u < |s.pcs| && u != t ==> Owns(s'.pcs)[u] == Owns(s.pcs)[u];
      }
    }
  }

  /** The runs that lose no node, for the lists of the history or for any others, are exactly the clean ones. */
  lemma WholeIffClean<T(!new)>(states: seq<State<T>>, turns: seq<Turn<T>>)
    requires Run(states, turns)
    ensures (forall i :: 0 <= i < |states| ==> Whole(states[i])) <==> CleanRun(states, turns)
    ensures (forall i :: 0 <= i < |states| ==> Explained(states[i])) <==> CleanRun(states, turns)
  {
    if CleanRun(states, turns) {
      forall i | 0 <= i < |states|
        ensures Whole(states[i]) && Explained(states[i])
      {
        CleanRunIsWhole(states, turns, i);
        var m := states[i].m;
        assert Whole(Recast(states[i], m.used, m.spare, m.put, m.got));
      }
    } else {
      var i := FirstDirty(states, turns);
      assert Moves(states[i], turns[i], states[i + 1]);
      DirtyStoreInconsistent(states[i], turns[i].t, turns[i].c);
      var m := states[i + 1].m;
      assert Whole(states[i + 1]) ==> Whole(Recast(states[i + 1], m.used, m.spare, m.put, m.got));
    }
  }

  /** A run that is not clean is so from some turn on, and loses no node up to there. */
  lemma FirstDirty<T>(states: seq<State<T>>, turns: seq<Turn<T>>) returns (i: nat)
    requires Run(states, turns) && !CleanRun(states, turns)
    ensures i < |turns| && turns[i].t < |states[i].pcs| && !Clean(states[i], turns[i].t) && Whole(states[i])
  {
    CleanRunIsWhole([states[0]], [], 0);
    i := 0;
    while turns[i].t >= |states[i].pcs| || Clean(states[i], turns[i].t)
      invariant i < |turns| && Whole(states[i])
      invariant forall k :: 0 <= k < i && turns[k].t < |states[k].pcs| ==> Clean(states[k], turns[k].t)
      decreases |turns| - i
    {
      assert Moves(states[i], turns[i], states[i + 1]);
      CleanKeepsWhole(states[i], turns[i].t, turns[i].c);
      i := i + 1;
      if i == |turns| {
        assert false;
      }
    }
  }

  // ----- which node is lost -----

  /** p is linked to q, or some thread is about to link it. */
  ghost predicate Edge(next: seq<nat>, froms: seq<nat>, tos: seq<nat>, p: nat, q: nat) {
    q != NULL && ((p < |next| && next[p] == q) || Pending(froms, tos, p, q))
  }

  ghost predicate Path(next: seq<nat>, froms: seq<nat>, tos: seq<nat>, l: seq<nat>) {
    l != [] && forall k :: 0 <= k < |l| - 1 ==> Edge(next, froms, tos, l[k], l[k + 1])
  }

  ghost predicate Reaches(next: seq<nat>, froms: seq<nat>, tos: seq<nat>, p: nat, q: nat) {
    exists l :: Path(next, froms, tos, l) && l[0] == p && l[|l| - 1] == q
  }

  /** h is the head of the spare list, or what a thread is about to make it. */
  ghost predicate Front<T>(s: State<T>, h: nat) {
    || (h == s.m.sHead && forall t :: 0 <= t < |s.pcs| ==> !s.pcs[t].EAdvance?)
    || exists t :: 0 <= t < |s.pcs| && s.pcs[t].EAdvance? && s.pcs[t].nexts == h
  }

  /** At this instant no list leads to node n and no thread holds it. No history variable is looked at. */
  ghost predicate Lost<T>(s: State<T>, n: nat) {
    && n !in Owns(s.pcs)
    && !Reaches(s.m.next, Froms(s.pcs), Tos(s.pcs), s.m.uHead, n)
    && forall h :: Front(s, h) ==> !Reaches(s.m.next, Froms(s.pcs), Tos(s.pcs), h, n)
  }

  /** A path does not leave a set that no edge leaves. */
  lemma {:induction false} PathStays(next: seq<nat>, froms: seq<nat>, tos: seq<nat>, l: seq<nat>, nodes: set<nat>)
    requires Path(next, froms, tos, l) && l[0] in nodes
    requires forall p, q :: p in nodes && Edge(next, froms, tos, p, q) ==> q in nodes
    ensures l[|l| - 1] in nodes
  {
    if |l| > 1 {
      assert Edge(next, froms, tos, l[0], l[1]);
      forall k | 0 <= k < |l[1..]| - 1
        ensures Edge(next, froms, tos, l[1..][k], l[1..][k + 1])
      {
        assert Edge(next, froms, tos, l[k + 1], l[k + 2]);
      }
      PathStays(next, froms, tos, l[1..], nodes);
    }
  }

  lemma StaysWithin(next: seq<nat>, froms: seq<nat>, tos: seq<nat>, nodes: set<nat>, p: nat, n: nat)
    requires p in nodes && n !in nodes
    requires forall p, q :: p in nodes && Edge(next, froms, tos, p, q) ==> q in nodes
    ensures !Reaches(next, froms, tos, p, n)
  {
    if Reaches(next, froms, tos, p, n) {
      var l :| Path(next, froms, tos, l) && l[0] == p && l[|l| - 1] == n;
      PathStays(next, froms, tos, l, nodes);
    }
  }

  /** A listed node is reached from the head of its list. */
  lemma ListReached(next: seq<nat>, froms: seq<nat>, tos: seq<nat>, l: seq<nat>, n: nat)
    requires Linked(next, froms, tos, l) && |froms| == |tos| && NULL !in l && n in l
    ensures Reaches(next, froms, tos, l[0], n)
  {
    var k :| 0 <= k < |l| && l[k] == n;
    var path := l[..k + 1];
    forall i | 0 <= i < |path| - 1
      ensures Edge(next, froms, tos, path[i], path[i + 1])
    {
      assert l[i + 1] in l;
      assert next[l[i]] == l[i + 1] || Pending(froms, tos, l[i], l[i + 1]);
    }
    assert Path(next, froms, tos, path) && path[0] == l[0] && path[|path| - 1] == n;
  }

  lemma FrontIsFirst<T>(s: State<T>, h: nat)
    requires Inv(s)
    ensures Front(s, h) <==> h == s.m.spare[0]
  {
    assert forall t :: 0 <= t < |s.pcs| && s.pcs[t].EAdvance? ==> Local(s.m, s.pcs[t]);
  }

  lemma ListedNotLost<T>(s: State<T>, n: nat)
    requires Inv(s) && (n in s.m.used || n in s.m.spare)
    ensures !Lost(s, n)
  {
    FromsListed(s.m, s.pcs);
    FrontIsFirst(s, s.m.spare[0]);
    if n in s.m.used {
      ListReached(s.m.next, Froms(s.pcs), Tos(s.pcs), s.m.used, n);
    } else {
      ListReached(s.m.next, Froms(s.pcs), Tos(s.pcs), s.m.spare, n);
    }
  }

  /** In a clean run nothing is lost, in the links of the memory themselves. */
  lemma NothingLost<T>(states: seq<State<T>>, turns: seq<Turn<T>>, i: nat, n: nat)
    requires CleanRun(states, turns) && i < |states| && IsNode(states[i].m, n)
    ensures !Lost(states[i], n)
  {
    CleanRunIsWhole(states, turns, i);
    if n in states[i].m.used || n in states[i].m.spare {
      ListedNotLost(states[i], n);
    }
  }

  /** No edge leaves the used list. */
  lemma UsedClosed<T>(m: Mem<T>, pcs: seq<PC<T>>, p: nat, q: nat)
    requires Nodes(m, pcs) && p in m.used && Edge(m.next, Froms(pcs), Tos(pcs), p, q)
    ensures q in m.used
  {
    if m.next[p] == q {
      var k :| 0 <= k < |m.used| && m.used[k] == p;
      assert k < |m.used| - 1;
      assert m.used[k + 1] == q;
    } else {
      var u :| 0 <= u < |pcs| && Froms(pcs)[u] == p && Tos(pcs)[u] == q;
      assert Local(m, pcs[u]);
    }
  }

  /** No edge leaves a node that a thread has allocated and not yet listed. */
  lemma NewHasNoEdge<T>(s: State<T>, t: nat, q: nat)
    requires Inv(s) && t < |s.pcs| && s.pcs[t].EStore?
    ensures !Edge(s.m.next, Froms(s.pcs), Tos(s.pcs), s.pcs[t].nexts, q)
  {
    var m, pcs, n := s.m, s.pcs, s.pcs[t].nexts;
    assert Local(m, pcs[t]) && Owns(pcs)[t] == n && Own(pcs[t]) == n;
    forall u | 0 <= u < |pcs|
      ensures Froms(pcs)[u] != n
    {
      assert Local(m, pcs[u]);
      FromListed(m, pcs[u]);
    }
  }

  /** What the store of line 55 does to the heads, the links and the threads. */
  lemma StoreStep<T>(s: State<T>, t: nat, c: Call<T>)
    requires Inv(s) && t < |s.pcs| && s.pcs[t].EStore?
    ensures Sound(s.m) && Pointers(s.m, s.pcs[t])
    ensures var s' := Step(s, t, c);
      && s'.m.next == s.m.next && s'.m.uHead == s.m.uHead
      && s'.pcs == s.pcs[t := EAdvance(s.pcs[t].v, s.pcs[t].pres, s.pcs[t].nexts)]
      && Froms(s'.pcs) == Froms(s.pcs) && Tos(s'.pcs) == Tos(s.pcs)
      && Owns(s'.pcs) == Owns(s.pcs)[t := s.pcs[t].pres]
      && forall h :: Front(s', h) <==> h == s.pcs[t].nexts
  {
    assert Local(s.m, s.pcs[t]);
    Moved(s.pcs, t, EAdvance(s.pcs[t].v, s.pcs[t].pres, s.pcs[t].nexts));
    assert Froms(s.pcs)[t] == NULL && Tos(s.pcs)[t] == NULL;
    assert Step(s, t, c).pcs[t].EAdvance?;
  }

  /** The tail that a dirty store overwrites is lost there and then. */
  lemma DirtyStoreLoses<T>(s: State<T>, t: nat, c: Call<T>)
    requires Inv(s) && t < |s.pcs| && s.pcs[t].EStore? && s.m.sTail != s.pcs[t].pres
    ensures Sound(s.m) && Pointers(s.m, s.pcs[t])
    ensures IsNode(s.m, s.m.sTail) && !Lost(s, s.m.sTail) && Lost(Step(s, t, c), s.m.sTail)
  {
    var m, pcs, z, n := s.m, s.pcs, s.m.sTail, s.pcs[t].nexts;
    var froms, tos := Froms(pcs), Tos(pcs);
    StoreStep(s, t, c);
    assert z in m.spare;
    ListedNotLost(s, z);
    assert Owns(pcs)[t] == n;
    var used := set p | p in m.used;
    forall p, q | p in used && Edge(m.next, froms, tos, p, q)
      ensures q in used
    {
      UsedClosed(m, pcs, p, q);
    }
    StaysWithin(m.next, froms, tos, used, m.uHead, z);
    forall q ensures !Edge(m.next, froms, tos, n, q) {
      NewHasNoEdge(s, t, q);
    }
    StaysWithin(m.next, froms, tos, {n}, n, z);
  }

  lemma ReachesItself(next: seq<nat>, froms: seq<nat>, tos: seq<nat>, n: nat)
    ensures Reaches(next, froms, tos, n, n)
  {
    assert Path(next, froms, tos, [n]);
  }

  /** A clean store loses nothing. */
  lemma CleanStoreLosesNone<T>(s: State<T>, t: nat, c: Call<T>, n: nat)
    requires Inv(s) && t < |s.pcs| && s.pcs[t].EStore? && s.m.sTail == s.pcs[t].pres && !Lost(s, n)
    ensures Sound(s.m) && Pointers(s.m, s.pcs[t])
    ensures !Lost(Step(s, t, c), n)
  {
    var m, pcs, p := s.m, s.pcs, s.pcs[t].pres;
    var froms, tos := Froms(pcs), Tos(pcs);
    StoreStep(s, t, c);
    assert Local(m, pcs[t]) && m.spare == [p];
    FrontIsFirst(s, p);
    if n in Owns(pcs) {
      var u :| 0 <= u < |pcs| && Owns(pcs)[u] == n;
      if u == t {
        ReachesItself(m.next, froms, tos, n);
        assert Front(Step(s, t, c), n);
      } else {
        assert Owns(Step(s, t, c).pcs)[u] == n;
      }
    } else if !Reaches(m.next, froms, tos, m.uHead, n) {
      LastReachesItself(s, n);
      assert Owns(Step(s, t, c).pcs)[t] == p;
    }
  }

  lemma LastReachesItself<T>(s: State<T>, n: nat)
    requires Inv(s) && |s.m.spare| == 1
    requires forall h :: Front(s, h) ==> h == s.m.spare[0]
    requires !Lost(s, n) && n !in Owns(s.pcs) && !Reaches(s.m.next, Froms(s.pcs), Tos(s.pcs), s.m.uHead, n)
    ensures n == s.m.spare[0]
  {
    var m, p := s.m, s.m.spare[0];
    forall q ensures !Edge(m.next, Froms(s.pcs), Tos(s.pcs), p, q) {
      forall u | 0 <= u < |s.pcs| ensures Froms(s.pcs)[u] != p {
        assert Local(m, s.pcs[u]);
        FromListed(m, s.pcs[u]);
      }
    }
    if n != p {
      StaysWithin(m.next, Froms(s.pcs), Tos(s.pcs), {p}, p, n);
    }
  }

  /** The store of line 55 loses a node exactly when it is not clean. */
  lemma StoreLosesIffDirty<T>(s: State<T>, t: nat, c: Call<T>)
    requires Inv(s) && t < |s.pcs| && s.pcs[t].EStore?
    ensures Sound(s.m) && Pointers(s.m, s.pcs[t])
    ensures (exists n :: !Lost(s, n) && Lost(Step(s, t, c), n)) <==> s.m.sTail != s.pcs[t].pres
  {
    if s.m.sTail != s.pcs[t].pres {
      DirtyStoreLoses(s, t, c);
    } else {
      assert Local(s.m, s.pcs[t]);
      forall n | !Lost(s, n)
        ensures !Lost(Step(s, t, c), n)
      {
        CleanStoreLosesNone(s, t, c, n);
      }
    }
  }
}
