/**
 * The queue on the heap, used by one thread at a time: two linked lists of nodes, the
 * nodes moving from the spare list to the used list and back.
 */
module MpmcQueue {
  import opened Sequences
  import opened Options

  class BufferNode<T> {
    var data: T
    var next_: BufferNode?<T>

    constructor (data: T)
      ensures this.data == data && next_ == null
    {
      this.data := data;
      next_ := null;
    }
  }

  function Max(a: nat, b: nat): nat {
    if a < b then b else a
  }

  /** l is a null-terminated chain of distinct nodes. */
  ghost predicate Chain<T>(l: seq<BufferNode<T>>)
    reads l
  {
    && Distinct(l)
    && (forall k :: 0 <= k < |l| - 1 ==> l[k].next_ == l[k + 1])
    && (l != [] ==> l[|l| - 1].next_ == null)
  }

  class MpmcQueue<T> {
    var uHead_: BufferNode?<T>
    var uTail_: BufferNode?<T>
    var sHead_: BufferNode?<T>
    var sTail_: BufferNode?<T>
    const blank: T                       // a default-constructed value

    ghost var used: seq<BufferNode<T>>   // the used list, its dummy first
    ghost var spare: seq<BufferNode<T>>
    ghost var contents: seq<T>
    ghost var peak: nat                  // the largest length so far

    /** The two lists, apart from any node that an operation has taken out of them. */
    ghost predicate Lists()
      reads this, used, spare
    {
      && used != [] && spare != []
      && Chain(used) && Chain(spare)
      && (forall n :: n in used ==> n !in spare)
      && uHead_ == used[0] && uTail_ == used[|used| - 1]
      && sHead_ == spare[0] && sTail_ == spare[|spare| - 1]
      && |contents| == |used| - 1
      && (forall k :: 0 <= k < |contents| ==> used[k + 1].data == contents[k])
    }

    ghost predicate Valid()
      reads this, used, spare
    {
      && Lists()
      && |contents| <= peak
      && |spare| == 1 + (peak - |contents|)
    }

    /** Every node of the queue. */
    ghost function Nodes(): set<BufferNode<T>>
      reads this
    {
      (set n | n in used) + (set n | n in spare)
    }

    constructor (blank: T)
      ensures Valid() && contents == [] && peak == 0
      ensures |used| + |spare| == 2 && forall n :: n in Nodes() ==> fresh(n)
    {
      var s := new BufferNode(blank);
      var u := new BufferNode(blank);
      this.blank := blank;
      sHead_, sTail_ := s, s;
      uHead_, uTail_ := u, u;
      used, spare, contents, peak := [u], [s], [], 0;
    }

    /** Lines 47 to 60: the first spare node, another being allocated behind the last one. */
    method TakeSpare() returns (pres: BufferNode<T>)
      requires Lists()
      modifies this`sHead_, this`sTail_, this`spare
      ensures Lists()
      ensures pres == old(spare)[0] && pres !in spare && pres !in used
      ensures if |old(spare)| == 1 then |spare| == 1 && fresh(spare[0]) else spare == old(spare)[1..]
    {
      pres := sHead_;
      var nexts := pres.next_;
      assert |spare| >= 2 ==> nexts == spare[1];
      if nexts == null {
        // alone, so the test of line 52 succeeds and the loop of line 50 does not spin
        assert sHead_ == sTail_;
        var next := new BufferNode(blank);
        nexts, sTail_ := next, next;
        spare := [next];
      } else {
        spare := spare[1..];
      }
      sHead_ := nexts;
    }

    /** Lines 61 to 64: a free node, with the value, goes to the end of the used list. */
    method AppendUsed(pres: BufferNode<T>, input: T)
      requires Lists() && pres !in used && pres !in spare
      modifies this`uTail_, this`used, this`contents, pres, uTail_
      ensures Lists() && used == old(used) + [pres] && contents == old(contents) + [input]
    {
      assert spare[|spare| - 1] in spare && used[|used| - 1] in used;
      pres.data := input;
      pres.next_ := null;
      var preu := uTail_;
      uTail_ := pres;
      preu.next_ := pres;
      used := used + [pres];
      contents := contents + [input];
    }

    /** Lines 71 to 83: the dummy is detached and its successor's value moved out. */
    method DetachDummy() returns (preu: BufferNode<T>, output: Option<T>)
      requires Lists()
      modifies this`uHead_, this`used, this`contents
      ensures Lists() && preu == old(used)[0]
      ensures if old(contents) == [] then output == None && unchanged(this)
              else output == Some(old(contents)[0]) && contents == old(contents)[1..] && used == old(used)[1..]
    {
      preu := uHead_;
      var nextu := preu.next_;
      assert |used| >= 2 ==> nextu == used[1];
      if nextu == null {
        // alone, so the test of line 76 succeeds and the loop of line 74 does not spin
        assert uHead_ == uTail_;
        return preu, None;
      }
      uHead_ := nextu;
      output := Some(nextu.data);
      used := used[1..];
      contents := contents[1..];
    }

    /** Lines 84 to 86: a free node goes to the end of the spare list. */
    method AppendSpare(preu: BufferNode<T>)
      requires Lists() && preu !in used && preu !in spare
      modifies this`sTail_, this`spare, preu, sTail_
      ensures Lists() && spare == old(spare) + [preu]
    {
      assert spare[|spare| - 1] in spare && used[|used| - 1] in used;
      preu.next_ := null;
      var pres := sTail_;
      sTail_ := preu;
      pres.next_ := preu;
      spare := spare + [preu];
    }

    /** Puts input at the end of the queue, in a spare node if there is one. */
    method Enqueue(input: T)
      requires Valid()
      modifies this, Nodes()
      ensures Valid()
      ensures contents == old(contents) + [input]
      ensures peak == Max(old(peak), |contents|)
      ensures forall n :: n in Nodes() ==> n in old(Nodes()) || fresh(n)
      ensures old(Nodes()) <= Nodes()
    {
      assert spare[0] in spare;
      var pres := TakeSpare();
      assert uTail_ in used;
      AppendUsed(pres, input);
      peak := Max(peak, |contents|);
    }

    /** Takes the oldest value, if any; the old dummy goes to the spare list. */
    method Dequeue() returns (output: Option<T>)
      requires Valid()
      modifies this, Nodes()
      ensures Valid() && peak == old(peak) && Nodes() == old(Nodes())
      ensures if old(contents) == [] then output == None && contents == []
              else output == Some(old(contents)[0]) && contents == old(contents)[1..]
    {
      assert used[0] in used && forall k :: 0 < k < |used| ==> used[k] != used[0];
      var preu;
      preu, output := DetachDummy();
      if output.Some? {
        assert sTail_ in spare;
        AppendSpare(preu);
      }
    }

    /**
     * The destructor walks both lists. `freed` is what it deletes, in order: each node
     * of the queue once, and no other.
     */
    method Destroy() returns (freed: seq<BufferNode<T>>)
      requires Valid()
      modifies this`sHead_, this`uHead_
      ensures sHead_ == null && uHead_ == null
      ensures freed == spare + used && Distinct(freed)
      ensures |freed| == 2 + peak
    {
      freed := [];
      ghost var k := 0;
      var temp := sHead_;
      while temp != null
        invariant k <= |spare| && freed == spare[..k] && sHead_ == temp && uHead_ == old(uHead_)
        invariant temp == if k < |spare| then spare[k] else null
        decreases |spare| - k
      {
        sHead_ := temp.next_;
        freed := freed + [temp];
        k := k + 1;
        temp := sHead_;
      }
      assert freed == spare;
      k := 0;
      temp := uHead_;
      while temp != null
        invariant k <= |used| && freed == spare + used[..k] && uHead_ == temp && sHead_ == null
        invariant temp == if k < |used| then used[k] else null
        decreases |used| - k
      {
        uHead_ := temp.next_;
        freed := freed + [temp];
        k := k + 1;
        temp := uHead_;
      }
      assert freed == spare + used;
      forall i, j | 0 <= i < j < |freed|
        ensures freed[i] != freed[j]
      {
        assert i < |spare| ==> freed[i] in spare;
        assert j >= |spare| ==> freed[j] in used;
      }
    }
  }

  // ----- every sequence of operations -----

  datatype Op<T> = Put(value: T) | Get

  /** What an operation does to a plain list, and what it returns. */
  function Next<T>(l: seq<T>, op: Op<T>): (r: (seq<T>, Option<T>)) {
    match op
    case Put(v) => (l + [v], None)
    case Get => if l == [] then (l, None) else (l[1..], Some(l[0]))
  }

  /** The list after the first n operations. */
  function After<T>(n: nat, ops: seq<Op<T>>): (l: seq<T>)
    requires n <= |ops|
  {
    if n == 0 then [] else Next(After(n - 1, ops), ops[n - 1]).0
  }

  /** The largest length of that list so far. */
  function Peak<T>(n: nat, ops: seq<Op<T>>): (p: nat)
    requires n <= |ops|
  {
    if n == 0 then 0 else Max(Peak(n - 1, ops), |After(n, ops)|)
  }

  lemma {:induction false} PeakIsLargest<T>(n: nat, ops: seq<Op<T>>)
    requires n <= |ops|
    ensures forall i :: 0 <= i <= n ==> |After(i, ops)| <= Peak(n, ops)
    ensures exists i :: 0 <= i <= n && |After(i, ops)| == Peak(n, ops)
  {
    if n == 0 {
      assert |After(0, ops)| == 0;
    } else {
      PeakIsLargest(n - 1, ops);
      var i :| 0 <= i <= n - 1 && |After(i, ops)| == Peak(n - 1, ops);
      assert |After(if Peak(n - 1, ops) < |After(n, ops)| then n else i, ops)| == Peak(n, ops);
    }
  }

  method Perform<T>(q: MpmcQueue<T>, op: Op<T>) returns (out: Option<T>)
    requires q.Valid()
    modifies q, q.Nodes()
    ensures q.Valid() && (q.contents, out) == Next(old(q.contents), op)
    ensures q.peak == Max(old(q.peak), |q.contents|)
    ensures forall n :: n in q.Nodes() ==> n in old(q.Nodes()) || fresh(n)
  {
    out := None;
    if op.Put? {
      q.Enqueue(op.value);
    } else {
      out := q.Dequeue();
    }
  }

  /** One more operation of a sequence, of which the first n are done. */
  method PerformNext<T>(q: MpmcQueue<T>, n: nat, ops: seq<Op<T>>) returns (out: Option<T>)
    requires n < |ops| && q.Valid() && q.contents == After(n, ops) && q.peak == Peak(n, ops)
    modifies q, q.Nodes()
    ensures q.Valid() && q.contents == After(n + 1, ops) && q.peak == Peak(n + 1, ops)
    ensures out == Answer(n, ops)
    ensures forall node :: node in q.Nodes() ==> node in old(q.Nodes()) || fresh(node)
  {
    out := Perform(q, ops[n]);
    assert After(n + 1, ops) == Next(After(n, ops), ops[n]).0;
  }

  /** What the i-th operation on a plain list returns. */
  function Answer<T>(i: nat, ops: seq<Op<T>>): Option<T>
    requires i < |ops|
  {
    Next(After(i, ops), ops[i]).1
  }

  /** The results are those of a plain list. */
  ghost predicate Answers<T>(outs: seq<Option<T>>, ops: seq<Op<T>>) {
    && |outs| <= |ops|
    && forall i {:trigger outs[i]} :: 0 <= i < |outs| ==> outs[i] == Answer(i, ops)
  }

  lemma AnswersMore<T>(outs: seq<Option<T>>, ops: seq<Op<T>>, out: Option<T>)
    requires Answers(outs, ops) && |outs| < |ops| && out == Answer(|outs|, ops)
    ensures Answers(outs + [out], ops)
  {
    var outs' := outs + [out];
    forall i | 0 <= i < |outs'|
      ensures outs'[i] == Answer(i, ops)
    {
      assert i < |outs| ==> outs'[i] == outs[i];
    }
  }

  /** All the operations of a sequence, on an empty queue. */
  method PerformAll<T>(q: MpmcQueue<T>, ops: seq<Op<T>>) returns (outs: seq<Option<T>>)
    requires q.Valid() && q.contents == [] && q.peak == 0
    modifies q, q.Nodes()
    ensures q.Valid() && q.contents == After(|ops|, ops) && q.peak == Peak(|ops|, ops)
    ensures |outs| == |ops| && Answers(outs, ops)
  {
    outs := [];
    while |outs| < |ops|
      invariant Answers(outs, ops)
      invariant q.Valid() && forall n :: n in q.Nodes() ==> n in old(q.Nodes()) || fresh(n)
      invariant q.contents == After(|outs|, ops) && q.peak == Peak(|outs|, ops)
    {
      var out := PerformNext(q, |outs|, ops);
      AnswersMore(outs, ops, out);
      outs := outs + [out];
    }
  }

  /**
   * From the constructor to the destructor, through any operations: each result is that
   * of a list, and the nodes freed are 2 plus the largest length ever reached.
   */
  method Lifetime<T>(blank: T, ops: seq<Op<T>>) returns (outs: seq<Option<T>>, nodes: nat)
    ensures |outs| == |ops| && Answers(outs, ops)
    ensures nodes == 2 + Peak(|ops|, ops)
  {
    var q := new MpmcQueue(blank);
    outs := PerformAll(q, ops);
    var freed := q.Destroy();
    nodes := |freed|;
  }
}
