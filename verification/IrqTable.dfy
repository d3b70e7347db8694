/**
 * The table of cores, least loaded first, and the map of registered file descriptors.
 * The result of epoll_ctl on the chosen core is a parameter of each operation.
 */
module IrqTable {
  import opened Loads

  const UINT := 0x1_0000_0000

  class Core {
    const index: nat
    var irqn: nat
    var pos: nat

    constructor (index: nat)
      ensures this.index == index == pos && irqn == 0
    {
      this.index, irqn, pos := index, 0, index;
    }
  }

  datatype FileWQ = FileWQ(core: Core, wevents: bv32)

  class CoKernel {
    const irqs_: array<Core>
    const coreNum_: nat
    ghost const cores: set<Core>
    ghost var history: seq<seq<nat>>     // the load lists so far, and what led to each
    ghost var changes: seq<Change>
    var fileWQPtrs_: map<int, FileWQ>

    /** The loads in table order. */
    ghost function LoadList(): (l: seq<nat>)
      requires forall k :: 0 <= k < irqs_.Length ==> irqs_[k] in cores
      reads irqs_, cores
    {
      seq(irqs_.Length, k requires 0 <= k < irqs_.Length && irqs_[k] in cores reads irqs_, cores => irqs_[k].irqn)
    }

    /** The file descriptors registered on a core. */
    ghost function Owned(core: Core): set<int>
      reads this
    {
      set fd | fd in fileWQPtrs_ && fileWQPtrs_[fd].core == core
    }

    /** The table is a permutation of the cores, and each knows its position. */
    ghost predicate Indexed()
      reads this, irqs_, cores
    {
      && 1 <= coreNum_ == irqs_.Length < UINT / 2
      && (forall k :: 0 <= k < irqs_.Length ==> irqs_[k] in cores && irqs_[k].pos == k)
      && (forall c :: c in cores ==> c.pos < irqs_.Length && irqs_[c.pos] == c)
    }

    ghost predicate Ordered()
      reads this, irqs_, cores
    {
      Indexed() && Sorted(LoadList())
    }

    /** Each core's counter is the number of file descriptors that it owns. */
    ghost predicate Counted()
      reads this, cores
    {
      && (forall fd :: fd in fileWQPtrs_ ==> fileWQPtrs_[fd].core in cores)
      && (forall c :: c in cores ==> c.irqn == |Owned(c)|)
    }

    ghost predicate Valid()
      reads this, irqs_, cores
    {
      Ordered() && Counted()
    }

    /** The loads are those of a run of registrations and removals. */
    ghost predicate Recorded()
      requires Indexed()
      reads this, irqs_, cores
    {
      Run(history, changes, coreNum_) && history[|history| - 1] == LoadList()
    }

    /** Swaps two entries and sets their back-indices. */
    method Swap(i: nat, j: nat)
      requires Indexed() && i < coreNum_ && j < coreNum_ && i != j
      modifies irqs_, irqs_[i], irqs_[j]
      ensures Indexed() && irqs_[..] == old(irqs_[..][i := irqs_[j]][j := irqs_[i]])
      ensures LoadList() == Swapped(old(LoadList()), i, j)
      ensures forall c :: c in cores ==> c.irqn == old(c.irqn)
    {
      var temp := irqs_[i];
      irqs_[i] := irqs_[j];
      irqs_[j] := temp;
      irqs_[i].pos := i;
      irqs_[j].pos := j;
    }

    method SetLoad(i: nat, load: nat)
      requires Indexed() && i < coreNum_
      modifies irqs_[i]
      ensures Indexed() && irqs_[i].irqn == load && irqs_[i].pos == i
      ensures LoadList() == old(LoadList())[i := load]
    {
      irqs_[i].irqn := load;
    }

    /** Lines 96 to 102: the first position that is heavier than position 0, or coreNum_. */
    method FirstHeavier() returns (i: nat)
      requires Ordered()
      ensures 1 <= i <= coreNum_ && i - 1 == Last(LoadList(), 0)
    {
      ghost var l := LoadList();
      i := 1;
      while i < coreNum_
        invariant 1 <= i <= coreNum_
        invariant forall k :: 0 <= k < i ==> l[k] == l[0]
      {
        if irqs_[i].irqn > irqs_[0].irqn {
          break;
        }
        assert l[0] <= l[i];
        i := i + 1;
      }
    }

    /** Lines 96 to 111: the first core takes one more file descriptor. */
    method ChargeFirst()
      requires Ordered()
      modifies irqs_, cores
      ensures Ordered() && LoadList() == Raise(old(LoadList()))
      ensures old(irqs_[0]).irqn == old(irqs_[0].irqn) + 1
      ensures forall c :: c in cores && c != old(irqs_[0]) ==> c.irqn == old(c.irqn)
    {
      ghost var l := LoadList();
      var i := FirstHeavier();
      ShiftUp(i);
      assert LoadList() == Raise(l) && Sorted(LoadList()) by {
        RaiseBySwap(l);
      }
    }

    /** Lines 103 to 111: one more for the first core, which changes places with entry i - 1. */
    method ShiftUp(i: nat)
      requires Indexed() && 1 <= i <= coreNum_
      modifies irqs_, cores
      ensures Indexed() && old(irqs_[0]).irqn == old(irqs_[0].irqn) + 1
      ensures LoadList() == Swapped(old(LoadList())[0 := old(LoadList())[0] + 1], 0, i - 1)
      ensures forall c :: c in cores && c != old(irqs_[0]) ==> c.irqn == old(c.irqn)
    {
      SetLoad(0, irqs_[0].irqn + 1);
      if i != 1 {
        Swap(0, i - 1);
      }
    }

    /**
     * Lines 142 to 148: the last position before p that is lighter, or -1. The unsigned
     * `pos - 1` wraps at 0 and is then read back as the signed -1.
     */
    method LastLighter(p: nat) returns (i: int)
      requires Ordered() && p < coreNum_
      ensures -1 <= i < p && i + 1 == First(LoadList(), p)
    {
      ghost var l := LoadList();
      i := Signed(Minus1(p));
      while i >= 0
        invariant -1 <= i < p
        invariant forall k :: i < k <= p ==> l[k] == l[p]
      {
        if irqs_[i].irqn < irqs_[p].irqn {
          break;
        }
        assert l[i] <= l[p];
        i := i - 1;
      }
    }

    /** Lines 142 to 156: a core gives up one file descriptor. */
    method Discharge(core: Core)
      requires Ordered() && core in cores && core.irqn > 0
      modifies irqs_, cores
      ensures old(core.pos) < irqs_.Length && old(LoadList())[old(core.pos)] == old(core.irqn)
      ensures Ordered() && LoadList() == Lower(old(LoadList()), old(core.pos))
      ensures core.irqn == old(core.irqn) - 1
      ensures forall c :: c in cores && c != core ==> c.irqn == old(c.irqn)
    {
      ghost var l, p := LoadList(), core.pos;
      assert l[p] == core.irqn;
      var i := LastLighter(core.pos);
      ShiftDown(core, i);
      assert core.irqn == l[p] - 1;
      assert LoadList() == Lower(l, p) && Sorted(LoadList()) by {
        LowerBySwap(l, p);
      }
    }

    /** Lines 149 to 156: one less for the core, which changes places with entry i + 1. */
    method ShiftDown(core: Core, i: int)
      requires Indexed() && core in cores && core.irqn > 0 && -1 <= i < core.pos
      modifies irqs_, cores
      ensures old(core.pos) < irqs_.Length && old(LoadList())[old(core.pos)] == old(core.irqn)
      ensures Indexed() && core.irqn == old(core.irqn) - 1
      ensures LoadList() == Swapped(old(LoadList())[old(core.pos) := core.irqn], old(core.pos), i + 1)
      ensures forall c :: c in cores && c != core ==> c.irqn == old(c.irqn)
    {
      SamePosition(i, core.pos);
      SetLoad(core.pos, irqs_[core.pos].irqn - 1);
      if Unsigned(i) != Minus1(core.pos) {
        Swap(core.pos, i + 1);
      }
    }

    static method MakeCores(num: nat) returns (irqs: array<Core>, ghost made: set<Core>)
      requires num >= 1
      ensures fresh(irqs) && irqs.Length == num
      ensures forall c :: c in made ==> fresh(c) && c.irqn == 0 && c.pos < num && irqs[c.pos] == c
      ensures forall k :: 0 <= k < num ==> irqs[k] in made && irqs[k].pos == k
    {
      var first := new Core(0);
      irqs := new Core[num](_ => first);
      made := {first};
      var i := 1;
      while i < num
        invariant 1 <= i <= num && fresh(irqs) && irqs.Length == num
        invariant forall c: Core :: c in made ==> fresh(c) && c.irqn == 0 && c.pos < i && irqs[c.pos] == c
        invariant forall k :: 0 <= k < i ==> irqs[k] in made && irqs[k].pos == k
      {
        var core := new Core(i);
        irqs[i] := core;
        made := made + {core};
        i := i + 1;
      }
    }

    /** Lines 6 to 24: the cores in the order of their creation. */
    constructor (num: nat)
      requires 1 <= num < UINT / 2
      ensures Valid() && Recorded() && fileWQPtrs_ == map[] && coreNum_ == num
      ensures fresh(irqs_) && forall c :: c in cores ==> fresh(c) && c.irqn == 0
    {
      var irqs;
      ghost var made;
      irqs, made := MakeCores(num);
      irqs_, coreNum_, cores := irqs, num, made;
      fileWQPtrs_ := map[];
      history, changes := [seq(num, _ => 0)], [];
      new;
      assert LoadList() == seq(num, _ => 0);
    }

    /**
     * Registers fd on the least loaded core, or changes its events where it is. The lock
     * is held throughout; `epollRet` is what epoll_ctl returns on that core.
     */
    method UpdateIRQ(fd: int, events: bv32, epollRet: int) returns (ret: int)
      requires Valid() && Recorded()
      modifies this, irqs_, cores
      ensures Valid() && Recorded() && ret == epollRet
      ensures fd !in old(fileWQPtrs_) && ret == 0 ==>
        && fileWQPtrs_ == old(fileWQPtrs_)[fd := FileWQ(old(irqs_[0]), events)]
        && (forall c :: c in cores ==> old(irqs_[0].irqn) <= old(c.irqn))
        && LoadList() == Raise(old(LoadList()))
      ensures fd !in old(fileWQPtrs_) && ret != 0 ==>
        fileWQPtrs_ == old(fileWQPtrs_) && irqs_[..] == old(irqs_[..]) && LoadList() == old(LoadList())
      ensures fd in old(fileWQPtrs_) ==>
        && fileWQPtrs_ == old(fileWQPtrs_)[fd := old(fileWQPtrs_)[fd].(wevents := events)]
        && irqs_[..] == old(irqs_[..]) && LoadList() == old(LoadList())
    {
      if fd !in fileWQPtrs_ {
        var core := irqs_[0];
        ret := epollRet;
        FirstIsLeast();
        if ret == 0 {
          Insert(fd, FileWQ(core, events));
          Record(Register);
        }
      } else {
        SetWEvents(fd, events);
        ret := epollRet;
      }
    }

    /** Line 117. */
    method SetWEvents(fd: int, events: bv32)
      requires Valid() && fd in fileWQPtrs_
      modifies this`fileWQPtrs_
      ensures Valid() && fileWQPtrs_ == old(fileWQPtrs_)[fd := old(fileWQPtrs_)[fd].(wevents := events)]
    {
      fileWQPtrs_ := fileWQPtrs_[fd := fileWQPtrs_[fd].(wevents := events)];
      assert forall c :: c in cores ==> Owned(c) == old(Owned(c));
    }

    lemma FirstIsLeast()
      requires Ordered()
      ensures forall c :: c in cores ==> irqs_[0].irqn <= c.irqn
    {
      assert forall c :: c in cores ==> LoadList()[c.pos] == c.irqn;
    }

    /** Lines 94 to 111. */
    method Insert(fd: int, fq: FileWQ)
      requires Valid() && fd !in fileWQPtrs_ && fq.core == irqs_[0]
      modifies this`fileWQPtrs_, irqs_, cores
      ensures Valid() && fileWQPtrs_ == old(fileWQPtrs_)[fd := fq]
      ensures LoadList() == Raise(old(LoadList()))
    {
      AddFile(fd, fq);
      ChargeFirst();
    }

    method AddFile(fd: int, fq: FileWQ)
      requires fd !in fileWQPtrs_
      modifies this`fileWQPtrs_
      ensures fileWQPtrs_ == old(fileWQPtrs_)[fd := fq]
      ensures |Owned(fq.core)| == old(|Owned(fq.core)|) + 1
      ensures forall c :: c in cores && c != fq.core ==> Owned(c) == old(Owned(c))
    {
      fileWQPtrs_ := fileWQPtrs_[fd := fq];
      assert Owned(fq.core) == old(Owned(fq.core)) + {fd};
    }

    method DropFile(fd: int)
      requires fd in fileWQPtrs_
      modifies this`fileWQPtrs_
      ensures fileWQPtrs_ == old(fileWQPtrs_) - {fd}
      ensures |Owned(old(fileWQPtrs_[fd].core))| == old(|Owned(fileWQPtrs_[fd].core)|) - 1
      ensures forall c :: c in cores && c != old(fileWQPtrs_[fd].core) ==> Owned(c) == old(Owned(c))
    {
      ghost var core := fileWQPtrs_[fd].core;
      fileWQPtrs_ := fileWQPtrs_ - {fd};
      assert Owned(core) == old(Owned(core)) - {fd};
    }

    ghost method Record(change: Change)
      requires Indexed() && Run(history, changes, coreNum_)
      requires Changes(history[|history| - 1], change, LoadList())
      modifies this`history, this`changes
      ensures Run(history, changes, coreNum_) && history[|history| - 1] == LoadList()
    {
      RunExtends(history, changes, coreNum_, change, LoadList());
      history, changes := history + [LoadList()], changes + [change];
    }

    /**
     * Drops fd, if registered, and the load of the core that has it. The lock is held
     * throughout; `epollRet` is what epoll_ctl returns on that core, and is passed on
     * without stopping the removal.
     */
    method RemoveIRQ(fd: int, epollRet: int) returns (ret: int)
      requires Valid() && Recorded()
      modifies this, irqs_, cores
      ensures Valid() && Recorded() && fileWQPtrs_ == old(fileWQPtrs_) - {fd}
      ensures fd !in old(fileWQPtrs_) ==> ret == 0 && irqs_[..] == old(irqs_[..]) && LoadList() == old(LoadList())
      ensures fd in old(fileWQPtrs_) ==>
        var core := old(fileWQPtrs_)[fd].core;
        && ret == epollRet
        && core in cores && old(core.pos) < |old(LoadList())| && old(LoadList())[old(core.pos)] > 0
        && LoadList() == Lower(old(LoadList()), old(core.pos))
        && core.irqn == old(core.irqn) - 1
    {
      ret := 0;
      if fd in fileWQPtrs_ {
        ret := epollRet;
        var core := fileWQPtrs_[fd].core;
        ghost var p := core.pos;
        Erase(fd, core);
        Record(Remove(p));
      } else {
        assert fileWQPtrs_ == fileWQPtrs_ - {fd};
      }
    }

    /** Lines 141 to 156. */
    method Erase(fd: int, core: Core)
      requires Valid() && fd in fileWQPtrs_ && core == fileWQPtrs_[fd].core
      modifies this`fileWQPtrs_, irqs_, cores
      ensures Valid() && fileWQPtrs_ == old(fileWQPtrs_) - {fd}
      ensures old(core.pos) < |old(LoadList())| && old(LoadList())[old(core.pos)] == old(core.irqn) > 0
      ensures LoadList() == Lower(old(LoadList()), old(core.pos))
      ensures core.irqn == old(core.irqn) - 1
    {
      assert fd in Owned(core);
      assert LoadList()[core.pos] == core.irqn;
      DropFile(fd);
      Discharge(core);
    }

    /** The loads add up to the number of registered file descriptors. */
    lemma LoadsSumToFiles()
      requires Valid()
      ensures Sum(LoadList()) == |fileWQPtrs_|
    {
      assert LoadList()[..coreNum_] == LoadList();
      forall fd | fd in fileWQPtrs_
        ensures fd in FilesBelow(coreNum_)
      {
        assert fileWQPtrs_[fd].core in cores;
      }
      assert FilesBelow(coreNum_) == fileWQPtrs_.Keys;
      PrefixSum(coreNum_);
    }

    /** The file descriptors registered on the first k cores of the table. */
    ghost function FilesBelow(k: nat): set<int>
      reads this, cores
    {
      set fd | fd in fileWQPtrs_ && fileWQPtrs_[fd].core in cores && fileWQPtrs_[fd].core.pos < k
    }

    lemma {:induction false} PrefixSum(k: nat)
      requires Valid() && k <= coreNum_
      ensures Sum(LoadList()[..k]) == |FilesBelow(k)|
    {
      if k > 0 {
        PrefixSum(k - 1);
        assert LoadList()[..k][..k - 1] == LoadList()[..k - 1];
        assert FilesBelow(k) == FilesBelow(k - 1) + Owned(irqs_[k - 1]);
      }
    }

    /** Each core owns at most its share of the most file descriptors ever registered. */
    lemma ShareHolds(core: Core)
      requires Valid() && Recorded() && core in cores
      ensures |Owned(core)| <= CeilDiv(Peak(history), coreNum_)
      ensures |fileWQPtrs_| <= Peak(history)
    {
      assert LoadList()[core.pos] == core.irqn;
      LoadAtMostShare(history, changes, coreNum_, |history| - 1, core.pos);
      LoadsSumToFiles();
      assert Sum(history[|history| - 1]) <= Peak(history);
    }
  }

  /** `x - 1` on a 32-bit unsigned integer. */
  function Minus1(x: nat): nat {
    (x + UINT - 1) % UINT
  }

  /** A 32-bit unsigned integer as a signed one, and back. */
  function Signed(x: nat): int
    requires x < UINT
  {
    if x < UINT / 2 then x else x - UINT
  }

  function Unsigned(x: int): nat
    requires -(UINT / 2) <= x < UINT / 2
  {
    if x < 0 then x + UINT else x
  }

  /** The mixed comparison of line 150 tells i and pos - 1 apart, at position 0 too. */
  lemma SamePosition(i: int, p: nat)
    requires -1 <= i < p < UINT / 2
    ensures Unsigned(i) == Minus1(p) <==> i == p - 1
  {
  }
}
