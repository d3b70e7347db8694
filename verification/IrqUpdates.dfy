/**
 * updateIRQ and removeIRQ as interleaved tasks. Each holds the map lock from its lookup
 * to its last write, across the suspension in which another core runs epoll_ctl.
 */
module IrqUpdates {
  import opened Loads

  datatype Call = Update(fd: int) | Removal(fd: int)

  /** Where a task is; the comments give the lines about to execute. */
  datatype PC =
    | Idle
    | Locking(call: Call)                              // 79 or 132
    | Found(call: Call)                                // 80 or 133
    | Adding(fd: int, core: nat)                       // 88, suspended
    | Added(fd: int, core: nat, ok: bool)              // 92, in the ready queue
    | Charging(fd: int, core: nat)                     // 96 to 103
    | Raising(i: nat)                                  // 104 to 111
    | Changing                                         // 118, suspended
    | Deleting(fd: int, core: nat)                     // 138, suspended
    | Deleted(fd: int, core: nat)                      // 141, in the ready queue
    | Discharging(core: nat)                           // 142 to 149
    | Lowering(core: nat, i: nat)                      // 150 to 156
    | Unlocking                                        // 123 or 158

  /** Cores are numbers; `irqs` is the table, `pos` the back-indices, `load` the counters. */
  datatype Table = Table(irqs: seq<nat>, pos: seq<nat>, load: seq<nat>, files: map<int, nat>)

  /** `holder` is the task that has the lock, or -1; `epoll` has the pairs of the kernel. */
  datatype State = State(tb: Table, holder: int, pcs: seq<PC>, epoll: set<(int, nat)>)

  predicate Shaped(tb: Table) {
    && 1 <= |tb.irqs| == |tb.load| == |tb.pos|
    && (forall k :: 0 <= k < |tb.irqs| ==> tb.irqs[k] < |tb.irqs| && tb.pos[tb.irqs[k]] == k)
    && (forall c :: 0 <= c < |tb.pos| ==> tb.pos[c] < |tb.pos| && tb.irqs[tb.pos[c]] == c)
  }

  function InOrder(tb: Table): seq<nat>
    requires Shaped(tb)
  {
    seq(|tb.irqs|, k requires 0 <= k < |tb.irqs| => tb.load[tb.irqs[k]])
  }

  function Swap(tb: Table, i: nat, j: nat): Table
    requires Shaped(tb) && i < |tb.irqs| && j < |tb.irqs|
  {
    var irqs := tb.irqs[i := tb.irqs[j]][j := tb.irqs[i]];
    tb.(irqs := irqs, pos := tb.pos[irqs[i] := i][irqs[j] := j])
  }

  function SetLoad(tb: Table, c: nat, n: nat): Table
    requires c < |tb.load|
  {
    tb.(load := tb.load[c := n])
  }

  /** What the code indexes with is in range. */
  predicate CanStep(s: State, t: nat) {
    && t < |s.pcs| && Shaped(s.tb)
    && match s.pcs[t]
       case Raising(i) => i < |s.tb.irqs|
       case Discharging(core) => core < |s.tb.irqs| && s.tb.load[core] > 0
       case Lowering(core, i) => core < |s.tb.irqs| && i < |s.tb.irqs|
       case _ => true
  }

  /** Task t takes its next step: `call` is what an idle task calls, `ok` how epoll_ctl goes. */
  function Step(s: State, t: nat, call: Call, ok: bool): State
    requires CanStep(s, t)
  {
    var tb := s.tb;
    match s.pcs[t]
    case Idle => At(s, t, Locking(call))
    case Locking(c) => if s.holder == -1 then At(s.(holder := t), t, Found(c)) else s
    case Found(Update(fd)) => At(s, t, if fd in tb.files then Changing else Adding(fd, tb.irqs[0]))
    case Adding(fd, core) =>
      At(s.(epoll := if ok then s.epoll + {(fd, core)} else s.epoll), t, Added(fd, core, ok))
    case Added(fd, core, added) =>
      if added then At(s.(tb := tb.(files := tb.files[fd := core])), t, Charging(fd, core))
      else At(s, t, Unlocking)
    case Charging(fd, core) =>
      At(s.(tb := SetLoad(tb, tb.irqs[0], tb.load[tb.irqs[0]] + 1)), t, Raising(Last(InOrder(tb), 0)))
    case Raising(i) => At(s.(tb := Swap(tb, 0, i)), t, Unlocking)
    case Changing => At(s, t, Unlocking)
    case Found(Removal(fd)) => At(s, t, if fd in tb.files then Deleting(fd, tb.files[fd]) else Unlocking)
    case Deleting(fd, core) =>
      At(s.(epoll := if ok then s.epoll - {(fd, core)} else s.epoll), t, Deleted(fd, core))
    case Deleted(fd, core) =>
      At(s.(tb := tb.(files := tb.files - {fd})), t, Discharging(core))
    case Discharging(core) =>
      At(s.(tb := SetLoad(tb, core, tb.load[core] - 1)), t, Lowering(core, First(InOrder(tb), tb.pos[core])))
    case Lowering(core, i) => At(s.(tb := Swap(tb, tb.pos[core], i)), t, Unlocking)
    case Unlocking => At(s.(holder := -1), t, Idle)
  }

  function At(s: State, t: nat, pc: PC): State
    requires t < |s.pcs|
  {
    s.(pcs := s.pcs[t := pc])
  }

  // ----- the invariant -----

  function OwnedBy(files: map<int, nat>, c: nat): set<int> {
    set fd | fd in files && files[fd] == c
  }

  /** Core c owns as many file descriptors as its counter says; core `off` owns `extra` more. */
  ghost predicate Counted(tb: Table, off: int, extra: int)
    requires Shaped(tb)
  {
    && (forall fd :: fd in tb.files ==> tb.files[fd] < |tb.load|)
    && (forall c :: 0 <= c < |tb.load| ==> |OwnedBy(tb.files, c)| == tb.load[c] + (if c == off then extra else 0))
  }

  /** The invariants of the table at rest. */
  ghost predicate AtRest(tb: Table)
    requires Shaped(tb)
  {
    Sorted(InOrder(tb)) && Counted(tb, -1, 0)
  }

  /** What holds of the table while the lock holder is at pc. */
  ghost predicate Held(tb: Table, epoll: set<(int, nat)>, pc: PC)
    requires Shaped(tb)
  {
    match pc
    case Adding(fd, core) => AtRest(tb) && fd !in tb.files && core == tb.irqs[0]
    case Added(fd, core, ok) =>
      AtRest(tb) && fd !in tb.files && core == tb.irqs[0] && (ok ==> (fd, core) in epoll)
    case Charging(fd, core) =>
      && Sorted(InOrder(tb)) && Counted(tb, core, 1)
      && core == tb.irqs[0] && fd in tb.files && tb.files[fd] == core
    case Raising(i) =>
      && i < |tb.irqs| && Counted(tb, -1, 0) && Sorted(InOrder(Swap(tb, 0, i)))
    case Deleting(fd, core) => AtRest(tb) && fd in tb.files && core == tb.files[fd]
    case Deleted(fd, core) => AtRest(tb) && fd in tb.files && core == tb.files[fd]
    case Discharging(core) =>
      Sorted(InOrder(tb)) && core < |tb.irqs| && Counted(tb, core, -1)
    case Lowering(core, i) =>
      && core < |tb.irqs| && i < |tb.irqs| && Counted(tb, -1, 0)
      && Sorted(InOrder(Swap(tb, tb.pos[core], i)))
    case _ => AtRest(tb)
  }

  predicate Outside(pc: PC) {
    pc.Idle? || pc.Locking?
  }

  ghost predicate Inv(s: State) {
    && Shaped(s.tb)
    && -1 <= s.holder < |s.pcs|
    && (forall t :: 0 <= t < |s.pcs| ==> (Outside(s.pcs[t]) <==> t != s.holder))
    && (if s.holder == -1 then AtRest(s.tb) else Held(s.tb, s.epoll, s.pcs[s.holder]))
    && (forall fd :: fd in s.tb.files ==> Registered(s, fd))
  }

  /** fd is registered with the core that is charged for it, or is just being deleted. */
  ghost predicate Registered(s: State, fd: int)
    requires fd in s.tb.files && s.holder < |s.pcs|
  {
    || (fd, s.tb.files[fd]) in s.epoll
    || (s.holder >= 0 && s.pcs[s.holder] == Deleted(fd, s.tb.files[fd]))
  }

  // ----- every step keeps the invariant -----

  lemma SwapShaped(tb: Table, i: nat, j: nat)
    requires Shaped(tb) && i < |tb.irqs| && j < |tb.irqs|
    ensures Shaped(Swap(tb, i, j)) && InOrder(Swap(tb, i, j)) == Swapped(InOrder(tb), i, j)
    ensures forall off, extra :: Counted(tb, off, extra) ==> Counted(Swap(tb, i, j), off, extra)
  {
  }

  lemma SetLoadShaped(tb: Table, c: nat, n: nat)
    requires Shaped(tb) && c < |tb.load|
    ensures Shaped(SetLoad(tb, c, n)) && InOrder(SetLoad(tb, c, n)) == InOrder(tb)[tb.pos[c] := n]
  {
  }

  lemma AddedCounted(tb: Table, fd: int, c: nat)
    requires Shaped(tb) && Counted(tb, -1, 0) && fd !in tb.files && c < |tb.load|
    ensures Counted(tb.(files := tb.files[fd := c]), c, 1)
  {
    var files := tb.files[fd := c];
    assert OwnedBy(files, c) == OwnedBy(tb.files, c) + {fd};
    assert forall d :: 0 <= d < |tb.load| && d != c ==> OwnedBy(files, d) == OwnedBy(tb.files, d);
  }

  lemma DeletedCounted(tb: Table, fd: int)
    requires Shaped(tb) && Counted(tb, -1, 0) && fd in tb.files
    ensures Counted(tb.(files := tb.files - {fd}), tb.files[fd], -1)
  {
    var files, c := tb.files - {fd}, tb.files[fd];
    assert OwnedBy(files, c) == OwnedBy(tb.files, c) - {fd};
    assert forall d :: 0 <= d < |tb.load| && d != c ==> OwnedBy(files, d) == OwnedBy(tb.files, d);
  }

  lemma ChargeKeeps(tb: Table)
    requires Shaped(tb) && Sorted(InOrder(tb)) && Counted(tb, tb.irqs[0], 1)
    ensures var tb' := SetLoad(tb, tb.irqs[0], tb.load[tb.irqs[0]] + 1);
      var i := Last(InOrder(tb), 0);
      Shaped(tb') && Counted(tb', -1, 0) && i < |tb'.irqs| && Shaped(Swap(tb', 0, i))
        && InOrder(Swap(tb', 0, i)) == Raise(InOrder(tb)) && Sorted(InOrder(Swap(tb', 0, i)))
  {
    var c := tb.irqs[0];
    var tb' := SetLoad(tb, c, tb.load[c] + 1);
    SetLoadShaped(tb, c, tb.load[c] + 1);
    RaiseBySwap(InOrder(tb));
    SwapShaped(tb', 0, Last(InOrder(tb), 0));
  }

  lemma DischargeKeeps(tb: Table, c: nat)
    requires Shaped(tb) && c < |tb.load| && Sorted(InOrder(tb)) && Counted(tb, c, -1)
    ensures tb.load[c] > 0
    ensures var tb' := SetLoad(tb, c, tb.load[c] - 1);
      var i := First(InOrder(tb), tb.pos[c]);
      Shaped(tb') && Counted(tb', -1, 0) && i < |tb'.irqs| && Shaped(Swap(tb', tb.pos[c], i))
        && InOrder(Swap(tb', tb.pos[c], i)) == Lower(InOrder(tb), tb.pos[c])
        && Sorted(InOrder(Swap(tb', tb.pos[c], i)))
  {
    var tb' := SetLoad(tb, c, tb.load[c] - 1);
    assert |OwnedBy(tb.files, c)| == tb.load[c] - 1;
    assert InOrder(tb)[tb.pos[c]] == tb.load[c];
    SetLoadShaped(tb, c, tb.load[c] - 1);
    LowerBySwap(InOrder(tb), tb.pos[c]);
    SwapShaped(tb', tb.pos[c], First(InOrder(tb), tb.pos[c]));
  }

  /** The lock and the rest of the state after a step from pc, when the table is as it was. */
  lemma QuietKeeps(s: State, t: nat, call: Call, ok: bool)
    requires Inv(s) && t < |s.pcs|
    requires var pc := s.pcs[t]; pc.Idle? || pc.Locking? || pc.Found? || pc.Changing? || pc.Unlocking?
    ensures CanStep(s, t) && Inv(Step(s, t, call, ok))
  {
  }

  lemma SuspendedKeeps(s: State, t: nat, call: Call, ok: bool)
    requires Inv(s) && t < |s.pcs| && (s.pcs[t].Adding? || s.pcs[t].Deleting?)
    ensures CanStep(s, t) && Inv(Step(s, t, call, ok))
  {
  }

  lemma ResumedKeeps(s: State, t: nat, call: Call, ok: bool)
    requires Inv(s) && t < |s.pcs| && (s.pcs[t].Added? || s.pcs[t].Deleted?)
    ensures CanStep(s, t) && Inv(Step(s, t, call, ok))
  {
    assert s.holder == t;
    var tb, tb' := s.tb, Step(s, t, call, ok).tb;
    match s.pcs[t]
    case Added(fd, core, added) =>
      if added { AddedCounted(tb, fd, core); }
      assert InOrder(tb') == InOrder(tb);
    case Deleted(fd, core) =>
      DeletedCounted(tb, fd);
      assert InOrder(tb') == InOrder(tb);
  }

  /** The holder changes the table, but not the map, and goes on to pc. */
  lemma HolderKeeps(s: State, t: nat, tb: Table, pc: PC)
    requires Inv(s) && t < |s.pcs| && s.holder == t && !s.pcs[t].Deleted?
    requires Shaped(tb) && tb.files == s.tb.files && Held(tb, s.epoll, pc) && !Outside(pc)
    ensures Inv(At(s.(tb := tb), t, pc))
  {
  }

  lemma RaiseKeeps(s: State, t: nat, call: Call, ok: bool)
    requires Inv(s) && t < |s.pcs| && s.pcs[t].Charging?
    ensures CanStep(s, t) && Inv(Step(s, t, call, ok))
  {
    assert s.holder == t;
    ChargeKeeps(s.tb);
  }

  lemma LowerKeeps(s: State, t: nat, call: Call, ok: bool)
    requires Inv(s) && t < |s.pcs| && s.pcs[t].Discharging?
    ensures CanStep(s, t) && Inv(Step(s, t, call, ok))
  {
    assert s.holder == t;
    var core := s.pcs[t].core;
    DischargeKeeps(s.tb, core);
    HolderKeeps(s, t, SetLoad(s.tb, core, s.tb.load[core] - 1), Lowering(core, First(InOrder(s.tb), s.tb.pos[core])));
  }

  lemma SwapKeeps(s: State, t: nat, call: Call, ok: bool)
    requires Inv(s) && t < |s.pcs| && (s.pcs[t].Raising? || s.pcs[t].Lowering?)
    ensures CanStep(s, t) && Inv(Step(s, t, call, ok))
  {
    assert s.holder == t;
    match s.pcs[t]
    case Raising(i) => SwapShaped(s.tb, 0, i);
    case Lowering(core, i) => SwapShaped(s.tb, s.tb.pos[core], i);
  }

  /** Every step of any task keeps the invariant. */
  lemma StepKeeps(s: State, t: nat, call: Call, ok: bool)
    requires Inv(s) && t < |s.pcs|
    ensures CanStep(s, t) && Inv(Step(s, t, call, ok))
  {
    var pc := s.pcs[t];
    if pc.Adding? || pc.Deleting? {
      SuspendedKeeps(s, t, call, ok);
    } else if pc.Added? || pc.Deleted? {
      ResumedKeeps(s, t, call, ok);
    } else if pc.Charging? {
      RaiseKeeps(s, t, call, ok);
    } else if pc.Discharging? {
      LowerKeeps(s, t, call, ok);
    } else if pc.Raising? || pc.Lowering? {
      SwapKeeps(s, t, call, ok);
    } else {
      QuietKeeps(s, t, call, ok);
    }
  }

  // ----- whole runs -----

  datatype Turn = Turn(t: nat, call: Call, ok: bool)

  /** The intended initial table: core k at position k, with no load. */
  function Init(cores: nat, tasks: nat): State {
    State(Table(seq(cores, k => k), seq(cores, k => k), seq(cores, _ => 0), map[]),
          -1, seq(tasks, _ => Idle), {})
  }

  /** Any interleaving of any updates and removals, with any results of epoll_ctl. */
  ghost predicate Run(states: seq<State>, turns: seq<Turn>) {
    && |states| == |turns| + 1
    && |states[0].tb.irqs| >= 1 && states[0] == Init(|states[0].tb.irqs|, |states[0].pcs|)
    && forall i :: 0 <= i < |turns| ==> MovesAt(states, turns, i)
  }

  ghost predicate MovesAt(states: seq<State>, turns: seq<Turn>, i: nat)
    requires i < |turns| && i + 1 < |states|
  {
    Moves(states[i], turns[i], states[i + 1])
  }

  ghost predicate Moves(s: State, turn: Turn, s': State) {
    CanStep(s, turn.t) && s' == Step(s, turn.t, turn.call, turn.ok)
  }

  lemma InitInv(cores: nat, tasks: nat)
    requires cores >= 1
    ensures Inv(Init(cores, tasks))
  {
    var tb := Init(cores, tasks).tb;
    assert forall c :: 0 <= c < cores ==> OwnedBy(tb.files, c) == {};
  }

  lemma {:induction false} RunInv(states: seq<State>, turns: seq<Turn>, i: nat)
    requires Run(states, turns) && i < |states|
    ensures Inv(states[i])
  {
    if i == 0 {
      InitInv(|states[0].tb.irqs|, |states[0].pcs|);
    } else {
      RunInv(states, turns, i - 1);
      assert MovesAt(states, turns, i - 1);
      StepKeeps(states[i - 1], turns[i - 1].t, turns[i - 1].call, turns[i - 1].ok);
    }
  }

  /**
   * The core chosen at line 84 is still the first of the table when, after the suspension,
   * line 103 charges the first of the table; so fd is registered on the core it is charged to.
   */
  lemma ChosenIsCharged(states: seq<State>, turns: seq<Turn>, i: nat, t: nat)
    requires Run(states, turns) && i < |states| && t < |states[i].pcs|
    ensures Shaped(states[i].tb)
    ensures states[i].pcs[t].Adding? || states[i].pcs[t].Added? || states[i].pcs[t].Charging?
      ==> states[i].pcs[t].core == states[i].tb.irqs[0]
    ensures states[i].pcs[t].Charging?
      ==> var fd := states[i].pcs[t].fd;
          fd in states[i].tb.files && states[i].tb.files[fd] == states[i].tb.irqs[0]
          && (fd, states[i].tb.irqs[0]) in states[i].epoll
  {
    RunInv(states, turns, i);
    assert Outside(states[i].pcs[t]) <==> t != states[i].holder;
  }

  /**
   * Whenever the lock is free, the table is a sorted permutation with exact back-indices,
   * each counter is the number of file descriptors its core owns, and the kernel has each
   * file descriptor on the core that the map names.
   */
  lemma AtRestWhenFree(states: seq<State>, turns: seq<Turn>, i: nat)
    requires Run(states, turns) && i < |states|
    ensures (forall t :: 0 <= t < |states[i].pcs| ==> Outside(states[i].pcs[t])) <==> states[i].holder == -1
    ensures states[i].holder == -1 ==>
      && Shaped(states[i].tb) && AtRest(states[i].tb)
      && forall fd :: fd in states[i].tb.files ==> (fd, states[i].tb.files[fd]) in states[i].epoll
  {
    RunInv(states, turns, i);
    var s := states[i];
    if s.holder != -1 {
      assert !Outside(s.pcs[s.holder]);
    }
    assert forall fd :: fd in s.tb.files ==> Registered(s, fd);
  }

  // ----- while every deletion succeeds -----

  /** What the kernel has is in the map, or about to be; what is about to leave the map it does not have. */
  ghost predicate Matched(s: State)
    requires s.holder < |s.pcs|
  {
    && (forall fd, c :: (fd, c) in s.epoll ==>
          (fd in s.tb.files && s.tb.files[fd] == c) || (s.holder >= 0 && s.pcs[s.holder] == Added(fd, c, true)))
    && (s.holder >= 0 && s.pcs[s.holder].Deleted? ==> forall c :: (s.pcs[s.holder].fd, c) !in s.epoll)
  }

  predicate DeletesOk(s: State, t: nat, ok: bool) {
    t < |s.pcs| && s.pcs[t].Deleting? ==> ok
  }

  lemma HolderKeepsMatched(s: State, t: nat, call: Call, ok: bool)
    requires Inv(s) && Matched(s) && t < |s.pcs| && s.holder == t && DeletesOk(s, t, ok) && CanStep(s, t)
    requires s.pcs[t].Adding? || s.pcs[t].Added? || s.pcs[t].Deleting? || s.pcs[t].Deleted?
    ensures Step(s, t, call, ok).holder == t && Matched(Step(s, t, call, ok))
  {
  }

  lemma OthersKeepMatched(s: State, t: nat, call: Call, ok: bool)
    requires Inv(s) && Matched(s) && t < |s.pcs| && CanStep(s, t)
    requires !s.pcs[t].Adding? && !s.pcs[t].Added? && !s.pcs[t].Deleting? && !s.pcs[t].Deleted?
    ensures Step(s, t, call, ok).holder < |Step(s, t, call, ok).pcs| && Matched(Step(s, t, call, ok))
  {
    var s' := Step(s, t, call, ok);
    assert s'.epoll == s.epoll && s'.tb.files == s.tb.files;
    if s.holder >= 0 && s.holder != t {
      assert s'.pcs[s.holder] == s.pcs[s.holder];
    }
  }

  lemma {:induction false} RunMatched(states: seq<State>, turns: seq<Turn>, i: nat)
    requires Run(states, turns) && i < |states|
    requires forall k :: 0 <= k < i ==> DeletesOk(states[k], turns[k].t, turns[k].ok)
    ensures Inv(states[i]) && Matched(states[i])
  {
    RunInv(states, turns, i);
    if i > 0 {
      RunMatched(states, turns, i - 1);
      var s, turn := states[i - 1], turns[i - 1];
      assert MovesAt(states, turns, i - 1);
      if s.pcs[turn.t].Adding? || s.pcs[turn.t].Added? || s.pcs[turn.t].Deleting? || s.pcs[turn.t].Deleted? {
        assert !Outside(s.pcs[turn.t]);
        HolderKeepsMatched(s, turn.t, turn.call, turn.ok);
      } else {
        OthersKeepMatched(s, turn.t, turn.call, turn.ok);
      }
    }
  }

  /**
   * While every deletion succeeds, the kernel and the map agree whenever the lock is free: no
   * event can come for a wait queue that the map has dropped.
   */
  lemma EpollMatchesMap(states: seq<State>, turns: seq<Turn>, i: nat, fd: int, c: nat)
    requires Run(states, turns) && i < |states| && states[i].holder == -1
    requires forall k :: 0 <= k < i ==> DeletesOk(states[k], turns[k].t, turns[k].ok)
    ensures (fd, c) in states[i].epoll <==> fd in states[i].tb.files && states[i].tb.files[fd] == c
  {
    RunMatched(states, turns, i);
    assert fd in states[i].tb.files ==> Registered(states[i], fd);
  }

  // ----- what a whole call does -----

  /** How far a call is from its end. */
  function Left(pc: PC): nat {
    match pc
    case Locking(_) => 7
    case Found(_) => 6
    case Adding(_, _) => 5
    case Added(_, _, _) => 4
    case Charging(_, _) => 3
    case Raising(_) => 2
    case Changing => 2
    case Deleting(_, _) => 5
    case Deleted(_, _) => 4
    case Discharging(_) => 3
    case Lowering(_, _) => 2
    case Unlocking => 1
    case Idle => 0
  }

  /** The task is about to find that another one has the lock. */
  ghost predicate LockedOut(s: State, t: nat)
    requires t < |s.pcs|
  {
    s.pcs[t].Locking? && exists u :: 0 <= u < |s.pcs| && u != t && !Outside(s.pcs[u])
  }

  lemma HolderInside(s: State, t: nat)
    requires Inv(s) && t < |s.pcs| && s.pcs[t].Locking? && s.holder != -1
    ensures LockedOut(s, t)
  {
    assert s.holder != t && !Outside(s.pcs[s.holder]);
  }

  lemma StepNears(s: State, t: nat, call: Call, ok: bool)
    requires CanStep(s, t) && !s.pcs[t].Idle? && !(s.pcs[t].Locking? && s.holder != -1)
    ensures |Step(s, t, call, ok).pcs| == |s.pcs| && Left(Step(s, t, call, ok).pcs[t]) < Left(s.pcs[t])
  {
  }

  /**
   * Each turn of a task begins the call that it makes, brings its call nearer to the end, or
   * finds that another task has the lock.
   */
  lemma TurnsGoOn(states: seq<State>, turns: seq<Turn>, i: nat, t: nat)
    requires Run(states, turns) && i < |turns| && turns[i].t == t < |states[i].pcs|
    ensures t < |states[i + 1].pcs|
    ensures states[i].pcs[t].Idle? ==> states[i + 1].pcs[t] == Locking(turns[i].call)
    ensures !states[i].pcs[t].Idle? ==>
      Left(states[i + 1].pcs[t]) < Left(states[i].pcs[t]) || LockedOut(states[i], t)
  {
    RunInv(states, turns, i);
    assert MovesAt(states, turns, i);
    var s := states[i];
    if s.pcs[t].Locking? && s.holder != -1 {
      HolderInside(s, t);
    } else if !s.pcs[t].Idle? {
      StepNears(s, t, turns[i].call, turns[i].ok);
    }
  }

  /** Task t gets the lock for this call in turn i, and has it up to instant m. */
  ghost predicate Section(states: seq<State>, turns: seq<Turn>, t: nat, call: Call, i: nat, m: nat) {
    && Run(states, turns) && i < m < |states|
    && turns[i].t == t < |states[i].pcs| && states[i].pcs[t] == Locking(call)
    && forall k :: i < k <= m ==> states[k].holder == t
  }

  /** The table and the kernel's pairs are as they were. */
  predicate Same(s0: State, s: State) {
    s.tb == s0.tb && s.epoll == s0.epoll
  }

  /** An unknown fd is on the core that was the first, which is charged for it. */
  predicate Registers(s0: State, s: State, fd: int)
    requires Shaped(s0.tb)
  {
    var core := s0.tb.irqs[0];
    && s.tb.files == s0.tb.files[fd := core]
    && s.tb.load == s0.tb.load[core := s0.tb.load[core] + 1]
    && s.epoll == s0.epoll + {(fd, core)}
  }

  /** A known fd is off its core, which is relieved of it; `ok` is what epoll_ctl said. */
  predicate Unregisters(s0: State, s: State, fd: int, ok: bool)
    requires Shaped(s0.tb) && fd in s0.tb.files && s0.tb.files[fd] < |s0.tb.load| && s0.tb.load[s0.tb.files[fd]] > 0
  {
    var core := s0.tb.files[fd];
    && s.tb.files == s0.tb.files - {fd}
    && s.tb.load == s0.tb.load[core := s0.tb.load[core] - 1]
    && s.epoll == if ok then s0.epoll - {(fd, core)} else s0.epoll
  }

  /** A task that got the lock at s0 to update fd is at pc; `ok` is what epoll_ctl has said. */
  predicate Updating(s0: State, s: State, pc: PC, fd: int, ok: bool)
    requires Shaped(s0.tb)
  {
    var core := s0.tb.irqs[0];
    if fd in s0.tb.files then (pc == Found(Update(fd)) || pc == Changing || pc == Unlocking) && Same(s0, s)
    else
      match pc
      case Found(call) => call == Update(fd) && Same(s0, s)
      case Adding(_, _) => pc == Adding(fd, core) && Same(s0, s)
      case Added(_, _, _) =>
        pc == Added(fd, core, ok) && s.tb == s0.tb && s.epoll == if ok then s0.epoll + {(fd, core)} else s0.epoll
      case Charging(_, _) =>
        && pc == Charging(fd, core) && ok && s.epoll == s0.epoll + {(fd, core)}
        && s.tb == s0.tb.(files := s0.tb.files[fd := core])
      case Raising(_) => ok && Registers(s0, s, fd)
      case Unlocking => if ok then Registers(s0, s, fd) else Same(s0, s)
      case _ => false
  }

  /** The same, to remove fd. */
  predicate Removing(s0: State, s: State, pc: PC, fd: int, ok: bool)
    requires Shaped(s0.tb) && forall f :: f in s0.tb.files ==> s0.tb.files[f] < |s0.tb.load|
    requires fd in s0.tb.files ==> s0.tb.load[s0.tb.files[fd]] > 0
  {
    if fd !in s0.tb.files then (pc == Found(Removal(fd)) || pc == Unlocking) && Same(s0, s)
    else
      var core := s0.tb.files[fd];
      match pc
      case Found(call) => call == Removal(fd) && Same(s0, s)
      case Deleting(_, _) => pc == Deleting(fd, core) && Same(s0, s)
      case Deleted(_, _) =>
        pc == Deleted(fd, core) && s.tb == s0.tb && s.epoll == if ok then s0.epoll - {(fd, core)} else s0.epoll
      case Discharging(_) =>
        && pc == Discharging(core) && s.tb == s0.tb.(files := s0.tb.files - {fd})
        && s.epoll == if ok then s0.epoll - {(fd, core)} else s0.epoll
      case Lowering(_, _) => Unregisters(s0, s, fd, ok)
      case Unlocking => Unregisters(s0, s, fd, ok)
      case _ => false
  }

  /** While t has the lock, the turns of the others leave the table, the pairs and t as they are. */
  lemma OthersWait(s: State, t: nat, turn: Turn, s': State)
    requires Inv(s) && s.holder == t && Moves(s, turn, s') && turn.t != t
    ensures Same(s, s') && t < |s'.pcs| == |s.pcs| && s'.pcs[t] == s.pcs[t]
  {
    assert Outside(s.pcs[turn.t]);
  }

  lemma UpdateStep(s0: State, s: State, t: nat, turn: Turn, s': State, fd: int, ok: bool)
    requires Inv(s) && Shaped(s0.tb) && s.holder == t == turn.t && t < |s.pcs| && Moves(s, turn, s')
    requires Updating(s0, s, s.pcs[t], fd, ok) && !s.pcs[t].Unlocking?
    ensures t < |s'.pcs| && Updating(s0, s', s'.pcs[t], fd, if s.pcs[t].Adding? then turn.ok else ok)
  {
  }

  lemma RemovalStep(s0: State, s: State, t: nat, turn: Turn, s': State, fd: int, ok: bool)
    requires Inv(s) && Inv(s0) && AtRest(s0.tb) && s.holder == t == turn.t && t < |s.pcs| && Moves(s, turn, s')
    requires fd in s0.tb.files ==> s0.tb.load[s0.tb.files[fd]] > 0
    requires Removing(s0, s, s.pcs[t], fd, ok) && !s.pcs[t].Unlocking?
    ensures t < |s'.pcs| && Removing(s0, s', s'.pcs[t], fd, if s.pcs[t].Deleting? then turn.ok else ok)
  {
  }

  lemma OwnerLoaded(tb: Table, fd: int)
    requires Shaped(tb) && AtRest(tb) && fd in tb.files
    ensures tb.files[fd] < |tb.load| && tb.load[tb.files[fd]] > 0
  {
    assert fd in OwnedBy(tb.files, tb.files[fd]);
  }

  lemma SectionTurn(states: seq<State>, turns: seq<Turn>, t: nat, call: Call, i: nat, m: nat)
    requires Section(states, turns, t, call, i, m)
    ensures Inv(states[i]) && AtRest(states[i].tb) && states[i].holder == -1
    ensures Inv(states[m - 1]) && Moves(states[m - 1], turns[m - 1], states[m])
    ensures t < |states[m].pcs| && t < |states[m - 1].pcs| && !Outside(states[m].pcs[t])
  {
    RunInv(states, turns, i);
    RunInv(states, turns, m - 1);
    RunInv(states, turns, m);
    assert MovesAt(states, turns, i);
    assert MovesAt(states, turns, m - 1);
    assert states[i + 1].holder == t;
  }

  /** Epoll_ctl was called for this pair in turn k of task t, between i and m, and said ok. */
  ghost predicate Answered(
      states: seq<State>, turns: seq<Turn>, t: nat, pc: PC, i: nat, k: nat, m: nat, ok: bool) {
    i < k < m <= |turns| < |states| && turns[k].t == t < |states[k].pcs| && states[k].pcs[t] == pc && turns[k].ok == ok
  }

  /** The answer matters once there is one. */
  predicate Before(pc: PC) {
    pc.Found? || pc.Adding? || pc.Deleting? || pc.Changing?
  }

  lemma {:induction false} UpdateSection(
      states: seq<State>, turns: seq<Turn>, t: nat, fd: int, i: nat, m: nat) returns (k: nat, ok: bool)
    requires Section(states, turns, t, Update(fd), i, m)
    ensures Shaped(states[i].tb) && t < |states[m].pcs|
    ensures Updating(states[i], states[m], states[m].pcs[t], fd, ok)
    ensures fd !in states[i].tb.files && !Before(states[m].pcs[t]) ==>
      Answered(states, turns, t, Adding(fd, states[i].tb.irqs[0]), i, k, m, ok)
    decreases m
  {
    SectionTurn(states, turns, t, Update(fd), i, m);
    k, ok := 0, false;
    if i + 1 < m {
      k, ok := UpdateSection(states, turns, t, fd, i, m - 1);
      var s, turn := states[m - 1], turns[m - 1];
      if turn.t != t {
        OthersWait(s, t, turn, states[m]);
      } else {
        UpdateStep(states[i], s, t, turn, states[m], fd, ok);
        k, ok := if s.pcs[t].Adding? then m - 1 else k, if s.pcs[t].Adding? then turn.ok else ok;
      }
    }
  }

  /**
   * What an update does from the turn in which it gets the lock to the one in which it gives
   * it up, whatever the others do meanwhile. A descriptor that the map has changes nothing
   * here. For another epoll_ctl is called, in turn k, on the core that was the first when the
   * lock was taken; if it succeeds the descriptor is on that core, in the map and in the
   * kernel, and that core alone has one more; if it fails nothing has changed.
   */
  lemma UpdateRegisters(states: seq<State>, turns: seq<Turn>, t: nat, fd: int, i: nat, j: nat) returns (k: nat)
    requires Section(states, turns, t, Update(fd), i, j) && j < |turns|
    requires turns[j].t == t && t < |states[j].pcs| && states[j].pcs[t].Unlocking?
    ensures states[i].holder == -1 && states[j + 1].holder == -1 && Shaped(states[i].tb)
    ensures fd in states[i].tb.files ==> Same(states[i], states[j + 1])
    ensures fd !in states[i].tb.files ==>
      && i < k < j && Answered(states, turns, t, Adding(fd, states[i].tb.irqs[0]), i, k, j, turns[k].ok)
      && if turns[k].ok then Registers(states[i], states[j + 1], fd) else Same(states[i], states[j + 1])
  {
    SectionTurn(states, turns, t, Update(fd), i, j);
    var ok;
    k, ok := UpdateSection(states, turns, t, fd, i, j);
    assert MovesAt(states, turns, j);
  }

  lemma {:induction false} RemovalSection(
      states: seq<State>, turns: seq<Turn>, t: nat, fd: int, i: nat, m: nat) returns (k: nat, ok: bool)
    requires Section(states, turns, t, Removal(fd), i, m)
    ensures Inv(states[i]) && AtRest(states[i].tb) && t < |states[m].pcs|
    ensures fd in states[i].tb.files ==> states[i].tb.load[states[i].tb.files[fd]] > 0
    ensures Removing(states[i], states[m], states[m].pcs[t], fd, ok)
    ensures fd in states[i].tb.files && !Before(states[m].pcs[t]) ==>
      Answered(states, turns, t, Deleting(fd, states[i].tb.files[fd]), i, k, m, ok)
    decreases m
  {
    SectionTurn(states, turns, t, Removal(fd), i, m);
    if fd in states[i].tb.files {
      OwnerLoaded(states[i].tb, fd);
    }
    k, ok := 0, false;
    if i + 1 < m {
      k, ok := RemovalSection(states, turns, t, fd, i, m - 1);
      var s, turn := states[m - 1], turns[m - 1];
      if turn.t != t {
        OthersWait(s, t, turn, states[m]);
      } else {
        RemovalStep(states[i], s, t, turn, states[m], fd, ok);
        k, ok := if s.pcs[t].Deleting? then m - 1 else k, if s.pcs[t].Deleting? then turn.ok else ok;
      }
    }
  }

  /**
   * The same of a removal. A descriptor that the map does not have changes nothing. Another
   * leaves the map, and its core's load goes down, whatever epoll_ctl says in turn k; the
   * kernel drops the pair if it says ok.
   */
  lemma RemovalUnregisters(states: seq<State>, turns: seq<Turn>, t: nat, fd: int, i: nat, j: nat) returns (k: nat)
    requires Section(states, turns, t, Removal(fd), i, j) && j < |turns|
    requires turns[j].t == t && t < |states[j].pcs| && states[j].pcs[t].Unlocking?
    ensures Inv(states[i]) && AtRest(states[i].tb) && states[i].holder == -1 && states[j + 1].holder == -1
    ensures fd !in states[i].tb.files ==> Same(states[i], states[j + 1])
    ensures fd in states[i].tb.files ==>
      && i < k < j && Answered(states, turns, t, Deleting(fd, states[i].tb.files[fd]), i, k, j, turns[k].ok)
      && states[i].tb.load[states[i].tb.files[fd]] > 0
      && Unregisters(states[i], states[j + 1], fd, turns[k].ok)
  {
    SectionTurn(states, turns, t, Removal(fd), i, j);
    var ok;
    k, ok := RemovalSection(states, turns, t, fd, i, j);
    assert MovesAt(states, turns, j);
  }
}
