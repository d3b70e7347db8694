/**
 * One reader of one file descriptor under edge triggering: the first attempt, the
 * clearing of the pending mask, the registration and the dispatch, interleaved with the
 * arrival of data. Everything but the arrivals happens on the descriptor's own core.
 */
module FileReadiness {
  import opened FileWQ
  import opened Sequences

  /** The reader. */
  datatype Reader =
    | Absent          // not waiting
    | Called          // its attempt is up to the core's thread
    | Registered      // in the wait list
    | Ready           // its handle is in the ready queue, or goes on without suspending

  /** The core's thread; the comments give the lines of CoKernel.h, FDICU.cpp and FileWQ.cpp. */
  datatype Core =
    | Free
    | Sampled(revents: Mask)                  // 199 or 215
    | Attempted(revents: Mask, block: bool)   // 200 or 216
    | Cleared(block: bool)                    // 201 or 217
    | Joined                                  // 220, when the attempt came through the function queue
    | Polled(events: Mask)                    // FDICU 38
    | Marked                                  // FDICU 39

  /**
   * `ready`: the descriptor has data; `edge`: an arrival that epoll has yet to report;
   * `inline`: the attempt runs in the reader's own await_suspend, not as a queued function;
   * `got`: the reader's last attempt found data.
   */
  datatype State = State(
    ready: bool, edge: bool, revents: Mask, items: seq<WaitItem>,
    reader: Reader, core: Core, inline: bool, got: bool)

  /** The reader's handle is 0; it asks for events that include readability. */
  const IN: nat := 0

  datatype Turn =
    | Arrive                                      // data arrives
    | Call(inline: bool)                          // the reader awaits
    | Resume                                      // the reader is resumed
    | CoreStep(events: Mask, leave: bool)         // the core goes on; it polls when free

  ghost predicate Happens(s: State, asked: Mask, turn: Turn, s': State) {
    match turn
    case Arrive => s' == s.(ready := true, edge := true)
    case Call(inline) => s.reader == Absent && s' == s.(reader := Called, inline := inline)
    case Resume => s.reader == Ready && s' == s.(reader := Absent)
    case CoreStep(events, leave) => CoreStep(s, asked, events, leave, s')
  }

  /** An attempt reads what there is, and may leave some. */
  function Attempt(s: State, leave: bool): State {
    s.(ready := s.ready && leave, got := s.ready)
  }

  ghost predicate CoreStep(s: State, asked: Mask, events: Mask, leave: bool, s': State) {
    if s.core != Free then s' == Next(s, asked, leave)
    else
      || (s.reader == Called && s' == s.(core := Sampled(s.revents)))
      // epoll_wait reports an edge with the events that are up, or drops one that has lapsed
      || (s.edge && s.ready && IN in events && s' == s.(edge := false, core := Polled(events)))
      || (s.edge && !s.ready && s' == s.(edge := false))
  }

  /** What the core does next when it is not free. */
  function Next(s: State, asked: Mask, leave: bool): State
    requires s.core != Free
  {
    match s.core
    case Sampled(r) => Attempt(s, leave).(core := Attempted(r, !s.ready))
    case Attempted(r, block) => s.(revents := r - asked, core := Cleared(block))
    case Cleared(block) =>
      if !block then s.(reader := Ready, core := Free)
      else s.(items := s.items + [WaitItem(0, asked)], reader := Registered, core := if s.inline then Free else Joined)
    case Joined => Wake(s, leave)
    case Polled(events) => s.(revents := s.revents + events, core := Marked)
    case Marked => Wake(s, leave)
  }

  /** FileWQ::wakeup: a woken waiter's callback makes its attempt. */
  function Wake(s: State, leave: bool): State {
    var o := Dispatch(s.items, s.revents);
    var s1 := if o.woken == [] then s else Attempt(s, leave).(reader := Ready);
    s1.(items := o.waiting, revents := o.revents, core := Free)
  }

  /** Readiness that the reader has yet to be told of. */
  predicate Heard(s: State) {
    || !s.ready
    || s.edge
    || (s.core.Polled? && IN in s.core.events)
    || (s.core.Marked? && IN in s.revents)
  }

  ghost predicate Inv(s: State, asked: Mask) {
    && (s.items == if s.reader == Registered then [WaitItem(0, asked)] else [])
    && (s.reader == Registered ==> Heard(s))
    // between an attempt that found nothing and the registration
    && ((s.core.Attempted? || s.core.Cleared?) && s.core.block ==> Heard(s))
    && (s.core.Sampled? || s.core.Attempted? || s.core.Cleared? ==> s.reader == Called)
    && (s.core.Joined? ==> s.reader == Registered)
    && (s.core.Polled? ==> IN in s.core.events)
    && (s.core.Marked? ==> IN in s.revents)
    // what was pending before an attempt, and nothing else of it, is not pending after it
    && (s.core.Sampled? || s.core.Attempted? ==> s.core.revents == s.revents)
    && (s.core.Cleared? || (s.reader == Registered && !s.core.Marked?) ==> s.revents !! asked)
  }

  lemma DispatchOne(w: WaitItem, r: Mask)
    ensures r * w.events != {} ==> Dispatch([w], r) == Outcome([Delivery(w, r * w.events)], [], r - w.events)
    ensures r * w.events == {} ==> Dispatch([w], r) == Outcome([], [w], r)
    ensures Dispatch([], r) == Outcome([], [], r)
  {
    assert [w][1..] == [];
  }

  lemma WakeKeeps(s: State, asked: Mask, leave: bool)
    requires Inv(s, asked) && IN in asked && (s.core.Joined? || s.core.Marked?)
    ensures Inv(Wake(s, leave), asked)
  {
    DispatchOne(WaitItem(0, asked), s.revents);
    if IN in s.revents {
      assert IN in s.revents * asked;
    }
  }

  lemma StepKeeps(s: State, asked: Mask, turn: Turn, s': State)
    requires Inv(s, asked) && IN in asked && Happens(s, asked, turn, s')
    ensures Inv(s', asked)
  {
    if turn.CoreStep? && (s.core.Joined? || s.core.Marked?) {
      WakeKeeps(s, asked, turn.leave);
    }
  }

  // ----- whole runs -----

  ghost predicate Run(states: seq<State>, asked: Mask, turns: seq<Turn>) {
    && |states| == |turns| + 1 && IN in asked
    && states[0].items == [] && states[0].reader == Absent && states[0].core == Free
    && forall i :: 0 <= i < |turns| ==> HappensAt(states, asked, turns, i)
  }

  ghost predicate HappensAt(states: seq<State>, asked: Mask, turns: seq<Turn>, i: nat)
    requires i < |turns| && i + 1 < |states|
  {
    Happens(states[i], asked, turns[i], states[i + 1])
  }

  lemma {:induction false} RunInv(states: seq<State>, asked: Mask, turns: seq<Turn>, i: nat)
    requires Run(states, asked, turns) && i < |states|
    ensures Inv(states[i], asked)
  {
    if i > 0 {
      RunInv(states, asked, turns, i - 1);
      assert HappensAt(states, asked, turns, i - 1);
      StepKeeps(states[i - 1], asked, turns[i - 1], states[i]);
    }
  }

  /**
   * Readiness is never lost: while the reader is registered, the descriptor has no data, or
   * an edge is still to be reported, or the report is on its way to the dispatch.
   */
  lemma ReadinessNotLost(states: seq<State>, asked: Mask, turns: seq<Turn>, i: nat)
    requires Run(states, asked, turns) && i < |states| && states[i].reader == Registered
    ensures Heard(states[i])
  {
    RunInv(states, asked, turns, i);
  }

  predicate OfCore(turn: Turn) {
    turn.CoreStep?
  }

  /** The core's turns until it wakes a registered reader that has data. */
  function ToWake(core: Core): nat {
    match core
    case Joined => 4 case Free => 3 case Polled(_) => 2 case Marked => 1 case _ => 0
  }

  /** The reader is woken from the wait list with data. */
  predicate WokenWithData(s: State, s': State) {
    s.reader == Registered && s'.reader == Ready && s'.got && s'.items == []
  }

  /** n core turns after s0 the reader still waits, and fewer turns than are left at s0 have gone. */
  predicate Nearer(s0: State, n: nat, s: State) {
    && s.reader == Registered && s.ready
    && 0 < ToWake(s.core) && n + ToWake(s.core) <= ToWake(s0.core)
  }

  lemma WayStep(s0: State, n: nat, s: State, asked: Mask, turn: Turn, s': State)
    requires Inv(s, asked) && IN in asked && Happens(s, asked, turn, s') && Nearer(s0, n, s)
    ensures WokenWithData(s, s') || Nearer(s0, if turn.CoreStep? then n + 1 else n, s')
  {
    if turn.CoreStep? && (s.core.Joined? || s.core.Marked?) {
      DispatchOne(WaitItem(0, asked), s.revents);
      if IN in s.revents {
        assert IN in s.revents * asked;
      }
    }
  }

  ghost predicate WokenBetween(states: seq<State>, i: nat, j: nat)
    requires i <= j < |states|
  {
    exists k :: i <= k < j && WokenWithData(states[k], states[k + 1])
  }

  lemma Reaches(states: seq<State>, asked: Mask, turns: seq<Turn>, i: nat, j: nat)
    requires Run(states, asked, turns) && i < j < |states|
    requires Nearer(states[i], Count(turns, OfCore, i, j - 1), states[j - 1])
    ensures WokenBetween(states, i, j) || Nearer(states[i], Count(turns, OfCore, i, j), states[j])
  {
    RunInv(states, asked, turns, j - 1);
    assert HappensAt(states, asked, turns, j - 1);
    WayStep(states[i], Count(turns, OfCore, i, j - 1), states[j - 1], asked, turns[j - 1], states[j]);
  }

  /**
   * A registered reader whose descriptor has data is woken with data by the core's next
   * poll, so within its next four turns (three when it is free), whatever arrives meanwhile.
   */
  lemma {:induction false} ReadyReaderIsWoken(states: seq<State>, asked: Mask, turns: seq<Turn>, i: nat, j: nat)
    requires Run(states, asked, turns) && i <= j < |states| && states[i].reader == Registered && states[i].ready
    ensures WokenBetween(states, i, j) || Nearer(states[i], Count(turns, OfCore, i, j), states[j])
    ensures Count(turns, OfCore, i, j) >= ToWake(states[i].core) ==> WokenBetween(states, i, j)
    ensures ToWake(states[i].core) <= 4 && (states[i].core == Free ==> ToWake(states[i].core) == 3)
  {
    if i < j {
      ReadyReaderIsWoken(states, asked, turns, i, j - 1);
      if !WokenBetween(states, i, j - 1) {
        Reaches(states, asked, turns, i, j);
      }
    } else {
      RunInv(states, asked, turns, i);
    }
  }

  // ----- what an attempt does -----

  /** The core is n turns past an attempt that found data, or did not. */
  predicate Attempting(s: State, found: bool, n: nat) {
    && s.reader == Called && s.got == found
    && match s.core
       case Attempted(_, block) => n == 1 && block == !found
       case Cleared(block) => n == 2 && block == !found
       case _ => false
  }

  /** The reader that found data is ready; the one that did not waits in the list, with nothing pending for it. */
  ghost predicate AnsweredBy(s: State, asked: Mask, found: bool) {
    && s.got == found
    && if found then s.reader == Ready && s.items == []
       else s.reader == Registered && s.items == [WaitItem(0, asked)] && s.revents !! asked
  }

  lemma AttemptStep(s: State, asked: Mask, turn: Turn, s': State, found: bool, n: nat)
    requires Inv(s, asked) && Happens(s, asked, turn, s') && Attempting(s, found, n)
    ensures if turn.CoreStep? && n == 2 then AnsweredBy(s', asked, found)
      else Attempting(s', found, if turn.CoreStep? then n + 1 else n)
  {
  }

  /**
   * Every attempt is answered, by what it found, in the core's second turn after it, whatever
   * arrives meanwhile: one that found data makes its reader ready, and one that found none
   * leaves it in the wait list. At instant k it has been, if the core has had these turns.
   */
  lemma {:induction false} AttemptIsAnswered(
      states: seq<State>, asked: Mask, turns: seq<Turn>, i: nat, j: nat) returns (k: nat)
    requires Run(states, asked, turns) && i < j < |states| && states[i].core.Sampled? && turns[i].CoreStep?
    ensures
      || Attempting(states[j], states[i].ready, Count(turns, OfCore, i, j))
      || (i < k <= j && Count(turns, OfCore, i, k) == 3 && AnsweredBy(states[k], asked, states[i].ready))
    decreases j
  {
    RunInv(states, asked, turns, j - 1);
    assert HappensAt(states, asked, turns, j - 1);
    k := j;
    if j == i + 1 {
      assert Count(turns, OfCore, i, i) == 0;
    } else {
      k := AttemptIsAnswered(states, asked, turns, i, j - 1);
      var n := Count(turns, OfCore, i, j - 1);
      if Attempting(states[j - 1], states[i].ready, n) {
        AttemptStep(states[j - 1], asked, turns[j - 1], states[j], states[i].ready, n);
        k := j;
      }
    }
  }

  /** A waiting reader is woken only by the dispatch of a report, and its attempt then is what it is given. */
  lemma WokenByReport(states: seq<State>, asked: Mask, turns: seq<Turn>, i: nat)
    requires Run(states, asked, turns) && i < |turns|
    requires states[i].reader == Registered && states[i + 1].reader != Registered
    ensures states[i].core == Marked && IN in states[i].revents
    ensures states[i + 1].reader == Ready && states[i + 1].got == states[i].ready
  {
    RunInv(states, asked, turns, i);
    assert HappensAt(states, asked, turns, i);
    DispatchOne(WaitItem(0, asked), states[i].revents);
  }

  /** The core goes on unless it is free, nobody has called it and no edge is to be reported. */
  lemma CoreGoesOn(s: State, asked: Mask, leave: bool)
    ensures (exists events, s' :: Happens(s, asked, Turn.CoreStep(events, leave), s'))
       <==> s.core != Free || s.reader == Called || s.edge
  {
    if s.core != Free {
      assert Happens(s, asked, Turn.CoreStep({}, leave), Next(s, asked, leave));
    } else if s.reader == Called {
      assert Happens(s, asked, Turn.CoreStep({}, leave), s.(core := Sampled(s.revents)));
    } else if s.edge && s.ready {
      assert Happens(s, asked, Turn.CoreStep({IN}, leave), s.(edge := false, core := Polled({IN})));
    } else if s.edge {
      assert Happens(s, asked, Turn.CoreStep({}, leave), s.(edge := false));
    }
  }

  /** The reader goes on unless it is up to the core. */
  lemma ReaderGoesOn(s: State, asked: Mask, inline: bool)
    ensures s.reader == Absent ==> exists s' :: Happens(s, asked, Turn.Call(inline), s')
    ensures s.reader == Ready ==> exists s' :: Happens(s, asked, Resume, s')
  {
    if s.reader == Absent {
      assert Happens(s, asked, Turn.Call(inline), s.(reader := Called, inline := inline));
    } else if s.reader == Ready {
      assert Happens(s, asked, Resume, s.(reader := Absent));
    }
  }
}
