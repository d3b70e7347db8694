/**
 * Coroutines that await one another through continuation pointers. The machine below runs
 * a Task and the tree of Lazy coroutines under it one step at a time, as the promises and
 * awaiters of Lazy.h and Task.h move the control. It is proved to compute what direct
 * recursive evaluation does, and to destroy every frame exactly once.
 */
module Lazy {
  type Val = int

  datatype Outcome = Value(v: Val) | Exception(e: Val)

  /**
   * What is left of a coroutine to run, over the values it has received so far. `Await` is
   * `co_await child`, `Try` the same under a handler, `Unused` a Lazy that is never awaited,
   * `Emit` an observable effect and `Suspend` the await of a timer, file or lock.
   */
  datatype Body =
    | Return(f: seq<Val> -> Val)
    | Throw(f: seq<Val> -> Val)
    | Emit(f: seq<Val> -> Val, next: Body)
    | Branch(test: seq<Val> -> bool, yes: Body, no: Body)
    | Suspend(next: Body)
    | Unused(child: Body, next: Body)
    | Await(args: seq<Val> -> seq<Val>, child: Body, next: Body)
    | Try(args: seq<Val> -> seq<Val>, child: Body, next: Body, handler: Body)

  // ----- direct evaluation -----

  datatype Result = Result(outcome: Outcome, log: seq<Val>)

  function Eval(b: Body, env: seq<Val>): Result {
    match b
    case Return(f) => Result(Value(f(env)), [])
    case Throw(f) => Result(Exception(f(env)), [])
    case Emit(f, next) =>
      var r := Eval(next, env);
      r.(log := [f(env)] + r.log)
    case Branch(test, yes, no) => if test(env) then Eval(yes, env) else Eval(no, env)
    case Suspend(next) => Eval(next, env)
    case Unused(_, next) => Eval(next, env)
    case Await(args, child, next) =>
      var c := Eval(child, args(env));
      if c.outcome.Exception? then c
      else Then(c, Eval(next, env + [c.outcome.v]))
    case Try(args, child, next, handler) =>
      var c := Eval(child, args(env));
      if c.outcome.Exception? then Then(c, Eval(handler, env + [c.outcome.e]))
      else Then(c, Eval(next, env + [c.outcome.v]))
  }

  function Then(c: Result, r: Result): Result {
    r.(log := c.log + r.log)
  }

  // ----- the machine -----

  type Handle = nat
  const NULL: Handle := 0

  /** The promise of a Lazy: `_value`, or `_exception` of LazyPromise<void>. */
  datatype Slot = Empty | Has(outcome: Outcome)

  datatype Code =
    | Run(b: Body)
    | Made(b: Body)                   // the child's Lazy is made
    | Taken(b: Body)                  // its handle is in a ValueAwaiter
    | Waiting(b: Body)                // suspended; await_resume is next
    | Unwinding(b: Body, e: Val)      // await_resume has rethrown
    | Final                           // at the final suspension point

  /** `_continuation`, `_tcb`, the result slot, and the frame's Lazy and ValueAwaiter temporaries. */
  datatype Frame = Frame(
    isTask: bool, continuation: Handle, tcb: Handle, slot: Slot,
    code: Code, env: seq<Val>, lazy: Handle, awaiter: Handle)

  /** Stuck is a use of a handle that is null or whose frame is gone, or of an empty slot. */
  datatype Control = Running(h: Handle) | Parked(h: Handle) | Finished | Stuck

  datatype State = State(
    frames: map<Handle, Frame>, made: Handle, destroyed: seq<Handle>, control: Control, log: seq<Val>)

  /** A coroutine is called: its frame is made, suspended at its start. */
  function NewFrame(isTask: bool, b: Body, env: seq<Val>): Frame {
    Frame(isTask, NULL, NULL, Empty, Run(b), env, NULL, NULL)
  }

  function Stop(s: State): State {
    s.(control := Stuck)
  }

  /** handle.destroy() */
  function Destroy(s: State, h: Handle): State {
    if h in s.frames then s.(frames := s.frames - {h}, destroyed := s.destroyed + [h]) else Stop(s)
  }

  function SetFrame(s: State, h: Handle, f: Frame): State {
    s.(frames := s.frames[h := f])
  }

  /** return_value, or unhandled_exception; a Task keeps neither. */
  function Finish(f: Frame, o: Outcome): Frame {
    f.(slot := if f.isTask then Empty else Has(o), code := Final)
  }

  /** The control block that a frame's awaiters see. */
  function Tcb(f: Frame, h: Handle): Handle {
    if f.isTask then h else f.tcb
  }

  function Step(s: State): State {
    match s.control
    case Finished => s
    case Stuck => s
    case Parked(h) => s.(control := Running(h))
    case Running(h) => if h in s.frames then StepIn(s, h, s.frames[h]) else Stop(s)
  }

  /** One step of the running frame. */
  function StepIn(s: State, h: Handle, f: Frame): State
    requires h in s.frames && s.frames[h] == f
  {
    match f.code
    case Run(Return(v)) => SetFrame(s, h, Finish(f, Value(v(f.env))))
    case Run(Throw(e)) => SetFrame(s, h, Finish(f, Exception(e(f.env))))
    case Run(Emit(v, next)) => SetFrame(s, h, f.(code := Run(next))).(log := s.log + [v(f.env)])
    case Run(Branch(test, yes, no)) => SetFrame(s, h, f.(code := Run(if test(f.env) then yes else no)))
    case Run(Suspend(next)) => SetFrame(s, h, f.(code := Run(next))).(control := Parked(h))
    case Run(Unused(child, next)) => Make(s, h, f, child, f.env)
    case Run(Await(args, child, _)) => Make(s, h, f, child, args(f.env))
    case Run(Try(args, child, _, _)) => Make(s, h, f, child, args(f.env))
    case Made(b) =>
      if b.Unused? then
        // ~Lazy
        var s1 := SetFrame(s, h, f.(lazy := NULL, code := Run(b.next)));
        if f.lazy != NULL then Destroy(s1, f.lazy) else s1
      else
        // coAwait
        SetFrame(s, h, f.(awaiter := f.lazy, lazy := NULL, code := Taken(b)))
    case Taken(b) =>
      // ValueAwaiter::await_suspend
      if f.awaiter !in s.frames then Stop(s)
      else
        var child := s.frames[f.awaiter].(continuation := h, tcb := Tcb(f, h));
        SetFrame(SetFrame(s, h, f.(code := Waiting(b))), f.awaiter, child).(control := Running(f.awaiter))
    case Waiting(b) =>
      // ValueAwaiter::await_resume
      if f.awaiter !in s.frames || s.frames[f.awaiter].slot == Empty then Stop(s)
      else
        var o := s.frames[f.awaiter].slot.outcome;
        if o.Exception? then SetFrame(s, h, f.(code := Unwinding(b, o.e)))
        else Destroy(SetFrame(s, h, f.(awaiter := NULL, env := f.env + [o.v], code := Run(Next(b)))), f.awaiter)
    case Unwinding(b, e) =>
      // ~ValueAwaiter, then the handler or unhandled_exception
      var f1 := f.(awaiter := NULL);
      var f2 := if b.Try? then f1.(env := f.env + [e], code := Run(b.handler)) else Finish(f1, Exception(e));
      var s1 := SetFrame(s, h, f2);
      if f.awaiter != NULL then Destroy(s1, f.awaiter) else s1
    case Final =>
      if f.isTask then
        // suspend_never: the frame goes, and control returns to resume()
        Destroy(s, h).(control := Finished)
      else if f.continuation != NULL then
        // FinalAwaiter::await_suspend
        s.(control := Running(f.continuation))
      else Stop(s)
  }

  function Next(b: Body): Body {
    if b.Await? || b.Try? then b.next else b
  }

  /** A child is called; its frame is the caller's Lazy. */
  function Make(s: State, h: Handle, f: Frame, child: Body, env: seq<Val>): State
    requires f.code.Run?
  {
    var c := s.made;
    SetFrame(SetFrame(s, h, f.(lazy := c, code := Made(f.code.b))), c, NewFrame(false, child, env)).(made := c + 1)
  }

  function Iterate(s: State, n: nat): State
    decreases n
  {
    if n == 0 then s else Iterate(Step(s), n - 1)
  }

  /** A task has been created and its handle taken from the ready queue. */
  function Start(b: Body): State {
    State(map[1 := NewFrame(true, b, [])], 2, [], Running(1), [])
  }

  // ----- the machine computes what direct evaluation does -----

  lemma {:induction false} Iterates(s: State, m: nat, n: nat)
    ensures Iterate(s, m + n) == Iterate(Iterate(s, m), n)
    decreases m
  {
    if m > 0 {
      Iterates(Step(s), m - 1, n);
    }
  }

  /** d has each handle from lo up to hi once, and no other. */
  ghost predicate Each(d: seq<Handle>, lo: nat, hi: nat) {
    && (forall i, j :: 0 <= i < j < |d| ==> d[i] != d[j])
    && (forall k :: k in d <==> lo <= k < hi)
  }

  /**
   * From s to s' frame h has run, and every frame made in between has been destroyed once;
   * the other frames are as they were.
   */
  ghost predicate Along(s: State, h: Handle, log: seq<Val>, s': State) {
    && s.control == s'.control == Running(h)
    && h in s.frames && h in s'.frames
    && s'.frames == s.frames[h := s'.frames[h]]
    && SamePromise(s.frames[h], s'.frames[h])
    && s'.log == s.log + log
    && s.made <= s'.made
    && |s.destroyed| <= |s'.destroyed| && s'.destroyed[..|s.destroyed|] == s.destroyed
    && Each(s'.destroyed[|s.destroyed|..], s.made, s'.made)
  }

  predicate SamePromise(f: Frame, f': Frame) {
    f'.isTask == f.isTask && f'.continuation == f.continuation && f'.tcb == f.tcb
  }

  /** ... and it has stopped at its final suspension point with outcome o. */
  ghost predicate Finishes(s: State, h: Handle, r: Result, s': State) {
    && Along(s, h, r.log, s')
    && s'.frames[h].code == Final
    && s'.frames[h].slot == if s'.frames[h].isTask then Empty else Has(r.outcome)
  }

  /** Frame h is about to run b. */
  ghost predicate Runs(s: State, h: Handle, b: Body) {
    && s.control == Running(h) && h != NULL && h in s.frames && s.frames[h].code == Run(b)
    && forall k :: k in s.frames ==> k < s.made
  }

  lemma EachJoin(d1: seq<Handle>, lo: nat, mid: nat, d2: seq<Handle>, hi: nat)
    requires Each(d1, lo, mid) && Each(d2, mid, hi) && lo <= mid <= hi
    ensures Each(d1 + d2, lo, hi)
  {
    assert forall i :: 0 <= i < |d1| ==> d1[i] in d1;
    assert forall i :: 0 <= i < |d2| ==> d2[i] in d2;
    assert forall k :: k in d1 + d2 <==> k in d1 || k in d2;
  }

  lemma EachSnoc(d: seq<Handle>, lo: nat, hi: nat)
    requires Each(d, lo + 1, hi) && lo < hi
    ensures Each(d + [lo], lo, hi)
  {
    assert forall i :: 0 <= i < |d| ==> d[i] in d;
    assert forall k :: k in d + [lo] <==> k in d || k == lo;
  }

  lemma Alongs(s: State, h: Handle, l1: seq<Val>, s1: State, l2: seq<Val>, s2: State)
    requires Along(s, h, l1, s1) && Along(s1, h, l2, s2)
    ensures Along(s, h, l1 + l2, s2)
  {
    var d, d1, d2 := s.destroyed, s1.destroyed[|s.destroyed|..], s2.destroyed[|s1.destroyed|..];
    assert s2.destroyed[|d|..] == d1 + d2;
    EachJoin(d1, s.made, s1.made, d2, s2.made);
    assert s2.log == s.log + (l1 + l2);
  }

  /** A step of frame h that makes and destroys nothing. */
  lemma LocalStep(s: State, h: Handle, f: Frame, log: seq<Val>)
    requires s.control == Running(h) && h in s.frames && SamePromise(s.frames[h], f)
    ensures Along(s, h, log, SetFrame(s, h, f).(log := s.log + log))
  {
  }

  /** The lifetime of a child frame: made as c, run, and destroyed. */
  lemma ChildLife(s: State, h: Handle, c: Handle, log: seq<Val>, mid: State, s': State)
    requires s.control == Running(h) && h in s.frames && c == s.made && c !in s.frames
    requires c + 1 <= mid.made && s'.made == mid.made
    requires |s.destroyed| <= |mid.destroyed| && mid.destroyed[..|s.destroyed|] == s.destroyed
    requires Each(mid.destroyed[|s.destroyed|..], c + 1, mid.made)
    requires s'.destroyed == mid.destroyed + [c] && s'.log == s.log + log
    requires s'.control == Running(h) && h in s'.frames && SamePromise(s.frames[h], s'.frames[h])
    requires s'.frames == s.frames[h := s'.frames[h]]
    ensures Along(s, h, log, s')
  {
    var d := mid.destroyed[|s.destroyed|..];
    assert s'.destroyed[|s.destroyed|..] == d + [c];
    assert s'.destroyed[..|s.destroyed|] == s.destroyed;
    EachSnoc(d, c, mid.made);
  }

  /** In s' frame h of s awaits in b, and the child runs, with its continuation set. */
  ghost predicate Awaiting(s: State, h: Handle, b: Body, s': State)
    requires h in s.frames && (b.Await? || b.Try?)
  {
    var c := s.made;
    && Runs(s', c, b.child) && s'.made == c + 1 && s'.destroyed == s.destroyed && s'.log == s.log
    && c !in s.frames && h in s'.frames
    && s'.frames[c] == NewFrame(false, b.child, b.args(s.frames[h].env)).(continuation := h, tcb := Tcb(s.frames[h], h))
    && s'.frames == s.frames[h := s'.frames[h]][c := s'.frames[c]]
    && s'.frames[h] == s.frames[h].(lazy := NULL, awaiter := c, code := Waiting(b))
  }

  /** Three steps from an await bring control to the child. */
  lemma AwaitStarts(s: State, h: Handle, b: Body)
    requires Runs(s, h, b) && (b.Await? || b.Try?)
    ensures Awaiting(s, h, b, Iterate(s, 3))
  {
    var c := s.made;
    var s1 := Step(s);
    var s2 := Step(s1);
    var s3 := Step(s2);
    assert Iterate(s, 3) == Iterate(s1, 2) == Iterate(s2, 1) == Iterate(s3, 0);
  }

  /** In s', after the await of b in s gave r, the rest or the handler runs, or the exception goes on. */
  ghost predicate Resumes(s: State, h: Handle, b: Body, r: Result, s': State)
    requires h in s.frames && (b.Await? || b.Try?)
  {
    && Along(s, h, r.log, s')
    && (r.outcome.Value? ==> Runs(s', h, b.next) && s'.frames[h].env == s.frames[h].env + [r.outcome.v])
    && (r.outcome.Exception? && b.Try? ==>
          Runs(s', h, b.handler) && s'.frames[h].env == s.frames[h].env + [r.outcome.e])
    && (r.outcome.Exception? && b.Await? ==> Finishes(s, h, r, s'))
  }

  /** From the child's final suspension point control comes back to await_resume, with its result. */
  lemma AwaitEnds(s: State, h: Handle, b: Body, s3: State, r: Result, s4: State)
    requires Runs(s, h, b) && (b.Await? || b.Try?)
    requires Awaiting(s, h, b, s3) && Finishes(s3, s.made, r, s4)
    ensures Resumes(s, h, b, r, Iterate(s4, if r.outcome.Value? then 2 else 3))
  {
    var c := s.made;
    var s5 := Step(s4);
    assert s5 == s4.(control := Running(h));
    var s6 := Step(s5);
    assert Iterate(s4, 2) == Iterate(s5, 1) == Iterate(s6, 0);
    if r.outcome.Value? {
      assert s6.frames == s.frames[h := s6.frames[h]];
      ChildLife(s, h, c, r.log, s4, s6);
    } else {
      var s7 := Step(s6);
      assert Iterate(s4, 3) == Iterate(s5, 2) == Iterate(s6, 1) == Iterate(s7, 0);
      assert s7.frames == s.frames[h := s7.frames[h]];
      ChildLife(s, h, c, r.log, s4, s7);
    }
  }

  /**
   * The main induction: a frame that runs b, at any depth, reaches its final suspension
   * point with the outcome and the effects of direct evaluation.
   */
  lemma {:induction false} Simulates(s: State, h: Handle, b: Body) returns (n: nat)
    requires Runs(s, h, b)
    ensures Finishes(s, h, Eval(b, s.frames[h].env), Iterate(s, n))
    decreases b, 1
  {
    var env := s.frames[h].env;
    match b
    case Return(f) =>
      n := 1;
      ReturnStep(s, h, b);
    case Throw(f) =>
      n := 1;
      ReturnStep(s, h, b);
    case Emit(f, next) =>
      OneStep(s, h, b);
      n := FollowsOn(s, h, b, next, 1, [f(env)]);
    case Branch(test, yes, no) =>
      OneStep(s, h, b);
      n := FollowsOn(s, h, b, if test(env) then yes else no, 1, []);
    case Suspend(next) =>
      SuspendSteps(s, h, b);
      n := FollowsOn(s, h, b, next, 2, []);
    case Unused(child, next) =>
      UnusedSteps(s, h, b);
      n := FollowsOn(s, h, b, next, 2, []);
    case Await(args, child, next) =>
      n := Awaits(s, h, b);
    case Try(args, child, next, handler) =>
      n := Awaits(s, h, b);
  }

  lemma ReturnStep(s: State, h: Handle, b: Body)
    requires Runs(s, h, b) && (b.Return? || b.Throw?)
    ensures Finishes(s, h, Eval(b, s.frames[h].env), Iterate(s, 1))
  {
    assert Iterate(s, 1) == Iterate(Step(s), 0);
    LocalStep(s, h, Step(s).frames[h], []);
  }

  /** After k steps that stay in the frame, the rest of the body runs. */
  lemma FollowsOn(s: State, h: Handle, b: Body, rest: Body, k: nat, log: seq<Val>) returns (n: nat)
    requires Runs(s, h, b) && rest < b
    requires Runs(Iterate(s, k), h, rest) && Along(s, h, log, Iterate(s, k))
    requires Iterate(s, k).frames[h].env == s.frames[h].env
    requires Eval(b, s.frames[h].env) == Then(Result(Value(0), log), Eval(rest, s.frames[h].env))
    ensures Finishes(s, h, Eval(b, s.frames[h].env), Iterate(s, n))
    decreases b, 0
  {
    var m := Simulates(Iterate(s, k), h, rest);
    n := k + m;
    Iterates(s, k, m);
    Alongs(s, h, log, Iterate(s, k), Eval(rest, s.frames[h].env).log, Iterate(s, n));
  }

  lemma OneStep(s: State, h: Handle, b: Body)
    requires Runs(s, h, b) && (b.Emit? || b.Branch?)
    ensures var env, s1 := s.frames[h].env, Iterate(s, 1);
      && Runs(s1, h, if b.Emit? then b.next else if b.test(env) then b.yes else b.no)
      && Along(s, h, if b.Emit? then [b.f(env)] else [], s1) && s1.frames[h].env == env
  {
    assert Iterate(s, 1) == Iterate(Step(s), 0);
    LocalStep(s, h, Step(s).frames[h], if b.Emit? then [b.f(s.frames[h].env)] else []);
  }

  lemma SuspendSteps(s: State, h: Handle, b: Body)
    requires Runs(s, h, b) && b.Suspend?
    ensures Runs(Iterate(s, 2), h, b.next) && Along(s, h, [], Iterate(s, 2))
    ensures Iterate(s, 2).frames[h].env == s.frames[h].env
  {
    var s1 := Step(s);
    assert s1.control == Parked(h);
    assert Iterate(s, 2) == Iterate(s1, 1) == Iterate(Step(s1), 0);
    LocalStep(s, h, s1.frames[h], []);
  }

  /** A Lazy that is never awaited is destroyed by its own destructor, unstarted. */
  lemma UnusedSteps(s: State, h: Handle, b: Body)
    requires Runs(s, h, b) && b.Unused?
    ensures Runs(Iterate(s, 2), h, b.next) && Along(s, h, [], Iterate(s, 2))
    ensures Iterate(s, 2).frames[h].env == s.frames[h].env
  {
    var c := s.made;
    var s1 := Step(s);
    var s2 := Step(s1);
    assert Iterate(s, 2) == Iterate(s1, 1) == Iterate(s2, 0);
    assert s2.frames == s.frames[h := s2.frames[h]];
    ChildLife(s, h, c, [], s1, s2);
  }

  /** co_await: the child runs to its end, and then the rest or the handler. */
  lemma Awaits(s: State, h: Handle, b: Body) returns (n: nat)
    requires Runs(s, h, b) && (b.Await? || b.Try?)
    ensures Finishes(s, h, Eval(b, s.frames[h].env), Iterate(s, n))
    decreases b, 0
  {
    var env, c := s.frames[h].env, s.made;
    var r := Eval(b.child, b.args(env));
    var k := AwaitsChild(s, h, b);
    var s6 := Iterate(s, k);
    if r.outcome.Value? {
      var m := Simulates(s6, h, b.next);
      n := k + m;
      Iterates(s, k, m);
      Alongs(s, h, r.log, s6, Eval(b.next, env + [r.outcome.v]).log, Iterate(s, n));
    } else if b.Try? {
      var m := Simulates(s6, h, b.handler);
      n := k + m;
      Iterates(s, k, m);
      Alongs(s, h, r.log, s6, Eval(b.handler, env + [r.outcome.e]).log, Iterate(s, n));
    } else {
      n := k;
    }
  }

  lemma AwaitsChild(s: State, h: Handle, b: Body) returns (k: nat)
    requires Runs(s, h, b) && (b.Await? || b.Try?)
    ensures Resumes(s, h, b, Eval(b.child, b.args(s.frames[h].env)), Iterate(s, k))
    decreases b.child, 2
  {
    AwaitStarts(s, h, b);
    var s3 := Iterate(s, 3);
    var m := Simulates(s3, s.made, b.child);
    var r := Eval(b.child, b.args(s.frames[h].env));
    AwaitEnds(s, h, b, s3, r, Iterate(s3, m));
    var last := if r.outcome.Value? then 2 else 3;
    Iterates(s, 3, m);
    Iterates(s, 3 + m, last);
    k := 3 + m + last;
  }

  /**
   * A task runs to its end with the effects of direct evaluation; no frame is left, and
   * each one ever made, the task's own included, has been destroyed exactly once.
   */
  lemma TaskRuns(b: Body) returns (n: nat)
    ensures var s := Iterate(Start(b), n);
      && s.control == Finished && s.log == Eval(b, []).log
      && s.frames == map[] && Each(s.destroyed, 1, s.made)
  {
    var s0 := Start(b);
    var m := Simulates(s0, 1, b);
    var s1 := Iterate(s0, m);
    var s2 := Step(s1);
    Iterates(s0, m, 1);
    assert Iterate(s1, 1) == Iterate(s2, 0);
    n := m + 1;
    assert s1.destroyed[|s0.destroyed|..] == s1.destroyed;
    assert Each(s1.destroyed, 2, s1.made);
    EachSnoc(s1.destroyed, 1, s1.made);
    assert s2.frames == map[];
  }

  lemma {:induction false} Monotone(s: State, n: nat)
    ensures s.control == Stuck ==> Iterate(s, n).control == Stuck
    ensures s.control == Finished ==> Iterate(s, n) == s
    ensures s.destroyed <= Iterate(s, n).destroyed
    decreases n
  {
    if n > 0 {
      Monotone(Step(s), n - 1);
      StepDestroys(s);
    }
  }

  lemma StepDestroys(s: State)
    ensures s.destroyed <= Step(s).destroyed
  {
  }

  /** At no instant is a frame used after it is gone, or destroyed twice. */
  lemma NoDanglingHandle(b: Body, i: nat)
    ensures var s := Iterate(Start(b), i);
      && s.control != Stuck
      && forall j, k :: 0 <= j < k < |s.destroyed| ==> s.destroyed[j] != s.destroyed[k]
  {
    var s0 := Start(b);
    var n := TaskRuns(b);
    if i <= n {
      Iterates(s0, i, n - i);
      Monotone(Iterate(s0, i), n - i);
    } else {
      Iterates(s0, n, i - n);
      Monotone(Iterate(s0, n), i - n);
    }
  }

  // ----- the control block -----

  /** Every frame that has started, and every one that control can go back to, sees the task's. */
  ghost predicate FramesTcb(frames: map<Handle, Frame>, made: Handle, root: Handle) {
    && (forall h :: h in frames ==> Sees(frames, h, root) || (frames[h].code.Run? && frames[h].tcb == NULL))
    && (forall h :: h in frames && frames[h].continuation in frames ==> Sees(frames, frames[h].continuation, root))
    && (forall h :: h in frames ==> NULL < h < made && frames[h].continuation < made)
    && (forall h :: h in frames && frames[h].isTask ==> h == root)
  }

  predicate Sees(frames: map<Handle, Frame>, h: Handle, root: Handle)
    requires h in frames
  {
    Tcb(frames[h], h) == root
  }

  ghost predicate OneTcb(s: State, root: Handle) {
    && FramesTcb(s.frames, s.made, root)
    && ((s.control.Running? || s.control.Parked?) && s.control.h in s.frames ==> Sees(s.frames, s.control.h, root))
  }

  lemma SetKeepsTcb(frames: map<Handle, Frame>, made: Handle, root: Handle, h: Handle, f: Frame)
    requires FramesTcb(frames, made, root) && h in frames && SamePromise(frames[h], f) && Sees(frames, h, root)
    ensures FramesTcb(frames[h := f], made, root)
    ensures forall k :: k in frames ==> Sees(frames[h := f], k, root) == Sees(frames, k, root)
  {
  }

  lemma DropKeepsTcb(frames: map<Handle, Frame>, made: Handle, root: Handle, h: Handle)
    requires FramesTcb(frames, made, root)
    ensures FramesTcb(frames - {h}, made, root)
  {
  }

  lemma MakeKeepsTcb(frames: map<Handle, Frame>, made: Handle, root: Handle, f: Frame)
    requires FramesTcb(frames, made, root) && made > 0
    requires f.code.Run? && f.tcb == NULL && f.continuation == NULL && !f.isTask
    ensures FramesTcb(frames[made := f], made + 1, root)
  {
  }

  lemma TakeKeepsTcb(frames: map<Handle, Frame>, made: Handle, root: Handle, h: Handle, c: Handle)
    requires FramesTcb(frames, made, root) && h in frames && c in frames && Sees(frames, h, root)
    ensures var f := frames[c].(continuation := h, tcb := Tcb(frames[h], h));
      FramesTcb(frames[c := f], made, root) && Sees(frames[c := f], c, root)
  {
  }

  /** Control is in a live frame. */
  ghost predicate InFrame(s: State, root: Handle) {
    OneTcb(s, root) && s.made > 0 && s.control.Running? && s.control.h in s.frames
  }

  lemma RunKeepsTcb(s: State, root: Handle)
    requires InFrame(s, root) && s.frames[s.control.h].code.Run?
    ensures OneTcb(Step(s), root) && Step(s).made > 0
  {
    var h, s' := s.control.h, Step(s);
    var b := s.frames[h].code.b;
    SetKeepsTcb(s.frames, s.made, root, h, s'.frames[h]);
    if b.Unused? || b.Await? || b.Try? {
      MakeKeepsTcb(s.frames[h := s'.frames[h]], s.made, root, s'.frames[s.made]);
    }
  }

  lemma TakenKeepsTcb(s: State, root: Handle)
    requires InFrame(s, root) && s.frames[s.control.h].code.Taken?
    ensures OneTcb(Step(s), root) && Step(s).made > 0
  {
    var h := s.control.h;
    var f := s.frames[h];
    var f1 := f.(code := Waiting(f.code.b));
    SetKeepsTcb(s.frames, s.made, root, h, f1);
    if f.awaiter in s.frames {
      TakeKeepsTcb(s.frames[h := f1], s.made, root, h, f.awaiter);
      assert s.frames[h := f1][f.awaiter] == if f.awaiter == h then f1 else s.frames[f.awaiter];
    }
  }

  /** The frame itself is rewritten, and another may be destroyed. */
  lemma RewriteKeepsTcb(s: State, root: Handle, f: Frame, gone: Handle)
    requires InFrame(s, root) && SamePromise(s.frames[s.control.h], f)
    ensures FramesTcb(s.frames[s.control.h := f], s.made, root)
    ensures FramesTcb(s.frames[s.control.h := f] - {gone}, s.made, root)
    ensures Sees(s.frames[s.control.h := f], s.control.h, root)
  {
    SetKeepsTcb(s.frames, s.made, root, s.control.h, f);
    DropKeepsTcb(s.frames[s.control.h := f], s.made, root, gone);
  }

  lemma MadeKeepsTcb(s: State, root: Handle)
    requires InFrame(s, root) && s.frames[s.control.h].code.Made?
    ensures OneTcb(Step(s), root) && Step(s).made > 0
  {
    var f := s.frames[s.control.h];
    var b := f.code.b;
    if b.Unused? {
      RewriteKeepsTcb(s, root, f.(lazy := NULL, code := Run(b.next)), f.lazy);
    } else {
      RewriteKeepsTcb(s, root, f.(awaiter := f.lazy, lazy := NULL, code := Taken(b)), NULL);
    }
  }

  lemma ResumeKeepsTcb(s: State, root: Handle)
    requires InFrame(s, root) && s.frames[s.control.h].code.Waiting?
    ensures OneTcb(Step(s), root) && Step(s).made > 0
  {
    var f := s.frames[s.control.h];
    if f.awaiter in s.frames && s.frames[f.awaiter].slot != Empty {
      var b, o := f.code.b, s.frames[f.awaiter].slot.outcome;
      if o.Exception? {
        RewriteKeepsTcb(s, root, f.(code := Unwinding(b, o.e)), NULL);
      } else {
        RewriteKeepsTcb(s, root, f.(awaiter := NULL, env := f.env + [o.v], code := Run(Next(b))), f.awaiter);
      }
    }
  }

  lemma UnwindKeepsTcb(s: State, root: Handle)
    requires InFrame(s, root) && s.frames[s.control.h].code.Unwinding?
    ensures OneTcb(Step(s), root) && Step(s).made > 0
  {
    var f := s.frames[s.control.h];
    var b, e, f1 := f.code.b, f.code.e, f.(awaiter := NULL);
    RewriteKeepsTcb(s, root,
                    if b.Try? then f1.(env := f.env + [e], code := Run(b.handler)) else Finish(f1, Exception(e)),
                    f.awaiter);
  }

  lemma StepKeepsTcb(s: State, root: Handle)
    requires OneTcb(s, root) && s.made > 0
    ensures OneTcb(Step(s), root) && Step(s).made > 0
  {
    if s.control.Running? && s.control.h in s.frames {
      match s.frames[s.control.h].code
      case Run(_) => RunKeepsTcb(s, root);
      case Made(_) => MadeKeepsTcb(s, root);
      case Taken(_) => TakenKeepsTcb(s, root);
      case Waiting(_) => ResumeKeepsTcb(s, root);
      case Unwinding(_, _) => UnwindKeepsTcb(s, root);
      case Final => DropKeepsTcb(s.frames, s.made, root, s.control.h);
    }
  }

  lemma {:induction false} TcbHolds(s: State, root: Handle, n: nat)
    requires OneTcb(s, root) && s.made > 0
    ensures OneTcb(Iterate(s, n), root)
    decreases n
  {
    if n > 0 {
      StepKeepsTcb(s, root);
      TcbHolds(Step(s), root, n - 1);
    }
  }

  /**
   * Whichever frame of a task runs or suspends, at any depth, the control block that its
   * awaiters see is the task's own; so lock and unlock in different frames see one tid.
   */
  lemma SameControlBlock(b: Body, i: nat)
    ensures var s := Iterate(Start(b), i);
      s.control.Running? || s.control.Parked? ==>
        s.control.h in s.frames && Tcb(s.frames[s.control.h], s.control.h) == 1
  {
    TcbHolds(Start(b), 1, i);
    var s := Iterate(Start(b), i);
    NoDanglingHandle(b, i + 2);
    Iterates(Start(b), i, 2);
    assert Iterate(s, 2) == Iterate(Step(s), 1) == Iterate(Step(Step(s)), 0);
  }
}
