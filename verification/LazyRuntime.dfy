/**
 * The coroutine runtime in place: every frame is an object, handles are references to it,
 * and the members of the promises and awaiters follow and null them without any check. A
 * frame that has been destroyed keeps its contents from then on, and no step goes through
 * a reference to it.
 */
module LazyRuntime {
  import opened Lazy

  /** A coroutine's frame with its promise and the temporaries of its body. */
  class Coro {
    ghost const id: Handle
    const isTask: bool
    var continuation: Coro?
    var tcb: Coro?
    var slot: Slot
    var code: Code
    var env: seq<Val>
    var lazy: Coro?
    var awaiter: Coro?

    constructor (ghost id: Handle, isTask: bool, b: Body, env: seq<Val>)
      ensures this.id == id && this.isTask == isTask && FrameOf(this) == NewFrame(isTask, b, env)
      ensures continuation == tcb == lazy == awaiter == null
    {
      this.id, this.isTask := id, isTask;
      continuation, tcb, lazy, awaiter := null, null, null, null;
      slot, code, this.env := Empty, Run(b), env;
    }
  }

  ghost function Id(c: Coro?): Handle {
    if c == null then NULL else c.id
  }

  /** What the machine of Lazy has in its place. */
  ghost function FrameOf(c: Coro): Frame
    reads c
  {
    Frame(c.isTask, Id(c.continuation), Id(c.tcb), c.slot, c.code, c.env, Id(c.lazy), Id(c.awaiter))
  }

  /** A destroyed frame, as it was. */
  datatype Grave = Grave(c: Coro, was: Frame)

  ghost function Ids(graves: seq<Grave>): seq<Handle> {
    seq(|graves|, k requires 0 <= k < |graves| => graves[k].c.id)
  }

  datatype Where = AtWork | Asleep | Over

  class Runtime {
    var current: Coro
    var where: Where
    var log: seq<Val>
    ghost var all: map<Handle, Coro>       // every frame made so far
    ghost var frames: map<Handle, Frame>   // the contents of those not destroyed
    ghost var made: Handle
    ghost var graves: seq<Grave>           // the others, in the order of destruction

    ghost function Everything(): set<Coro>
      reads this`all
    {
      set h | h in all :: all[h]
    }

    ghost function Living(): set<Coro>
      reads this`all, this`frames
    {
      set h | h in frames && h in all :: all[h]
    }

    /** A reference to a frame that was made; it may have been destroyed since. */
    ghost predicate Known(c: Coro?)
      reads this`all
    {
      c != null ==> c.id in all && all[c.id] == c
    }

    ghost predicate Live(c: Coro?)
      reads this`all, this`frames
    {
      c != null && c.id in frames && c.id in all && all[c.id] == c
    }

    ghost predicate Refers(c: Coro)
      reads this`all, c
    {
      && Known(c.continuation) && Known(c.tcb) && Known(c.lazy) && Known(c.awaiter)
      && c.lazy != c && c.awaiter != c
    }

    ghost predicate Numbered()
      reads this`all, this`made, this`frames, this`current
    {
      && (forall h :: h in all <==> 1 <= h < made)
      && (forall h :: h in all ==> all[h].id == h)
      && (forall h :: h in frames ==> h in all)
      && Known(current)
    }

    ghost predicate Closed()
      reads this`all, Everything()
    {
      forall h {:trigger Refers(all[h])} :: h in all ==> Refers(all[h])
    }

    ghost predicate Recorded()
      reads this`all, this`frames, Everything()
    {
      forall h :: h in frames && h in all ==> frames[h] == FrameOf(all[h])
    }

    ghost predicate Resting()
      reads this`all, this`frames, this`graves, Everything()
    {
      forall k :: 0 <= k < |graves| ==> Known(graves[k].c) && Buried(graves[k])
    }

    ghost predicate Valid()
      reads this`all, this`made, this`frames, this`current, this`graves, Everything()
    {
      Numbered() && Closed() && Recorded() && Resting()
    }

    /** The frame is not touched any more: it is as it was when it was destroyed. */
    ghost predicate Buried(g: Grave)
      reads this`all, this`frames, g.c
    {
      Known(g.c) && g.c.id !in frames && FrameOf(g.c) == g.was
    }

    ghost function Now(): State
      reads this
    {
      State(frames, made, Ids(graves),
            match where
              case AtWork => Control.Running(current.id)
              case Asleep => Parked(current.id)
              case Over => Finished,
            log)
    }

    /** A task is created. */
    constructor (b: Body)
      ensures Valid() && Now() == Start(b)
      ensures forall c :: c in Everything() ==> fresh(c)
    {
      var task := new Coro(1, true, b, []);
      current, where, log := task, AtWork, [];
      all, frames, made, graves := map[1 := task], map[1 := NewFrame(true, b, [])], 2, [];
    }

    /** handle.destroy() */
    method DestroyFrame(c: Coro)
      requires Valid() && Live(c)
      modifies this`frames, this`graves
      ensures Valid() && Now() == Destroy(old(Now()), c.id)
      ensures graves == old(graves) + [Grave(c, old(FrameOf(c)))]
    {
      graves := graves + [Grave(c, FrameOf(c))];
      frames := frames - {c.id};
    }

    lemma HandlesKnown(c: Coro)
      requires Valid() && Known(c)
      ensures Refers(c)
    {
      assert Refers(all[c.id]);
    }

    /** Only c, which is live, has changed, and the record of it is up to date. */
    twostate predicate Rewrote(c: Coro)
      reads this, Everything(), c
    {
      && old(Live(c)) && old(Valid()) && Known(c) && Refers(c)
      && all == old(all) && made == old(made) && graves == old(graves) && current == old(current)
      && frames == old(frames)[c.id := FrameOf(c)]
      && forall h :: h in all && h != c.id ==> unchanged(all[h])
    }

    twostate lemma ClosedKept(c: Coro)
      requires Rewrote(c)
      ensures Closed()
    {
      forall h | h in all
        ensures Refers(all[h])
      {
        assert old(Refers(all[h]));
      }
    }

    twostate lemma RecordedKept(c: Coro)
      requires Rewrote(c)
      ensures Recorded()
    {
    }

    twostate lemma RestingKept(c: Coro)
      requires Rewrote(c)
      ensures Resting()
    {
    }

    twostate lemma Rewritten(c: Coro)
      requires Rewrote(c)
      ensures Valid()
    {
      ClosedKept(c);
      RecordedKept(c);
      RestingKept(c);
    }

    /** Control is in frame c. */
    ghost predicate At(c: Coro)
      reads this, Everything()
    {
      Valid() && Live(c) && where == AtWork && current == c
    }

    /** Lazy::coAwait: the handle is exchanged into a ValueAwaiter. */
    method CoAwait(c: Coro)
      requires At(c) && c.code.Made? && !c.code.b.Unused?
      modifies this`frames, c
      ensures Valid() && Now() == Step(old(Now()))
    {
      HandlesKnown(c);
      c.awaiter := c.lazy;
      c.lazy := null;
      c.code := Taken(c.code.b);
      frames := frames[c.id := FrameOf(c)];
      Rewritten(c);
    }

    /** The caller becomes the child's continuation, and lends it its control block. */
    method Continue(child: Coro, c: Coro)
      requires Valid() && Live(c) && Live(child)
      modifies this`frames, child`continuation, child`tcb
      ensures Valid()
      ensures var f, g := old(frames[c.id]), old(frames[child.id]);
        frames == old(frames)[child.id := g.(continuation := c.id, tcb := Tcb(f, c.id))]
    {
      HandlesKnown(c);
      HandlesKnown(child);
      child.continuation := c;
      child.tcb := if c.isTask then c else c.tcb;
      frames := frames[child.id := FrameOf(child)];
      Rewritten(child);
    }

    method SetCode(c: Coro, code: Code)
      requires Valid() && Live(c)
      modifies this`frames, c`code
      ensures Valid() && frames == old(frames)[c.id := old(frames[c.id]).(code := code)]
    {
      HandlesKnown(c);
      c.code := code;
      frames := frames[c.id := FrameOf(c)];
      Rewritten(c);
    }

    method Suspend(c: Coro, child: Coro)
      requires Valid() && Live(c) && Live(child) && child != c && c.code.Taken?
      modifies this`frames, c`code, child`continuation, child`tcb
      ensures Valid()
      ensures frames == Suspended(old(frames), c.id, child.id)
    {
      SetCode(c, Waiting(c.code.b));
      Continue(child, c);
    }

    /** Symmetric transfer of control. */
    method Transfer(c: Coro)
      requires Valid() && Known(c)
      modifies this`current
      ensures Valid() && current == c
    {
      current := c;
    }

    /** ValueAwaiter::await_suspend: the caller becomes the continuation, and the child runs. */
    method AwaitSuspend(c: Coro)
      requires At(c) && c.code.Taken? && Live(c.awaiter)
      modifies this`frames, this`current, c, c.awaiter
      ensures Valid() && Now() == Step(old(Now()))
    {
      HandlesKnown(c);
      ghost var was := Now();
      var child := c.awaiter;
      SuspendStep(was, c.id, child.id);
      Suspend(c, child);
      Transfer(child);
    }

    method TakeValue(c: Coro, v: Val)
      requires Valid() && Live(c) && c.code.Waiting?
      modifies this`frames, c
      ensures Valid()
      ensures var f := old(frames[c.id]);
        frames == old(frames)[c.id := f.(awaiter := NULL, env := f.env + [v], code := Run(Next(f.code.b)))]
    {
      HandlesKnown(c);
      ghost var f := frames[c.id];
      c.awaiter := null;
      c.env := c.env + [v];
      c.code := Run(Next(c.code.b));
      assert FrameOf(c) == f.(awaiter := NULL, env := f.env + [v], code := Run(Next(f.code.b)));
      frames := frames[c.id := FrameOf(c)];
      Rewritten(c);
    }

    /** ValueAwaiter::await_resume: the value is taken and the child destroyed, or the exception rethrown. */
    method AwaitResume(c: Coro)
      requires At(c) && c.code.Waiting? && Live(c.awaiter) && c.awaiter.slot.Has?
      modifies this`frames, this`graves, c
      ensures Valid() && Now() == Step(old(Now())) && old(graves) <= graves
    {
      HandlesKnown(c);
      ghost var was := Now();
      var child := c.awaiter;
      ResumeStep(was, c.id, child.id);
      match child.slot.outcome {
        case Exception(e) =>
          SetCode(c, Unwinding(c.code.b, e));
        case Value(v) =>
          TakeValue(c, v);
          DestroyFrame(child);
      }
    }

    /** return_value, or unhandled_exception; a Task keeps neither. */
    method KeepOutcome(c: Coro, o: Outcome)
      requires Valid() && Live(c)
      modifies this`frames, c
      ensures Valid() && frames == old(frames)[c.id := Finish(old(frames[c.id]), o)]
    {
      HandlesKnown(c);
      c.slot := if c.isTask then Empty else Has(o);
      c.code := Final;
      frames := frames[c.id := FrameOf(c)];
      Rewritten(c);
    }

    /** A coroutine is called: a new frame. */
    method Allocate(b: Body, env: seq<Val>) returns (child: Coro)
      requires Valid()
      modifies this`all, this`frames, this`made
      ensures Valid() && fresh(child) && child.id == old(made) && made == old(made) + 1
      ensures all == old(all)[old(made) := child] && frames == old(frames)[old(made) := NewFrame(false, b, env)]
    {
      child := new Coro(made, false, b, env);
      all, frames, made := all[made := child], frames[made := NewFrame(false, b, env)], made + 1;
      forall h | h in all
        ensures Refers(all[h])
      {
        assert h in old(all) ==> old(Refers(all[h]));
      }
    }

    method OwnLazy(c: Coro, child: Coro)
      requires Valid() && Live(c) && Known(child) && child != c && c.code.Run?
      modifies this`frames, c
      ensures Valid()
      ensures var f := old(frames[c.id]); frames == old(frames)[c.id := f.(lazy := child.id, code := Made(f.code.b))]
    {
      HandlesKnown(c);
      c.lazy := child;
      c.code := Made(c.code.b);
      frames := frames[c.id := FrameOf(c)];
      Rewritten(c);
    }

    /** The child's frame is made, and the caller's Lazy owns it. */
    method CallChild(c: Coro, b: Body, env: seq<Val>)
      requires Valid() && Live(c) && c.code.Run?
      modifies this`all, this`frames, this`made, c
      ensures Valid() && frames == Called(old(frames), c.id, old(made), b, env) && made == old(made) + 1
      ensures forall x :: x in Everything() ==> x in old(Everything()) || fresh(x)
    {
      var child := Allocate(b, env);
      OwnLazy(c, child);
    }

    /** The body ends. */
    method RunEnd(c: Coro)
      requires At(c) && c.code.Run? && Ends(c.code.b)
      modifies this`frames, c
      ensures Valid() && Now() == Step(old(Now()))
    {
      EndStep(Now(), c.id);
      match c.code.b {
        case Return(v) => KeepOutcome(c, Value(v(c.env)));
        case Throw(e) => KeepOutcome(c, Exception(e(c.env)));
      }
    }

    /** resume() returns, and some queue has the handle. */
    method Park()
      requires Valid()
      modifies this`where
      ensures Valid() && where == Asleep
    {
      where := Asleep;
    }

    /** The body awaits a timer, a file or a lock. */
    method RunSuspend(c: Coro)
      requires At(c) && c.code.Run? && c.code.b.Suspend?
      modifies this`frames, this`where, c
      ensures Valid() && Now() == Step(old(Now()))
    {
      PlainStep(Now(), c.id);
      SetCode(c, Run(c.code.b.next));
      Park();
    }

    /** The body has an effect. */
    method RunEmit(c: Coro)
      requires At(c) && c.code.Run? && c.code.b.Emit?
      modifies this`frames, this`log, c
      ensures Valid() && Now() == Step(old(Now()))
    {
      PlainStep(Now(), c.id);
      log := log + [c.code.b.f(c.env)];
      SetCode(c, Run(c.code.b.next));
    }

    method RunBranch(c: Coro)
      requires At(c) && c.code.Run? && c.code.b.Branch?
      modifies this`frames, c
      ensures Valid() && Now() == Step(old(Now()))
    {
      PlainStep(Now(), c.id);
      SetCode(c, Run(if c.code.b.test(c.env) then c.code.b.yes else c.code.b.no));
    }

    /** The body calls a coroutine. */
    method RunCall(c: Coro)
      requires At(c) && c.code.Run? && Calls(c.code.b)
      modifies this`all, this`frames, this`made, c
      ensures Valid() && Now() == Step(old(Now()))
      ensures forall x :: x in Everything() ==> x in old(Everything()) || fresh(x)
    {
      CallStep(Now(), c.id);
      match c.code.b {
        case Unused(child, next) => CallChild(c, child, c.env);
        case Await(args, child, next) => CallChild(c, child, args(c.env));
        case Try(args, child, next, handler) => CallChild(c, child, args(c.env));
      }
    }

    method LeaveLazy(c: Coro)
      requires Valid() && Live(c) && c.code.Made? && c.code.b.Unused?
      modifies this`frames, c
      ensures Valid()
      ensures var f := old(frames[c.id]); frames == old(frames)[c.id := f.(lazy := NULL, code := Run(f.code.b.next))]
    {
      HandlesKnown(c);
      c.lazy := null;
      c.code := Run(c.code.b.next);
      frames := frames[c.id := FrameOf(c)];
      Rewritten(c);
    }

    /** ~Lazy, which still owns its coroutine. */
    method DropLazy(c: Coro)
      requires At(c) && c.code.Made? && c.code.b.Unused? && (c.lazy != null ==> Live(c.lazy))
      modifies this`frames, this`graves, c
      ensures Valid() && Now() == Step(old(Now())) && old(graves) <= graves
    {
      HandlesKnown(c);
      var child := c.lazy;
      LeaveLazy(c);
      if child != null {
        DestroyFrame(child);
      }
    }

    method Catch(c: Coro)
      requires Valid() && Live(c) && c.code.Unwinding? && c.code.b.Try?
      modifies this`frames, c`awaiter, c`env, c`code
      ensures Valid() && frames == old(frames)[c.id := Unwound(old(frames[c.id]))]
    {
      HandlesKnown(c);
      c.awaiter := null;
      c.env := c.env + [c.code.e];
      c.code := Run(c.code.b.handler);
      frames := frames[c.id := FrameOf(c)];
      Rewritten(c);
    }

    method Fail(c: Coro)
      requires Valid() && Live(c) && c.code.Unwinding? && !c.code.b.Try?
      modifies this`frames, c`awaiter, c`slot, c`code
      ensures Valid() && frames == old(frames)[c.id := Unwound(old(frames[c.id]))]
    {
      HandlesKnown(c);
      c.awaiter := null;
      c.slot := if c.isTask then Empty else Has(Exception(c.code.e));
      c.code := Final;
      frames := frames[c.id := FrameOf(c)];
      Rewritten(c);
    }

    /** ~ValueAwaiter, on the way to a handler or to unhandled_exception. */
    method Unwind(c: Coro)
      requires At(c) && c.code.Unwinding? && (c.awaiter != null ==> Live(c.awaiter))
      modifies this`frames, this`graves, c
      ensures Valid() && Now() == Step(old(Now())) && old(graves) <= graves
    {
      HandlesKnown(c);
      ghost var was := Now();
      UnwindStep(was, c.id);
      var child := c.awaiter;
      if c.code.b.Try? {
        Catch(c);
      } else {
        Fail(c);
      }
      if child != null {
        DestroyFrame(child);
      }
    }

    /** FinalAwaiter::await_suspend for a Lazy; a Task's frame goes by itself. */
    method FinalSuspend(c: Coro)
      requires At(c) && c.code == Final && (!c.isTask ==> c.continuation != null)
      modifies this`frames, this`graves, this`where, this`current
      ensures Valid() && Now() == Step(old(Now())) && old(graves) <= graves
    {
      HandlesKnown(c);
      if c.isTask {
        DestroyFrame(c);
        where := Over;
      } else {
        Transfer(c.continuation);
      }
    }

    /** A step that does not go wrong has its operands: the frames that it goes through are not destroyed. */
    lemma OperandsLive(c: Coro)
      requires Valid() && where == AtWork && current == c && Step(Now()).control != Stuck
      ensures At(c)
      ensures c.code.Taken? || c.code.Waiting? ==> Live(c.awaiter)
      ensures c.code.Waiting? ==> c.awaiter.slot.Has?
      ensures c.code.Unwinding? && c.awaiter != null ==> Live(c.awaiter)
      ensures c.code.Made? && c.code.b.Unused? && c.lazy != null ==> Live(c.lazy)
      ensures c.code == Final && !c.isTask ==> c.continuation != null
    {
      NotStuck(Now(), c.id);
      HandlesKnown(c);
    }

    /**
     * One step, which changes only frames that are not destroyed. The handles it follows are
     * not checked; it is enough that the machine does not get stuck.
     */
    method StepOnce()
      requires Valid() && Step(Now()).control != Stuck
      modifies this, Living()
      ensures Valid() && Now() == Step(old(Now())) && old(graves) <= graves
      ensures forall x :: x in Everything() ==> x in old(Everything()) || fresh(x)
    {
      match where {
        case Over =>
        case Asleep => where := AtWork;
        case AtWork => OperandsLive(current); StepIn(current);
      }
    }

    method StepIn(c: Coro)
      requires At(c) && Step(Now()).control != Stuck
      modifies this, Living()
      ensures Valid() && Now() == Step(old(Now())) && old(graves) <= graves
      ensures forall x :: x in Everything() ==> x in old(Everything()) || fresh(x)
    {
      OperandsLive(c);
      match c.code {
        case Run(b) => RunOn(c);
        case Made(b) => if b.Unused? { DropLazy(c); } else { CoAwait(c); }
        case Taken(_) => AwaitSuspend(c);
        case Waiting(_) => AwaitResume(c);
        case Unwinding(_, _) => Unwind(c);
        case Final => FinalSuspend(c);
      }
    }

    method RunOn(c: Coro)
      requires At(c) && c.code.Run?
      modifies this`all, this`frames, this`made, this`log, this`where, c
      ensures Valid() && Now() == Step(old(Now()))
      ensures forall x :: x in Everything() ==> x in old(Everything()) || fresh(x)
    {
      match c.code.b {
        case Return(_) => RunEnd(c);
        case Throw(_) => RunEnd(c);
        case Emit(_, _) => RunEmit(c);
        case Branch(_, _, _) => RunBranch(c);
        case Suspend(_) => RunSuspend(c);
        case _ => RunCall(c);
      }
    }
  }

  /**
   * A task is run to its end, being resumed each time its innermost frame is made ready. Its
   * effects are those of direct evaluation; every frame ever made has been destroyed exactly
   * once, and is as it was then.
   */
  method RunTask(b: Body) returns (log: seq<Val>, ghost r: Runtime)
    ensures log == Eval(b, []).log
    ensures r.Valid() && r.frames == map[] && Each(Ids(r.graves), 1, r.made)
    ensures forall g :: g in r.graves ==> FrameOf(g.c) == g.was
  {
    var q := new Runtime(b);
    ghost var n := Length(b);
    ghost var i := 0;
    while q.where != Over
      invariant i <= n && fresh(q) && q.Valid() && q.Now() == Iterate(Start(b), i)
      invariant forall x :: x in q.Everything() ==> fresh(x)
      decreases n - i
    {
      Advance(q, b, i);
      i := i + 1;
    }
    AllBuried(q, b, i);
    log, r := q.log, q;
  }

  lemma Length(b: Body) returns (n: nat)
    ensures Iterate(Start(b), n).control == Finished
  {
    n := TaskRuns(b);
  }

  lemma AllBuried(q: Runtime, b: Body, i: nat)
    requires q.Valid() && q.Now() == Iterate(Start(b), i) && q.where == Over
    ensures q.log == Eval(b, []).log && q.frames == map[] && Each(Ids(q.graves), 1, q.made)
    ensures forall g :: g in q.graves ==> FrameOf(g.c) == g.was
  {
    EndState(b, i);
  }

  /** The i-th step of a task. */
  method Advance(q: Runtime, ghost b: Body, ghost i: nat)
    requires q.Valid() && q.Now() == Iterate(Start(b), i)
    modifies q, q.Everything()
    ensures q.Valid() && q.Now() == Iterate(Start(b), i + 1)
    ensures forall x :: x in q.Everything() ==> x in old(q.Everything()) || fresh(x)
  {
    NextState(b, i);
    assert forall x :: x in q.Living() ==> x in q.Everything();
    q.StepOnce();
  }

  lemma NextState(b: Body, i: nat)
    ensures var s := Iterate(Start(b), i); Step(s) == Iterate(Start(b), i + 1) && Step(s).control != Stuck
  {
    var s := Iterate(Start(b), i);
    NoDanglingHandle(b, i + 1);
    Iterates(Start(b), i, 1);
    assert Iterate(s, 1) == Iterate(Step(s), 0);
  }

  lemma EndState(b: Body, i: nat)
    requires Iterate(Start(b), i).control == Finished
    ensures var s := Iterate(Start(b), i); s.log == Eval(b, []).log && s.frames == map[] && Each(s.destroyed, 1, s.made)
  {
    var n := TaskRuns(b);
    if i <= n {
      Iterates(Start(b), i, n - i);
      Monotone(Iterate(Start(b), i), n - i);
    } else {
      Iterates(Start(b), n, i - n);
      Monotone(Iterate(Start(b), n), i - n);
    }
  }

  // ----- single steps of the machine -----

  /** The frames when h has suspended in its await of a. */
  function Suspended(frames: map<Handle, Frame>, h: Handle, a: Handle): map<Handle, Frame>
    requires h in frames && a in frames && frames[h].code.Taken?
  {
    var f, g := frames[h], frames[a];
    frames[h := f.(code := Waiting(f.code.b))][a := g.(continuation := h, tcb := Tcb(f, h))]
  }

  lemma SuspendStep(s: State, h: Handle, a: Handle)
    requires s.control == Control.Running(h) && h in s.frames && s.frames[h].code.Taken?
    requires a == s.frames[h].awaiter && a in s.frames && a != h
    ensures Step(s) == s.(frames := Suspended(s.frames, h, a), control := Control.Running(a))
  {
  }

  lemma ResumeStep(s: State, h: Handle, a: Handle)
    requires s.control == Control.Running(h) && h in s.frames && s.frames[h].code.Waiting?
    requires a == s.frames[h].awaiter && a in s.frames && a != h && s.frames[a].slot.Has?
    ensures var f, o := s.frames[h], s.frames[a].slot.outcome;
      Step(s) == if o.Exception? then s.(frames := s.frames[h := f.(code := Unwinding(f.code.b, o.e))])
        else
          var f1 := f.(awaiter := NULL, env := f.env + [o.v], code := Run(Next(f.code.b)));
          Destroy(s.(frames := s.frames[h := f1]), a)
  {
  }

  function Called(frames: map<Handle, Frame>, h: Handle, c: Handle, b: Body, env: seq<Val>): map<Handle, Frame>
    requires h in frames && frames[h].code.Run?
  {
    frames[c := NewFrame(false, b, env)][h := frames[h].(lazy := c, code := Made(frames[h].code.b))]
  }

  predicate Calls(b: Body) {
    b.Unused? || b.Await? || b.Try?
  }

  predicate Ends(b: Body) {
    b.Return? || b.Throw?
  }

  lemma EndStep(s: State, h: Handle)
    requires s.control == Control.Running(h) && h in s.frames && s.frames[h].code.Run? && Ends(s.frames[h].code.b)
    ensures var f := s.frames[h];
      var o := if f.code.b.Return? then Value(f.code.b.f(f.env)) else Exception(f.code.b.f(f.env));
      Step(s) == s.(frames := s.frames[h := Finish(f, o)])
  {
  }

  lemma NotStuck(s: State, h: Handle)
    requires s.control == Control.Running(h) && Step(s).control != Stuck
    ensures h in s.frames
    ensures var f := s.frames[h];
      && (f.code.Taken? || f.code.Waiting? ==> f.awaiter in s.frames)
      && (f.code.Waiting? ==> s.frames[f.awaiter].slot.Has?)
      && (f.code.Unwinding? && f.awaiter != NULL ==> f.awaiter in s.frames)
      && (f.code.Made? && f.code.b.Unused? && f.lazy != NULL ==> f.lazy in s.frames)
      && (f.code == Final && !f.isTask ==> f.continuation != NULL)
  {
  }

  predicate Plain(b: Body) {
    b.Emit? || b.Branch? || b.Suspend?
  }

  lemma PlainStep(s: State, h: Handle)
    requires s.control == Control.Running(h) && h in s.frames && s.frames[h].code.Run? && Plain(s.frames[h].code.b)
    ensures var f := s.frames[h]; var b := f.code.b;
      var rest := if !b.Branch? then b.next else if b.test(f.env) then b.yes else b.no;
      Step(s) == s.(frames := s.frames[h := f.(code := Run(rest))],
                    log := if b.Emit? then s.log + [b.f(f.env)] else s.log,
                    control := if b.Suspend? then Parked(h) else s.control)
  {
  }

  lemma CallStep(s: State, h: Handle)
    requires s.control == Control.Running(h) && h in s.frames && s.frames[h].code.Run? && Calls(s.frames[h].code.b)
    requires h != s.made
    ensures var f := s.frames[h];
      Step(s) == match f.code.b
        case Unused(child, _) => CalledState(s, h, child, f.env)
        case Await(args, child, _) => CalledState(s, h, child, args(f.env))
        case Try(args, child, _, _) => CalledState(s, h, child, args(f.env))
  {
  }

  function CalledState(s: State, h: Handle, b: Body, env: seq<Val>): State
    requires h in s.frames && s.frames[h].code.Run?
  {
    s.(frames := Called(s.frames, h, s.made, b, env), made := s.made + 1)
  }

  /** A frame after the destructor of its ValueAwaiter. */
  function Unwound(f: Frame): Frame
    requires f.code.Unwinding?
  {
    var f1 := f.(awaiter := NULL);
    if f.code.b.Try? then f1.(env := f.env + [f.code.e], code := Run(f.code.b.handler))
    else Finish(f1, Exception(f.code.e))
  }

  lemma UnwindStep(s: State, h: Handle)
    requires s.control == Control.Running(h) && h in s.frames && s.frames[h].code.Unwinding?
    ensures var s1 := s.(frames := s.frames[h := Unwound(s.frames[h])]);
      Step(s) == if s.frames[h].awaiter != NULL then Destroy(s1, s.frames[h].awaiter) else s1
  {
  }
}
