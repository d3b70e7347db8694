/**
 * The waiters of one file descriptor, and how a pending event mask is shared among them.
 * A mask is the set of its bits: `a & b` is a * b, `a & ~b` is a - b and `a | b` is a + b.
 */
module FileWQ {
  type Mask = set<nat>

  datatype WaitItem = WaitItem(h: nat, events: Mask)

  /** A waiter that was woken, with the events handed to its callback. */
  datatype Delivery = Delivery(waiter: WaitItem, mask: Mask)

  /** The outcome of a dispatch: who was woken, who still waits, what is still pending. */
  datatype Outcome = Outcome(woken: seq<Delivery>, waiting: seq<WaitItem>, revents: Mask)

  /** Each waiter in turn takes the pending events that it asked for. */
  function Dispatch(items: seq<WaitItem>, r: Mask): Outcome {
    if items == [] || r == {} then
      Outcome([], items, r)
    else if r * items[0].events != {} then
      var o := Dispatch(items[1..], r - items[0].events);
      o.(woken := [Delivery(items[0], r * items[0].events)] + o.woken)
    else
      var o := Dispatch(items[1..], r);
      o.(waiting := [items[0]] + o.waiting)
  }

  /** The events of several deliveries together. */
  function Union(ds: seq<Delivery>): Mask {
    if ds == [] then {} else ds[0].mask + Union(ds[1..])
  }

  /** l is a and b shuffled, each in its own order. */
  ghost predicate Shuffle(l: seq<WaitItem>, a: seq<WaitItem>, b: seq<WaitItem>) {
    if l == [] then a == [] && b == []
    else
      || (a != [] && l[0] == a[0] && Shuffle(l[1..], a[1..], b))
      || (b != [] && l[0] == b[0] && Shuffle(l[1..], a, b[1..]))
  }

  function Waiters(ds: seq<Delivery>): seq<WaitItem> {
    seq(|ds|, k requires 0 <= k < |ds| => ds[k].waiter)
  }

  /**
   * The pending mask is split exactly: the delivered masks and the final mask make up the
   * initial one, and the final mask shares no event with any of them.
   */
  lemma {:induction false} MaskSplit(items: seq<WaitItem>, r: Mask)
    ensures var o := Dispatch(items, r);
      Union(o.woken) + o.revents == r && Union(o.woken) !! o.revents
  {
    if items != [] && r != {} {
      var e := items[0].events;
      if r * e != {} {
        MaskSplit(items[1..], r - e);
        assert Dispatch(items, r).woken[1..] == Dispatch(items[1..], r - e).woken;
      } else {
        MaskSplit(items[1..], r);
      }
    }
  }

  /** Each delivered mask is non-empty, is what its waiter asked for, and was pending. */
  lemma {:induction false} MasksFit(items: seq<WaitItem>, r: Mask, k: nat)
    requires k < |Dispatch(items, r).woken|
    ensures var d := Dispatch(items, r).woken[k];
      d.mask != {} && d.mask <= d.waiter.events && d.mask <= r
  {
    var e := items[0].events;
    if r * e == {} {
      MasksFit(items[1..], r, k);
    } else if k > 0 {
      MasksFit(items[1..], r - e, k - 1);
    }
  }

  /** No event is delivered twice. */
  lemma {:induction false} MasksDisjoint(items: seq<WaitItem>, r: Mask, j: nat, k: nat)
    requires j < k < |Dispatch(items, r).woken|
    ensures Dispatch(items, r).woken[j].mask !! Dispatch(items, r).woken[k].mask
  {
    var e := items[0].events;
    if r * e == {} {
      MasksDisjoint(items[1..], r, j, k);
    } else if j > 0 {
      MasksDisjoint(items[1..], r - e, j - 1, k - 1);
    } else {
      MasksFit(items[1..], r - e, k - 1);
    }
  }

  /** Whoever still waits asked for nothing that is still pending. */
  lemma {:induction false} NoMatchLeft(items: seq<WaitItem>, r: Mask, w: WaitItem)
    requires w in Dispatch(items, r).waiting
    ensures w.events !! Dispatch(items, r).revents
  {
    if items != [] && r != {} {
      var e := items[0].events;
      if r * e != {} {
        NoMatchLeft(items[1..], r - e, w);
      } else if w in Dispatch(items[1..], r).waiting {
        NoMatchLeft(items[1..], r, w);
      } else {
        MaskSplit(items[1..], r);
        var left := Dispatch(items[1..], r).revents;
        assert w.events == e && left <= r;
        assert e * left <= r * e;
        assert forall x :: x in e && x in left ==> x in r * e;
      }
    }
  }

  /** The woken and the waiting are the original list, each in its order. */
  lemma {:induction false} WaitersKept(items: seq<WaitItem>, r: Mask)
    ensures Shuffle(items, Waiters(Dispatch(items, r).woken), Dispatch(items, r).waiting)
  {
    var o := Dispatch(items, r);
    if items == [] || r == {} {
      AllWait(items);
    } else if r * items[0].events != {} {
      WaitersKept(items[1..], r - items[0].events);
      assert Waiters(o.woken)[1..] == Waiters(o.woken[1..]);
    } else {
      WaitersKept(items[1..], r);
      assert o.waiting[1..] == Dispatch(items[1..], r).waiting;
    }
  }

  lemma {:induction false} AllWait(items: seq<WaitItem>)
    ensures Shuffle(items, [], items)
  {
    if items != [] {
      AllWait(items[1..]);
    }
  }

  /** The outcome o after these deliveries, with these waiters passed over. */
  function Join(woken: seq<Delivery>, kept: seq<WaitItem>, o: Outcome): Outcome {
    Outcome(woken + o.woken, kept + o.waiting, o.revents)
  }

  lemma OneWaiter(woken: seq<Delivery>, kept: seq<WaitItem>, items: seq<WaitItem>, r: Mask)
    requires items != [] && r != {}
    ensures var item, rest := items[0], items[1..];
      Join(woken, kept, Dispatch(items, r)) ==
      if r * item.events != {}
      then Join(woken + [Delivery(item, r * item.events)], kept, Dispatch(rest, r - item.events))
      else Join(woken, kept + [item], Dispatch(rest, r))
  {
  }

  lemma NoneTaken(items: seq<WaitItem>, r: Mask)
    requires items == [] || r == {}
    ensures Dispatch(items, r) == Outcome([], items, r)
  {
  }

  class FileWQ {
    const fd_: int
    var revents_: Mask
    var items_: seq<WaitItem>

    constructor (fd: int)
      ensures fd_ == fd && revents_ == {} && items_ == []
    {
      fd_, revents_, items_ := fd, {}, [];
    }

    method AddREvents(revents: Mask)
      modifies this`revents_
      ensures revents_ == old(revents_) + revents
    {
      revents_ := revents_ + revents;
    }

    method SetREvents(revents: Mask)
      modifies this`revents_
      ensures revents_ == revents
    {
      revents_ := revents;
    }

    method AddWait(h: nat, events: Mask)
      modifies this`items_
      ensures items_ == old(items_) + [WaitItem(h, events)]
    {
      items_ := items_ + [WaitItem(h, events)];
    }

    /**
     * Walks the list, erasing each waiter that matches the pending mask. `woken` is what
     * the callbacks are given, in order.
     */
    method Wakeup() returns (woken: seq<Delivery>)
      modifies this
      ensures Outcome(woken, items_, revents_) == Dispatch(old(items_), old(revents_))
    {
      woken := [];
      var iter := 0;
      ghost var kept, rest := [], items_;
      while iter < |items_|
        invariant iter == |kept| && items_ == kept + rest
        invariant Dispatch(old(items_), old(revents_)) == Join(woken, kept, Dispatch(rest, revents_))
        decreases |rest|
      {
        var item := items_[iter];
        if revents_ == {} {
          break;
        }
        OneWaiter(woken, kept, rest, revents_);
        if revents_ * item.events != {} {
          woken := woken + [Delivery(item, revents_ * item.events)];
          revents_ := revents_ - item.events;
          items_ := items_[..iter] + items_[iter + 1..];
        } else {
          iter := iter + 1;
          kept := kept + [item];
        }
        rest := rest[1..];
      }
      NoneTaken(rest, revents_);
    }
  }

  /** A waiter behind the others that asks for nothing pending is not woken, and changes nothing for them. */
  lemma {:induction false} LastWaits(items: seq<WaitItem>, r: Mask, w: WaitItem)
    requires w.events !! r
    ensures var o := Dispatch(items, r); Dispatch(items + [w], r) == o.(waiting := o.waiting + [w])
  {
    if items == [] {
      assert (items + [w])[1..] == [];
      assert r * w.events == {};
    } else if r != {} {
      assert (items + [w])[0] == items[0] && (items + [w])[1..] == items[1..] + [w];
      LastWaits(items[1..], if r * items[0].events != {} then r - items[0].events else r, w);
    }
  }

  /**
   * FileAwaiter::await_suspend on the descriptor's own core: the attempt, which `blocks` or
   * not, then the clearing of what was pending before it, and the wait.
   */
  method AwaitHere(wq: FileWQ, h: nat, events: Mask, blocks: bool) returns (suspends: bool)
    modifies wq
    ensures suspends == blocks && wq.revents_ == old(wq.revents_) - events
    ensures wq.items_ == if blocks then old(wq.items_) + [WaitItem(h, events)] else old(wq.items_)
  {
    var revents := wq.revents_;
    wq.SetREvents(revents - events);
    if blocks {
      wq.AddWait(h, events);
    }
    suspends := blocks;
  }

  /**
   * The same in a function queued from another core, which wakes who can be woken. An
   * attempt that blocks leaves its waiter last in the list, and not woken; one that does not
   * makes it ready and nobody else.
   */
  method AwaitQueued(wq: FileWQ, h: nat, events: Mask, blocks: bool) returns (ready: seq<nat>)
    modifies wq
    ensures var r := old(wq.revents_) - events; var o := Dispatch(old(wq.items_), r);
      if blocks
      then wq.items_ == o.waiting + [WaitItem(h, events)] && wq.revents_ == o.revents && ready == Handles(o.woken)
      else wq.items_ == old(wq.items_) && wq.revents_ == r && ready == [h]
  {
    var revents := wq.revents_;
    wq.SetREvents(revents - events);
    if blocks {
      LastWaits(wq.items_, revents - events, WaitItem(h, events));
      wq.AddWait(h, events);
      var woken := wq.Wakeup();
      ready := Handles(woken);
    } else {
      ready := [h];
    }
  }

  /** One element of the array that epoll_wait fills in. */
  datatype Report = Report(wq: FileWQ, events: Mask)

  /** What a list of reports does to one wait queue. */
  function Reported(reports: seq<Report>, wq: FileWQ, items: seq<WaitItem>, r: Mask): Outcome {
    if reports == [] then Outcome([], items, r)
    else
      var last := reports[|reports| - 1];
      var o := Reported(reports[..|reports| - 1], wq, items, r);
      if last.wq != wq then o
      else
        var p := Dispatch(o.waiting, o.revents + last.events);
        p.(woken := o.woken + p.woken)
  }

  function Queues(reports: seq<Report>): set<FileWQ> {
    set i | 0 <= i < |reports| :: reports[i].wq
  }

  function Handles(ds: seq<Delivery>): seq<nat> {
    seq(|ds|, k requires 0 <= k < |ds| => ds[k].waiter.h)
  }

  /** A waiter's callback, run by the dispatch of its queue. */
  datatype Call = Call(wq: FileWQ, delivery: Delivery)

  function Tagged(wq: FileWQ, ds: seq<Delivery>): seq<Call> {
    seq(|ds|, k requires 0 <= k < |ds| => Call(wq, ds[k]))
  }

  /** What one queue's waiters are given, in order. */
  function Of(calls: seq<Call>, wq: FileWQ): seq<Delivery> {
    if calls == [] then []
    else
      var last := calls[|calls| - 1];
      Of(calls[..|calls| - 1], wq) + if last.wq == wq then [last.delivery] else []
  }

  function HandlesOf(calls: seq<Call>): seq<nat> {
    seq(|calls|, k requires 0 <= k < |calls| => calls[k].delivery.waiter.h)
  }

  /** What a list of reports does to the waiters of all queues, in order, from the given lists and masks. */
  function Calls(reports: seq<Report>, items: map<FileWQ, seq<WaitItem>>, masks: map<FileWQ, Mask>): seq<Call>
    requires Queues(reports) <= items.Keys && Queues(reports) <= masks.Keys
  {
    if reports == [] then []
    else
      var before, last := reports[..|reports| - 1], reports[|reports| - 1];
      assert Queues(before) <= Queues(reports) && last.wq in Queues(reports);
      var o := Reported(before, last.wq, items[last.wq], masks[last.wq]);
      Calls(before, items, masks) + Tagged(last.wq, Dispatch(o.waiting, o.revents + last.events).woken)
  }

  lemma TaggedSnoc(calls: seq<Call>, from: FileWQ, ds: seq<Delivery>)
    requires ds != []
    ensures var all := calls + Tagged(from, ds);
      && all != [] && all[|all| - 1] == Call(from, ds[|ds| - 1])
      && all[..|all| - 1] == calls + Tagged(from, ds[..|ds| - 1])
  {
  }

  lemma {:induction false} OfTagged(calls: seq<Call>, from: FileWQ, ds: seq<Delivery>, wq: FileWQ)
    ensures Of(calls + Tagged(from, ds), wq) == Of(calls, wq) + if from == wq then ds else []
  {
    var all := calls + Tagged(from, ds);
    if ds == [] {
      assert all == calls;
    } else {
      var rest := ds[..|ds| - 1];
      OfTagged(calls, from, rest, wq);
      TaggedSnoc(calls, from, ds);
      assert ds == rest + [ds[|ds| - 1]];
    }
  }

  /** The calls of one queue are those of its own reports, in order. */
  lemma {:induction false} CallsOfQueue(
      reports: seq<Report>, items: map<FileWQ, seq<WaitItem>>, masks: map<FileWQ, Mask>, wq: FileWQ)
    requires Queues(reports) <= items.Keys && Queues(reports) <= masks.Keys && wq in items && wq in masks
    ensures Of(Calls(reports, items, masks), wq) == Reported(reports, wq, items[wq], masks[wq]).woken
  {
    if reports != [] {
      var before, last := reports[..|reports| - 1], reports[|reports| - 1];
      assert Queues(before) <= Queues(reports) && last.wq in Queues(reports);
      CallsOfQueue(before, items, masks, wq);
      var o := Reported(before, last.wq, items[last.wq], masks[last.wq]);
      OfTagged(Calls(before, items, masks), last.wq, Dispatch(o.waiting, o.revents + last.events).woken, wq);
    }
  }

  /** The events that are reported for one queue. */
  function Events(reports: seq<Report>, wq: FileWQ): Mask {
    if reports == [] then {}
    else
      var last := reports[|reports| - 1];
      Events(reports[..|reports| - 1], wq) + if last.wq == wq then last.events else {}
  }

  lemma {:induction false} ShuffleSplits(l: seq<WaitItem>, a: seq<WaitItem>, b: seq<WaitItem>)
    requires Shuffle(l, a, b)
    ensures multiset(l) == multiset(a) + multiset(b)
  {
    if l != [] {
      assert l == [l[0]] + l[1..];
      if a != [] && l[0] == a[0] && Shuffle(l[1..], a[1..], b) {
        assert a == [a[0]] + a[1..];
        ShuffleSplits(l[1..], a[1..], b);
      } else {
        assert b == [b[0]] + b[1..];
        ShuffleSplits(l[1..], a, b[1..]);
      }
    }
  }

  /** From the waiters `items` to `waiting`, each has been woken once by the deliveries or still waits. */
  ghost predicate WaitersSplit(items: seq<WaitItem>, ds: seq<Delivery>, waiting: seq<WaitItem>) {
    multiset(items) == multiset(Waiters(ds)) + multiset(waiting)
  }

  /** Whoever still waits asked for nothing that is still pending. */
  ghost predicate NoneMatch(waiting: seq<WaitItem>, r: Mask) {
    forall w :: w in waiting ==> w.events !! r
  }

  /** Each delivery is of some of what its waiter asked for, and that was pending. */
  ghost predicate AllFit(ds: seq<Delivery>, r: Mask) {
    forall k :: 0 <= k < |ds| ==> ds[k].mask != {} && ds[k].mask <= ds[k].waiter.events && ds[k].mask <= r
  }

  /** The pending mask goes from r to left by these reported events and deliveries. */
  ghost predicate MaskKept(r: Mask, events: Mask, ds: seq<Delivery>, left: Mask) {
    left + Union(ds) == r + events
  }

  lemma {:induction false} UnionJoins(a: seq<Delivery>, b: seq<Delivery>)
    ensures Union(a + b) == Union(a) + Union(b)
  {
    if a == [] {
      assert a + b == b;
    } else {
      assert (a + b)[1..] == a[1..] + b;
      UnionJoins(a[1..], b);
    }
  }

  /** Over any number of reports every event is delivered or still pending, and none comes from nowhere. */
  lemma {:induction false} ReportsKeepMask(reports: seq<Report>, wq: FileWQ, items: seq<WaitItem>, r: Mask)
    ensures var o := Reported(reports, wq, items, r);
      MaskKept(r, Events(reports, wq), o.woken, o.revents) && AllFit(o.woken, r + Events(reports, wq))
  {
    if reports != [] {
      var before, last := reports[..|reports| - 1], reports[|reports| - 1];
      ReportsKeepMask(before, wq, items, r);
      if last.wq == wq {
        var o := Reported(before, wq, items, r);
        var p := Dispatch(o.waiting, o.revents + last.events);
        MaskSplit(o.waiting, o.revents + last.events);
        UnionJoins(o.woken, p.woken);
        forall k | 0 <= k < |p.woken|
          ensures var d := p.woken[k];
            d.mask != {} && d.mask <= d.waiter.events && d.mask <= r + Events(reports, wq)
        {
          MasksFit(o.waiting, o.revents + last.events, k);
        }
      }
    }
  }

  /** A queue that is reported once has pending what was pending and reported, less what was delivered. */
  lemma {:induction false} OnceReported(reports: seq<Report>, i: nat, wq: FileWQ, items: seq<WaitItem>, r: Mask)
    requires i < |reports| && forall k :: 0 <= k < |reports| ==> (reports[k].wq == wq <==> k == i)
    ensures var o := Reported(reports, wq, items, r);
      Events(reports, wq) == reports[i].events && Union(o.woken) !! o.revents
  {
    var before := reports[..|reports| - 1];
    if i == |reports| - 1 {
      NotReported(before, wq, items, r);
      MaskSplit(items, r + reports[i].events);
      assert [] + Dispatch(items, r + reports[i].events).woken == Dispatch(items, r + reports[i].events).woken;
    } else {
      OnceReported(before, i, wq, items, r);
    }
  }

  lemma {:induction false} NotReported(reports: seq<Report>, wq: FileWQ, items: seq<WaitItem>, r: Mask)
    requires forall k :: 0 <= k < |reports| ==> reports[k].wq != wq
    ensures Reported(reports, wq, items, r) == Outcome([], items, r) && Events(reports, wq) == {}
  {
    if reports != [] {
      NotReported(reports[..|reports| - 1], wq, items, r);
    }
  }

  /**
   * Over any number of reports no waiter is lost or woken twice, and once its descriptor
   * has been reported, whoever still waits asked for nothing that is still pending.
   */
  lemma {:induction false} ReportsKeepWaiters(reports: seq<Report>, wq: FileWQ, items: seq<WaitItem>, r: Mask)
    ensures var o := Reported(reports, wq, items, r);
      && WaitersSplit(items, o.woken, o.waiting)
      && (wq in Queues(reports) ==> NoneMatch(o.waiting, o.revents))
  {
    if reports != [] {
      var before, last := reports[..|reports| - 1], reports[|reports| - 1];
      ReportsKeepWaiters(before, wq, items, r);
      assert wq in Queues(reports) && last.wq != wq ==> wq in Queues(before);
      if last.wq == wq {
        var o := Reported(before, wq, items, r);
        var p := Dispatch(o.waiting, o.revents + last.events);
        WaitersKept(o.waiting, o.revents + last.events);
        ShuffleSplits(o.waiting, Waiters(p.woken), p.waiting);
        assert Waiters(o.woken + p.woken) == Waiters(o.woken) + Waiters(p.woken);
        forall w | w in p.waiting
          ensures w.events !! p.revents
        {
          NoMatchLeft(o.waiting, o.revents + last.events, w);
        }
      }
    }
  }

  lemma CallsNext(reports: seq<Report>, i: nat, items: map<FileWQ, seq<WaitItem>>, masks: map<FileWQ, Mask>)
    requires i < |reports| && Queues(reports) <= items.Keys && Queues(reports) <= masks.Keys
    ensures Queues(reports[..i]) <= Queues(reports) && Queues(reports[..i + 1]) <= Queues(reports)
    ensures reports[i].wq in Queues(reports)
    ensures var wq := reports[i].wq; var o := Reported(reports[..i], wq, items[wq], masks[wq]);
      Calls(reports[..i + 1], items, masks)
      == Calls(reports[..i], items, masks) + Tagged(wq, Dispatch(o.waiting, o.revents + reports[i].events).woken)
  {
    assert reports[..i + 1][..i] == reports[..i];
  }

  ghost function Lists(queues: set<FileWQ>): (m: map<FileWQ, seq<WaitItem>>)
    reads queues
  {
    map wq | wq in queues :: wq.items_
  }

  ghost function Masks(queues: set<FileWQ>): (m: map<FileWQ, Mask>)
    reads queues
  {
    map wq | wq in queues :: wq.revents_
  }

  /** The wait queues are as these reports leave them. */
  ghost predicate Tracks(
      queues: set<FileWQ>, reports: seq<Report>, items: map<FileWQ, seq<WaitItem>>, masks: map<FileWQ, Mask>)
    requires queues <= items.Keys && queues <= masks.Keys
    reads queues
  {
    forall wq :: wq in queues ==>
      && wq.items_ == Reported(reports, wq, items[wq], masks[wq]).waiting
      && wq.revents_ == Reported(reports, wq, items[wq], masks[wq]).revents
  }

  /**
   * A queue with the waiters `items` and the mask r, for which these events are reported, is
   * left with `waiting` and `left` by the deliveries ds.
   */
  ghost predicate Shared(
      items: seq<WaitItem>, r: Mask, events: Mask, ds: seq<Delivery>, waiting: seq<WaitItem>, left: Mask) {
    && WaitersSplit(items, ds, waiting) && NoneMatch(waiting, left)
    && MaskKept(r, events, ds, left) && AllFit(ds, r + events)
  }

  lemma DispatchShares(items: seq<WaitItem>, r: Mask, events: Mask)
    ensures var o := Dispatch(items, r + events);
      Shared(items, r, events, o.woken, o.waiting, o.revents) && Union(o.woken) !! o.revents
  {
    var o := Dispatch(items, r + events);
    WaitersKept(items, r + events);
    ShuffleSplits(items, Waiters(o.woken), o.waiting);
    MaskSplit(items, r + events);
    forall w | w in o.waiting ensures w.events !! o.revents {
      NoMatchLeft(items, r + events, w);
    }
    forall k | 0 <= k < |o.woken|
      ensures var d := o.woken[k]; d.mask != {} && d.mask <= d.waiter.events && d.mask <= r + events
    {
      MasksFit(items, r + events, k);
    }
  }

  /**
   * Lines 37 to 39: one report is added to its queue's mask and dispatched. Each waiter is
   * woken once or still waits, no one who waits matches what is still pending, and that is
   * what was pending and reported, less what has been delivered.
   */
  method HandleReport(report: Report) returns (ds: seq<Delivery>)
    modifies report.wq
    ensures Outcome(ds, report.wq.items_, report.wq.revents_)
      == Dispatch(old(report.wq.items_), old(report.wq.revents_) + report.events)
    ensures Shared(old(report.wq.items_), old(report.wq.revents_), report.events,
                   ds, report.wq.items_, report.wq.revents_)
    ensures report.wq.revents_ == old(report.wq.revents_) + report.events - Union(ds)
  {
    DispatchShares(report.wq.items_, report.wq.revents_, report.events);
    report.wq.AddREvents(report.events);
    ds := report.wq.Wakeup();
  }

  /** One turn of the loop: the queues are then as this report and those before it leave them. */
  method HandleNext(reports: seq<Report>, i: nat, ghost queues: set<FileWQ>,
                    ghost items: map<FileWQ, seq<WaitItem>>, ghost masks: map<FileWQ, Mask>)
    returns (ds: seq<Delivery>)
    requires queues <= items.Keys && queues <= masks.Keys && i < |reports| && reports[i].wq in queues
    requires Tracks(queues, reports[..i], items, masks)
    modifies reports[i].wq
    ensures Tracks(queues, reports[..i + 1], items, masks)
    ensures var o := Reported(reports[..i], reports[i].wq, items[reports[i].wq], masks[reports[i].wq]);
      ds == Dispatch(o.waiting, o.revents + reports[i].events).woken
  {
    assert reports[..i + 1][..i] == reports[..i];
    ds := HandleReport(reports[i]);
  }

  /** What the reports mean for one queue, of which `items` and r are the list and the mask before them. */
  ghost predicate Dispatched(reports: seq<Report>, calls: seq<Call>, wq: FileWQ, items: seq<WaitItem>, r: Mask)
    reads wq
  {
    && Shared(items, r, Events(reports, wq), Of(calls, wq), wq.items_, wq.revents_)
    && forall i :: 0 <= i < |reports| && (forall k :: 0 <= k < |reports| ==> (reports[k].wq == wq <==> k == i)) ==>
         wq.revents_ == r + reports[i].events - Union(Of(calls, wq))
  }

  lemma DispatchedHolds(
      reports: seq<Report>, queues: set<FileWQ>, items: map<FileWQ, seq<WaitItem>>, masks: map<FileWQ, Mask>,
      wq: FileWQ)
    requires queues == Queues(reports) && queues <= items.Keys && queues <= masks.Keys && wq in queues
    requires Tracks(queues, reports, items, masks)
    ensures Dispatched(reports, Calls(reports, items, masks), wq, items[wq], masks[wq])
  {
    CallsOfQueue(reports, items, masks, wq);
    ReportsKeepWaiters(reports, wq, items[wq], masks[wq]);
    ReportsKeepMask(reports, wq, items[wq], masks[wq]);
    forall i | 0 <= i < |reports| && forall k :: 0 <= k < |reports| ==> (reports[k].wq == wq <==> k == i)
      ensures wq.revents_ == masks[wq] + reports[i].events - Union(Of(Calls(reports, items, masks), wq))
    {
      OnceReported(reports, i, wq, items[wq], masks[wq]);
    }
  }

  lemma AllDispatched(
      reports: seq<Report>, queues: set<FileWQ>, items: map<FileWQ, seq<WaitItem>>, masks: map<FileWQ, Mask>)
    requires queues == Queues(reports) && queues <= items.Keys && queues <= masks.Keys
    requires Tracks(queues, reports, items, masks)
    ensures forall wq :: wq in queues ==>
      Dispatched(reports, Calls(reports, items, masks), wq, items[wq], masks[wq])
  {
    forall wq | wq in queues
      ensures Dispatched(reports, Calls(reports, items, masks), wq, items[wq], masks[wq])
    {
      DispatchedHolds(reports, queues, items, masks, wq);
    }
  }

  lemma HandlesJoin(calls: seq<Call>, wq: FileWQ, ds: seq<Delivery>)
    ensures HandlesOf(calls + Tagged(wq, ds)) == HandlesOf(calls) + Handles(ds)
  {
  }

  /** Only the queues reported are called. */
  lemma {:induction false} CallsReported(
      reports: seq<Report>, items: map<FileWQ, seq<WaitItem>>, masks: map<FileWQ, Mask>)
    requires Queues(reports) <= items.Keys && Queues(reports) <= masks.Keys
    ensures forall k :: 0 <= k < |Calls(reports, items, masks)| ==>
      Calls(reports, items, masks)[k].wq in Queues(reports)
  {
    if reports != [] {
      var before, last := reports[..|reports| - 1], reports[|reports| - 1];
      assert Queues(before) <= Queues(reports) && last.wq in Queues(reports);
      CallsReported(before, items, masks);
    }
  }

  /**
   * The dispatch loop of FDICU::waitIRQ over what epoll_wait returned. `calls` is what the
   * callbacks are given and `woken` the handles made ready, in order. On every queue each
   * waiter is woken once or still waits, and each event is delivered or still pending.
   */
  method WaitIRQ(reports: seq<Report>) returns (calls: seq<Call>, woken: seq<nat>)
    modifies Queues(reports)
    ensures woken == HandlesOf(calls) && forall k :: 0 <= k < |calls| ==> calls[k].wq in Queues(reports)
    ensures forall wq :: wq in Queues(reports) ==>
      Dispatched(reports, calls, wq, old(wq.items_), old(wq.revents_))
    ensures calls == Calls(reports, old(Lists(Queues(reports))), old(Masks(Queues(reports))))
  {
    ghost var queues := Queues(reports);
    ghost var items, masks := Lists(queues), Masks(queues);
    calls, woken := [], [];
    var i := 0;
    while i < |reports|
      invariant i <= |reports| && Queues(reports[..i]) <= queues
      invariant Tracks(queues, reports[..i], items, masks)
      invariant woken == HandlesOf(calls)
      invariant calls == Calls(reports[..i], items, masks)
    {
      CallsNext(reports, i, items, masks);
      var ds := HandleNext(reports, i, queues, items, masks);
      HandlesJoin(calls, reports[i].wq, ds);
      calls, woken := calls + Tagged(reports[i].wq, ds), woken + Handles(ds);
      i := i + 1;
    }
    assert reports[..|reports|] == reports;
    AllDispatched(reports, queues, items, masks);
    CallsReported(reports, items, masks);
  }
}
