/**
 * The sleepers of one core: a list sorted by deadline that drives a one-shot timer.
 * Times are nanoseconds of the steady clock, and each reading of it is a parameter.
 */
module TimeWQ {
  import opened Options

  datatype WaitItem = WaitItem(h: nat, when: int)

  /** A sleeper with its place in the order of insertion. */
  datatype Entry = Entry(item: WaitItem, stamp: nat)

  const MICRO := 1_000
  const SECOND := 1_000_000_000
  const FLOOR := 100_000               // 100 microseconds

  /** Division of an integer that truncates toward zero. */
  function Trunc(x: int, d: int): int
    requires d > 0
  {
    if x >= 0 then x / d else -(-x / d)
  }

  /** When a timer set at `now` for `expiration` goes off. */
  function Deadline(now: int, expiration: int): (t: int)
    ensures now + FLOOR <= t
    ensures expiration - now >= FLOOR ==> expiration - MICRO < t <= expiration
    ensures expiration - now < FLOOR ==> t == now + FLOOR
  {
    var micros := Trunc(expiration - now, MICRO);
    now + MICRO * (if micros < 100 then 100 else micros)
  }

  predicate Before(a: Entry, b: Entry) {
    a.item.when < b.item.when || (a.item.when == b.item.when && a.stamp < b.stamp)
  }

  /** In the order of deadline, then of insertion. */
  ghost predicate Sorted(l: seq<Entry>) {
    forall i, j :: 0 <= i < j < |l| ==> Before(l[i], l[j])
  }

  ghost predicate Stamped(l: seq<Entry>, count: nat) {
    forall k :: 0 <= k < |l| ==> l[k].stamp < count
  }

  /** How many sleepers are due: the length of the prefix not later than now. */
  function Due(l: seq<Entry>, now: int): (n: nat)
    ensures n <= |l|
    ensures forall k :: 0 <= k < n ==> l[k].item.when <= now
    ensures n < |l| ==> l[n].item.when > now
  {
    if l == [] || l[0].item.when > now then 0 else 1 + Due(l[1..], now)
  }

  /** e goes in front of the first sleeper with a later deadline. */
  function Insert(l: seq<Entry>, e: Entry): seq<Entry> {
    var p := Due(l, e.item.when);
    l[..p] + [e] + l[p..]
  }

  lemma InsertSorted(l: seq<Entry>, e: Entry)
    requires Sorted(l) && Stamped(l, e.stamp)
    ensures Sorted(Insert(l, e)) && Stamped(Insert(l, e), e.stamp + 1)
    ensures multiset(Insert(l, e)) == multiset(l) + multiset{e}
  {
    var p := Due(l, e.item.when);
    assert l == l[..p] + l[p..];
    DueExact(l, e.item.when);
    SplicedSorted(l, p, e);
  }

  lemma SplicedSorted(l: seq<Entry>, p: nat, e: Entry)
    requires Sorted(l) && Stamped(l, e.stamp) && p <= |l|
    requires forall k :: 0 <= k < |l| ==> (l[k].item.when <= e.item.when <==> k < p)
    ensures Sorted(l[..p] + [e] + l[p..]) && Stamped(l[..p] + [e] + l[p..], e.stamp + 1)
  {
    var m := l[..p] + [e] + l[p..];
    forall k | 0 <= k < |m|
      ensures m[k] == if k < p then l[k] else if k == p then e else l[k - 1]
    {
    }
  }

  /** In a sorted list the due sleepers are exactly the first ones. */
  lemma DueExact(l: seq<Entry>, now: int)
    requires Sorted(l)
    ensures forall k :: 0 <= k < |l| ==> (l[k].item.when <= now <==> k < Due(l, now))
  {
    var n := Due(l, now);
    forall k | n <= k < |l|
      ensures l[k].item.when > now
    {
      assert k > n ==> Before(l[n], l[k]);
    }
  }

  /** The one-shot timer after it may have gone off. */
  function Unexpired(armed: Option<int>, now: int): Option<int> {
    if armed.Some? && armed.value <= now then None else armed
  }

  class TimeWQ {
    var items_: seq<WaitItem>
    var armed: Option<int>             // the state of the timer: when it goes off

    ghost var entries: seq<Entry>
    ghost var count: nat               // insertions so far

    ghost predicate Valid()
      reads this
    {
      && |entries| == |items_|
      && (forall k :: 0 <= k < |items_| ==> entries[k].item == items_[k])
      && Sorted(entries) && Stamped(entries, count)
    }

    constructor ()
      ensures Valid() && entries == [] && count == 0 && armed == None
    {
      items_, armed, entries, count := [], None, [], 0;
    }

    /** Arms the timer for `expiration`, in seconds and nanoseconds from `now`. */
    method ResetTimerfd(expiration: int, now: int)
      modifies this`armed
      ensures armed == Some(Deadline(now, expiration))
    {
      var microSeconds := Trunc(expiration - now, MICRO);
      if microSeconds < 100 {
        microSeconds := 100;
      }
      var tv_sec := microSeconds / 1_000_000;
      var tv_nsec := microSeconds % 1_000_000 * 1_000;
      armed := Some(now + tv_sec * SECOND + tv_nsec);
    }

    /** Adds a sleeper; the timer is re-armed if it becomes the first. */
    method AddWait(h: nat, when: int, now: int)
      requires Valid()
      modifies this
      ensures Valid() && count == old(count) + 1
      ensures entries == Insert(old(entries), Entry(WaitItem(h, when), old(count)))
      ensures armed == if old(items_) == [] || old(items_)[0].when > when then Some(Deadline(now, when)) else old(armed)
    {
      ghost var e := Entry(WaitItem(h, when), count);
      InsertSorted(entries, e);
      var iter := 0;
      while iter < |items_|
        invariant iter <= |items_|
        invariant forall k :: 0 <= k < iter ==> items_[k].when <= when
      {
        if items_[iter].when > when {
          break;
        }
        iter := iter + 1;
      }
      DueExact(entries, when);
      assert iter == Due(entries, when);
      if iter == 0 {
        ResetTimerfd(when, now);
      }
      items_ := items_[..iter] + [WaitItem(h, when)] + items_[iter..];
      entries := Insert(entries, e);
      count := count + 1;
    }

    /** A timer that has gone off is read, and is not armed any more. */
    method ReadTimerfd(now: int)
      modifies this`armed
      ensures armed == Unexpired(old(armed), now)
    {
      if armed.Some? && armed.value <= now {
        armed := None;
      }
    }

    /**
     * Wakes the sleepers due at `now` and arms the timer for the first that is not, from
     * the clock reading `later`.
     */
    method Wakeup(now: int, later: int) returns (woken: seq<nat>)
      requires Valid()
      modifies this`items_, this`entries, this`armed
      ensures Valid() && |woken| == Due(old(entries), now)
      ensures entries == old(entries)[|woken|..]
      ensures forall k :: 0 <= k < |woken| ==> woken[k] == old(items_)[k].h
      ensures armed == if items_ == [] then Unexpired(old(armed), now) else Some(Deadline(later, items_[0].when))
    {
      ReadTimerfd(now);
      woken := [];
      while items_ != []
        invariant entries == old(entries) && |woken| <= |entries| && items_ == old(items_)[|woken|..]
        invariant forall k :: 0 <= k < |woken| ==> woken[k] == old(items_)[k].h && old(items_)[k].when <= now
        invariant armed == Unexpired(old(armed), now)
        decreases |items_|
      {
        if items_[0].when > now {
          ResetTimerfd(items_[0].when, later);
          break;
        }
        woken := woken + [items_[0].h];
        items_ := items_[1..];
      }
      DueExact(entries, now);
      assert |woken| < |entries| ==> entries[|woken|].item == items_[0];
      entries := entries[|woken|..];
    }

    /** The destructor wakes every sleeper. */
    method Close() returns (woken: seq<nat>)
      requires Valid()
      modifies this`items_, this`entries
      ensures Valid() && items_ == []
      ensures |woken| == |old(items_)| && forall k :: 0 <= k < |woken| ==> woken[k] == old(items_)[k].h
    {
      woken := [];
      while |woken| < |items_|
        invariant |woken| <= |items_|
        invariant forall k :: 0 <= k < |woken| ==> woken[k] == items_[k].h
      {
        woken := woken + [items_[|woken|].h];
      }
      items_, entries := [], [];
    }
  }

  // ----- whole runs, under any monotone clock -----

  datatype Wake = Wake(entry: Entry, at: int)

  datatype Clock = Clock(now: int, entries: seq<Entry>, armed: Option<int>, added: seq<Entry>, woken: seq<Wake>)

  /** A sleeper is added, time passes, or the list is woken; the timer is then set `lag` later. */
  datatype Event = Add(h: nat, when: int) | Pass(span: nat) | Wakeup(lag: nat)

  function Start(now: int): Clock {
    Clock(now, [], None, [], [])
  }

  /** What an event does to the list and the timer. A wake-up may come at any instant, late or early. */
  function After(c: Clock, e: Event): Clock {
    match e
    case Add(h, when) =>
      var entry := Entry(WaitItem(h, when), |c.added|);
      c.(entries := Insert(c.entries, entry), added := c.added + [entry],
         armed := if First(c, when) then Some(Deadline(c.now, when)) else c.armed)
    case Pass(span) =>
      c.(now := c.now + span)
    case Wakeup(lag) =>
      var n, later := Due(c.entries, c.now), c.now + lag;
      c.(now := later, entries := c.entries[n..], woken := c.woken + Wakes(c.entries[..n], c.now),
         armed := if n == |c.entries| then Unexpired(c.armed, c.now) else Some(Deadline(later, c.entries[n].item.when)))
  }

  /** A sleeper for `when` would become the first. */
  predicate First(c: Clock, when: int) {
    c.entries == [] || c.entries[0].item.when > when
  }

  function Wakes(l: seq<Entry>, at: int): seq<Wake> {
    seq(|l|, k requires 0 <= k < |l| => Wake(l[k], at))
  }

  ghost predicate Run(clocks: seq<Clock>, events: seq<Event>) {
    && |clocks| == |events| + 1
    && clocks[0] == Start(clocks[0].now)
    && forall i :: 0 <= i < |events| ==> clocks[i + 1] == After(clocks[i], events[i])
  }

  ghost predicate Inv(c: Clock) {
    && Sorted(c.entries) && Stamped(c.entries, |c.added|)
    && multiset(c.added) == multiset(WokenEntries(c.woken)) + multiset(c.entries)
    && (forall k :: 0 <= k < |c.woken| ==> c.woken[k].entry.item.when <= c.woken[k].at)
    && (forall k :: 0 <= k < |c.added| ==> c.added[k].stamp == k)
    && (c.entries != [] ==> c.armed.Some?)
  }

  function WokenEntries(woken: seq<Wake>): seq<Entry> {
    seq(|woken|, k requires 0 <= k < |woken| => woken[k].entry)
  }

  lemma EventKeeps(c: Clock, e: Event)
    requires Inv(c)
    ensures Inv(After(c, e))
  {
    match e
    case Add(h, when) => AddKeeps(c, h, when);
    case Pass(_) =>
    case Wakeup(lag) => WakeupKeeps(c, lag);
  }

  lemma AddKeeps(c: Clock, h: nat, when: int)
    requires Inv(c)
    ensures Inv(After(c, Add(h, when)))
  {
    InsertSorted(c.entries, Entry(WaitItem(h, when), |c.added|));
  }

  lemma WakeupKeeps(c: Clock, lag: nat)
    requires Inv(c)
    ensures Inv(After(c, Wakeup(lag)))
  {
    var n, c' := Due(c.entries, c.now), After(c, Wakeup(lag));
    WakesSplit(c.woken, c.entries, n, c.now);
    assert Sorted(c'.entries) && Stamped(c'.entries, |c'.added|);
    forall k | 0 <= k < |c'.woken|
      ensures c'.woken[k].entry.item.when <= c'.woken[k].at
    {
      if k >= |c.woken| {
        assert c'.woken[k] == Wake(c.entries[k - |c.woken|], c.now);
      }
    }
  }

  lemma WakesSplit(woken: seq<Wake>, l: seq<Entry>, n: nat, at: int)
    requires n <= |l|
    ensures multiset(WokenEntries(woken + Wakes(l[..n], at))) + multiset(l[n..])
         == multiset(WokenEntries(woken)) + multiset(l)
  {
    assert WokenEntries(woken + Wakes(l[..n], at)) == WokenEntries(woken) + l[..n];
    assert l == l[..n] + l[n..];
  }

  lemma {:induction false} RunInv(clocks: seq<Clock>, events: seq<Event>, i: nat)
    requires Run(clocks, events) && i < |clocks|
    ensures Inv(clocks[i])
  {
    if i > 0 {
      RunInv(clocks, events, i - 1);
      EventKeeps(clocks[i - 1], events[i - 1]);
    } else {
      assert WokenEntries(clocks[0].woken) == [];
    }
  }

  /**
   * A stable priority queue, whenever it is woken. At every instant the list is in
   * (deadline, insertion) order, what was added is what was woken and what is pending, no
   * one was woken early, and a non-empty list has its timer set.
   */
  lemma StablePriorityQueue(clocks: seq<Clock>, events: seq<Event>, i: nat)
    requires Run(clocks, events) && i < |clocks|
    ensures Sorted(clocks[i].entries)
    ensures multiset(clocks[i].added) == multiset(WokenEntries(clocks[i].woken)) + multiset(clocks[i].entries)
    ensures forall k :: 0 <= k < |clocks[i].woken| ==> clocks[i].woken[k].entry.item.when <= clocks[i].woken[k].at
    ensures clocks[i].entries != [] ==> clocks[i].armed.Some?
  {
    RunInv(clocks, events, i);
  }

  /** Each wake-up wakes exactly the sleepers that are due, in (deadline, insertion) order. */
  lemma WakeupTakesTheDue(clocks: seq<Clock>, events: seq<Event>, i: nat, e: Entry)
    requires Run(clocks, events) && i < |events| && events[i].Wakeup?
    ensures clocks[i].woken <= clocks[i + 1].woken
    ensures var fired := WokenEntries(clocks[i + 1].woken[|clocks[i].woken|..]);
      && Sorted(fired)
      && (e in fired <==> e in clocks[i].entries && e.item.when <= clocks[i].now)
      && (e in clocks[i + 1].entries <==> e in clocks[i].entries && e.item.when > clocks[i].now)
  {
    RunInv(clocks, events, i);
    var c := clocks[i];
    assert clocks[i + 1] == After(c, events[i]);
    DueExact(c.entries, c.now);
    var n := Due(c.entries, c.now);
    var fired := WokenEntries(clocks[i + 1].woken[|c.woken|..]);
    assert fired == c.entries[..n];
    assert c.entries == c.entries[..n] + c.entries[n..];
  }

  // ----- the class follows these runs -----

  function Handles(l: seq<Entry>): seq<nat> {
    seq(|l|, k requires 0 <= k < |l| => l[k].item.h)
  }

  ghost predicate Follows(q: TimeWQ, now: int, c: Clock)
    reads q
  {
    q.Valid() && q.entries == c.entries && q.count == |c.added| && q.armed == c.armed && now == c.now
  }

  method Perform(q: TimeWQ, e: Event, now: int, ghost c: Clock) returns (woken: seq<nat>, later: int)
    requires Follows(q, now, c)
    modifies q
    ensures Follows(q, later, After(c, e))
    ensures Handles(WokenEntries(After(c, e).woken)) == Handles(WokenEntries(c.woken)) + woken
  {
    woken, later := [], now;
    match e {
      case Add(h, when) => q.AddWait(h, when, now);
      case Pass(span) => later := now + span;
      case Wakeup(lag) =>
        later := now + lag;
        woken := q.Wakeup(now, later);
    }
  }

  /** The state after these events, from an empty list. */
  function Played(start: int, events: seq<Event>): Clock {
    if events == [] then Start(start) else After(Played(start, events[..|events| - 1]), events[|events| - 1])
  }

  lemma {:induction false} RunIsPlayed(clocks: seq<Clock>, events: seq<Event>, i: nat)
    requires Run(clocks, events) && i < |clocks|
    ensures clocks[i] == Played(clocks[0].now, events[..i])
  {
    if i > 0 {
      RunIsPlayed(clocks, events, i - 1);
      assert events[..i][..i - 1] == events[..i - 1];
    }
  }

  /** A list lives through any events: its wake-ups, and in the end its sleepers, are those of the run. */
  method Lifetime(start: int, events: seq<Event>) returns (woken: seq<nat>, pending: seq<nat>)
    ensures woken == Handles(WokenEntries(Played(start, events).woken))
    ensures pending == Handles(Played(start, events).entries)
  {
    var q := new TimeWQ();
    var now, i := start, 0;
    woken := [];
    while i < |events|
      invariant i <= |events| && fresh(q) && Follows(q, now, Played(start, events[..i]))
      invariant woken == Handles(WokenEntries(Played(start, events[..i]).woken))
    {
      assert events[..i + 1][..i] == events[..i];
      var more;
      more, now := Perform(q, events[i], now, Played(start, events[..i]));
      woken := woken + more;
      i := i + 1;
    }
    assert events[..i] == events;
    pending := q.Close();
  }

  // ----- how late a wake-up may be -----

  /** The timer is ideal and handlers take no time: a wake-up comes at the armed instant and no other. */
  predicate Ideal(c: Clock, e: Event) {
    match e
    case Add(_, _) => true
    case Pass(span) => c.armed.Some? ==> c.now + span <= c.armed.value
    case Wakeup(lag) => c.armed == Some(c.now) && lag == 0
  }

  ghost predicate IdealRun(clocks: seq<Clock>, events: seq<Event>) {
    Run(clocks, events) && forall i :: 0 <= i < |events| ==> Ideal(clocks[i], events[i])
  }

  /** The deadline is not already past, or some sleeper is due no later anyway. */
  predicate Prompt(c: Clock, e: Event) {
    e.Add? ==> e.when >= c.now || !First(c, e.when)
  }

  /** The timer is armed for a non-empty list, not in the past nor later than 100us after its head. */
  ghost predicate Armed(c: Clock) {
    c.entries != [] ==> c.armed.Some? && c.now <= c.armed.value <= c.entries[0].item.when + FLOOR
  }

  predicate OnTime(w: Wake) {
    w.entry.item.when <= w.at <= w.entry.item.when + FLOOR
  }

  /** A prompt event keeps the timer bound, and a sleeper is woken at most 100us late. */
  lemma PromptKeepsArmed(c: Clock, e: Event)
    requires Inv(c) && Armed(c) && Prompt(c, e) && Ideal(c, e)
    ensures Armed(After(c, e))
    ensures forall k :: |c.woken| <= k < |After(c, e).woken| ==> OnTime(After(c, e).woken[k])
  {
    if e.Wakeup? && c.entries != [] {
      forall k | 0 < k < |c.entries|
        ensures c.entries[0].item.when <= c.entries[k].item.when
      {
        assert Before(c.entries[0], c.entries[k]);
      }
    }
  }

  /** Adding a sleeper keeps the timer bound exactly when it is prompt. */
  lemma AddKeepsArmedIffPrompt(c: Clock, h: nat, when: int)
    requires Inv(c) && Armed(c)
    ensures Armed(After(c, Add(h, when))) <==> Prompt(c, Add(h, when))
  {
    if Prompt(c, Add(h, when)) {
      PromptKeepsArmed(c, Add(h, when));
    }
  }

  /**
   * Under an ideal timer, with deadlines not past when added, no sleeper is or was late, and
   * the timer of a non-empty list goes off at most 100us after its first deadline.
   */
  lemma {:induction false} SleepersOnTime(clocks: seq<Clock>, events: seq<Event>, i: nat)
    requires IdealRun(clocks, events) && i < |clocks|
    requires forall j :: 0 <= j < i ==> Prompt(clocks[j], events[j])
    ensures Armed(clocks[i]) && NoneLate(clocks[i])
  {
    if i > 0 {
      SleepersOnTime(clocks, events, i - 1);
      RunInv(clocks, events, i - 1);
      EventKeeps(clocks[i - 1], events[i - 1]);
      PromptKeepsNoneLate(clocks[i - 1], events[i - 1]);
    }
  }

  /** Every pending sleeper has at most 100us to go past its deadline, and every woken one had. */
  ghost predicate NoneLate(c: Clock) {
    && (forall k :: 0 <= k < |c.entries| ==> c.now <= c.entries[k].item.when + FLOOR)
    && (forall k :: 0 <= k < |c.woken| ==> OnTime(c.woken[k]))
  }

  lemma PromptKeepsNoneLate(c: Clock, e: Event)
    requires Inv(c) && Armed(c) && NoneLate(c) && Prompt(c, e) && Ideal(c, e) && Inv(After(c, e))
    ensures Armed(After(c, e)) && NoneLate(After(c, e))
  {
    PromptKeepsArmed(c, e);
    HeadIsLatest(After(c, e));
    WokenGrows(c, e);
  }

  lemma HeadIsLatest(c: Clock)
    requires Inv(c) && Armed(c)
    ensures forall k :: 0 <= k < |c.entries| ==> c.now <= c.entries[k].item.when + FLOOR
  {
    forall k | 0 <= k < |c.entries|
      ensures c.now <= c.entries[k].item.when + FLOOR
    {
      assert k > 0 ==> Before(c.entries[0], c.entries[k]);
    }
  }

  lemma WokenGrows(c: Clock, e: Event)
    ensures c.woken <= After(c, e).woken
  {
  }

  /** e, added at t when its deadline was past, is not woken before t + 100us. */
  ghost predicate Delayed(c: Clock, e: Entry, t: int) {
    && (e in c.entries ==> c.armed.Some? && c.armed.value >= t + FLOOR)
    && (forall k :: 0 <= k < |c.woken| && c.woken[k].entry == e ==> c.woken[k].at >= t + FLOOR)
    && t <= c.now && e in c.added
  }

  lemma DelayKept(c: Clock, e: Entry, t: int, event: Event)
    requires Inv(c) && Delayed(c, e, t) && Ideal(c, event) && e.item.when < t
    ensures Delayed(After(c, event), e, t)
  {
    var c' := After(c, event);
    match event
    case Add(h, when) => assert e.stamp < |c.added|;
    case Pass(_) =>
    case Wakeup(_) =>
      DueExact(c.entries, c.now);
      var n := Due(c.entries, c.now);
      forall k | 0 <= k < |c'.woken| && c'.woken[k].entry == e
        ensures c'.woken[k].at >= t + FLOOR
      {
        if k >= |c.woken| {
          assert c'.woken[k] == Wake(c.entries[k - |c.woken|], c.now);
        }
      }
  }

  /**
   * A sleeper that is not added promptly is late: under an ideal timer it is never woken
   * within 100us after its deadline, whatever is added later.
   */
  lemma {:induction false} LateUnlessPrompt(clocks: seq<Clock>, events: seq<Event>, i: nat, j: nat)
    requires IdealRun(clocks, events) && i < j < |clocks|
    requires !Prompt(clocks[i], events[i])
    ensures |clocks[i].added| < |clocks[i + 1].added|
    ensures Delayed(clocks[j], clocks[i + 1].added[|clocks[i].added|], clocks[i].now)
    ensures forall w :: w in clocks[j].woken && w.entry == clocks[i + 1].added[|clocks[i].added|] ==> !OnTime(w)
  {
    var c, e := clocks[i], clocks[i + 1].added[|clocks[i].added|];
    if j == i + 1 {
      RunInv(clocks, events, i);
      assert clocks[i + 1] == After(c, events[i]);
      forall k | 0 <= k < |c.woken|
        ensures c.woken[k].entry != e
      {
        assert c.woken[k].entry == WokenEntries(c.woken)[k];
        assert c.woken[k].entry in multiset(c.added);
      }
    } else {
      LateUnlessPrompt(clocks, events, i, j - 1);
      RunInv(clocks, events, j - 1);
      DelayKept(clocks[j - 1], e, c.now, events[j - 1]);
    }
  }

  lemma {:induction false} AddedStays(clocks: seq<Clock>, events: seq<Event>, i: nat, j: nat)
    requires Run(clocks, events) && i <= j < |clocks|
    ensures clocks[i].added <= clocks[j].added
  {
    if i < j {
      AddedStays(clocks, events, i, j - 1);
      assert clocks[j] == After(clocks[j - 1], events[j - 1]);
    }
  }

  /** Under an ideal timer that has woken everyone, all were woken on time exactly when all were added promptly. */
  lemma AllOnTimeIffPrompt(clocks: seq<Clock>, events: seq<Event>)
    requires IdealRun(clocks, events) && clocks[|events|].entries == []
    ensures (forall w :: w in clocks[|events|].woken ==> OnTime(w))
       <==> (forall i :: 0 <= i < |events| ==> Prompt(clocks[i], events[i]))
  {
    var last := clocks[|events|];
    if forall i :: 0 <= i < |events| ==> Prompt(clocks[i], events[i]) {
      SleepersOnTime(clocks, events, |events|);
    } else {
      var i :| 0 <= i < |events| && !Prompt(clocks[i], events[i]);
      LateUnlessPrompt(clocks, events, i, |events|);
      RunInv(clocks, events, |events|);
      var e := clocks[i + 1].added[|clocks[i].added|];
      assert e in multiset(last.added);
      var k :| 0 <= k < |last.woken| && WokenEntries(last.woken)[k] == e;
      assert last.woken[k] in last.woken && last.woken[k].entry == e;
    }
  }

  const LATE := Entry(WaitItem(7, 0), 0)

  lemma LateAdd(c: Clock)
    requires c == Clock(1_000_000, [], None, [], [])
    ensures After(c, Add(7, 0)) == Clock(1_000_000, [LATE], Some(1_100_000), [LATE], [])
  {
    assert Insert([], LATE) == [LATE];
    assert Deadline(1_000_000, 0) == 1_100_000;
  }

  lemma LateWakeup(c: Clock)
    requires c == Clock(1_100_000, [LATE], Some(1_100_000), [LATE], [])
    ensures After(c, Wakeup(0)) == Clock(1_100_000, [], None, [LATE], [Wake(LATE, 1_100_000)])
  {
    assert Due([LATE], 1_100_000) == 1 by {
      assert [LATE][1..] == [];
    }
    assert [LATE][..1] == [LATE] && Wakes([LATE], 1_100_000) == [Wake(LATE, 1_100_000)];
  }

  /** A sleeper added 1ms after its deadline is woken 1.1ms after it, by an ideal timer. */
  lemma LateSleeper() returns (clocks: seq<Clock>, events: seq<Event>)
    ensures IdealRun(clocks, events) && clocks[0].now == 0
    ensures events == [Pass(1_000_000), Add(7, 0), Pass(100_000), Wakeup(0)]
    ensures clocks[4].entries == [] && clocks[4].woken == [Wake(LATE, 1_100_000)]
    ensures !OnTime(clocks[4].woken[0])
  {
    events := [Pass(1_000_000), Add(7, 0), Pass(100_000), Wakeup(0)];
    var c1 := After(Start(0), events[0]);
    LateAdd(c1);
    var c2 := After(c1, events[1]);
    var c3 := After(c2, events[2]);
    LateWakeup(c3);
    clocks := [Start(0), c1, c2, c3, After(c3, events[3])];
  }
}
