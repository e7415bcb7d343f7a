/**
 * What the in-process controller guarantees over whole runs: its caps hold, contended slots go to
 * exactly one rightful waiter, arrival order is kept, no key overtakes twice, and the rate limit
 * bounds every window of time.
 */
module QueueProperties {
  import opened Basics
  import opened Admission
  import opened Queue

  datatype Event = Try(now: int, item: Item) | Free

  function Step(config: QueueConfig, s: State, e: Event): State {
    match e
    case Try(now, item) => TryAdmit(config, s, now, item).0
    case Free => Release(s)
  }

  predicate Admits(config: QueueConfig, s: State, e: Event) {
    e.Try? && TryAdmit(config, s, e.now, e.item).1 == Admitted
  }

  /** The controller after a sequence of calls and releases, from `s`. */
  function Run(config: QueueConfig, s: State, events: seq<Event>): State {
    if events == [] then s
    else Step(config, Run(config, s, events[..|events| - 1]), events[|events| - 1])
  }

  // ---------------------------------------------------------------- the state invariant

  /** Arrival numbers are distinct and already handed out; the concurrency cap holds. */
  ghost predicate Valid(config: QueueConfig, s: State) {
    && (forall a :: a in s.waiters ==> s.waiters[a].arrival.Some? && s.waiters[a].arrival.value < s.waiterSeq)
    && (forall a, b :: a in s.waiters && b in s.waiters && a != b ==> s.waiters[a].arrival != s.waiters[b].arrival)
    && (config.concurrency.Some? ==> s.inFlight <= Max(0, config.concurrency.value))
  }

  lemma RegisteredValid(config: QueueConfig, s: State, item: Item)
    requires Valid(config, s)
    ensures Valid(config, Registered(s, item))
  {
  }

  lemma TookValid(config: QueueConfig, s: State, item: Item)
    requires Valid(config, s) && !Full(config, s)
    ensures Valid(config, Took(config, s, item))
  {
  }

  lemma StepValid(config: QueueConfig, s: State, e: Event)
    requires Valid(config, s)
    ensures Valid(config, Step(config, s, e))
  {
    if e.Try? {
      var s0 := Rolled(config, s, e.now);
      assert Valid(config, s0);
      RegisteredValid(config, s0, e.item);
      hide Registered, Took, Valid, IsNext;
      if !Full(config, s0) {
        TookValid(config, s0, e.item);
        assert !Full(config, Registered(s0, e.item)) by { RegisteredSame(s0, e.item); }
        TookValid(config, Registered(s0, e.item), e.item);
      }
    }
  }

  lemma RegisteredSame(s: State, item: Item)
    ensures Registered(s, item).inFlight == s.inFlight
  {
  }

  /** Over any run the slots in use stay within the configured concurrency. */
  lemma {:induction false} InFlightBounded(config: QueueConfig, events: seq<Event>)
    ensures Valid(config, Run(config, Initial, events))
    ensures config.concurrency.Some? ==>
      Run(config, Initial, events).inFlight <= Max(0, config.concurrency.value)
  {
    if events != [] {
      InFlightBounded(config, events[..|events| - 1]);
      StepValid(config, Run(config, Initial, events[..|events| - 1]), events[|events| - 1]);
    }
  }

  // ---------------------------------------------------------------- exactly one rightful waiter

  /** On registered waiters the preference is total and asymmetric; it is transitive on all waiters. */
  lemma BetterTotal(config: QueueConfig, s: State, a: string, b: string)
    requires Valid(config, s) && a in s.waiters && b in s.waiters
    ensures !Better(config, s, s.waiters[a], s.waiters[a])
    ensures a != b ==>
      (Better(config, s, s.waiters[a], s.waiters[b]) <==> !Better(config, s, s.waiters[b], s.waiters[a]))
  {
  }

  /** A waiter none of `ids` is preferred to. */
  lemma {:induction false} BestOf(config: QueueConfig, s: State, ids: set<string>) returns (best: string)
    requires Valid(config, s) && ids != {} && ids <= s.waiters.Keys
    ensures best in ids
    ensures forall id :: id in ids ==> !Better(config, s, s.waiters[id], s.waiters[best])
  {
    var pick :| pick in ids;
    BetterTotal(config, s, pick, pick);
    best := pick;
    assert forall id :: id in ids ==> id == pick || id in ids - {pick};
    if ids - {pick} != {} {
      var other := BestOf(config, s, ids - {pick});
      BetterTotal(config, s, pick, other);
      if Better(config, s, s.waiters[other], s.waiters[pick]) {
        best := other;
        forall id | id in ids ensures !Better(config, s, s.waiters[id], s.waiters[best]) {
          assert id == pick || id in ids - {pick};
        }
      } else {
        forall id | id in ids && id != pick ensures !Better(config, s, s.waiters[id], s.waiters[pick]) {
          assert id in ids - {pick};
          if Better(config, s, s.waiters[id], s.waiters[pick]) {
            BetterTransitive(config, s, s.waiters[id], s.waiters[pick], s.waiters[other]);
          }
        }
      }
    }
  }

  /** The retry of a registered waiter, with the hints it registered. */
  function Retry(s: State, id: string): Item
    requires id in s.waiters
  {
    Item(Some(s.waiters[id].priority), s.waiters[id].key, Some(id))
  }

  predicate SlotOpen(config: QueueConfig, s: State, now: int) {
    !RateClosed(config, Rolled(config, s, now)) && !Full(config, s)
  }

  /** With a slot and the window open, exactly one of the waiters is admitted on its retry. */
  lemma ExactlyOneAdmitted(config: QueueConfig, s: State, now: int) returns (best: string)
    requires Valid(config, s) && s.waiters != map[] && SlotOpen(config, s, now)
    ensures best in s.waiters
    ensures forall id :: id in s.waiters ==>
      (TryAdmit(config, s, now, Retry(s, id)).1 == Admitted <==> id == best)
  {
    best := BestOf(config, s, s.waiters.Keys);
    forall id | id in s.waiters
      ensures TryAdmit(config, s, now, Retry(s, id)).1 == Admitted <==> id == best
    {
      RetryAnswer(config, s, now, id);
      BetterTotal(config, s, id, best);
    }
  }

  lemma RetryAnswer(config: QueueConfig, s: State, now: int, id: string)
    requires Valid(config, s) && SlotOpen(config, s, now) && id in s.waiters
    ensures TryAdmit(config, s, now, Retry(s, id)).1 == Admitted <==>
      forall other :: other in s.waiters ==> !Better(config, s, s.waiters[other], s.waiters[id])
  {
    var s0 := Rolled(config, s, now);
    var item := Retry(s, id);
    assert s0.waiters[id := Waiter(PriorityOf(item), item.key, s0.waiters[id].arrival)] == s.waiters;
    assert Registered(s0, item) == s0;
    assert forall other :: other in s.waiters ==>
      (Better(config, s0, s.waiters[other], s.waiters[id]) <==> Better(config, s, s.waiters[other], s.waiters[id]));
  }

  // ---------------------------------------------------------------- arrival order

  /** Every call names its waiter and all have priority `p`. */
  predicate Uniform(p: int, events: seq<Event>) {
    forall i :: 0 <= i < |events| && events[i].Try? ==>
      events[i].item.waiterId.Some? && PriorityOf(events[i].item) == p
  }

  /** The arrival numbers of the waiters a run admits, in the order it admits them. */
  function AdmittedArrivals(config: QueueConfig, events: seq<Event>): seq<nat> {
    if events == [] then []
    else
      var front, e := events[..|events| - 1], events[|events| - 1];
      var s := Run(config, Initial, front);
      AdmittedArrivals(config, front) + ArrivalAdmitted(config, s, e)
  }

  ghost predicate Increasing(a: seq<nat>) {
    forall i, j :: 0 <= i < j < |a| ==> a[i] < a[j]
  }

  /** Same-priority waiters; none of them arrived before something already admitted. */
  ghost predicate InOrder(p: int, s: State, admitted: seq<nat>) {
    && (forall id :: id in s.waiters ==> s.waiters[id].priority == p)
    && (forall i, id :: 0 <= i < |admitted| && id in s.waiters && s.waiters[id].arrival.Some? ==>
          admitted[i] < s.waiters[id].arrival.value)
    && (forall i :: 0 <= i < |admitted| ==> admitted[i] < s.waiterSeq)
  }

  lemma FirstInLineAdmitted(config: QueueConfig, s: State, p: int, e: Event, id: string)
    requires Valid(config, s) && !config.fairByKey && !config.lifo
    requires e.Try? && e.item.waiterId == Some(id) && PriorityOf(e.item) == p && Admits(config, s, e)
    requires forall w :: w in s.waiters ==> s.waiters[w].priority == p
    ensures s.waiters != map[] ==> id in s.waiters
    ensures forall w :: w in s.waiters && w != id ==> s.waiters[id].arrival.value < s.waiters[w].arrival.value
  {
    var s0 := Rolled(config, s, e.now);
    if s.waiters != map[] {
      var s1 := Registered(s0, e.item);
      assert IsNext(config, s1, e.item);
      assert Caller(s1, e.item) == s1.waiters[id];
      forall w | w in s.waiters && w != id
        ensures id in s.waiters && s.waiters[id].arrival.value < s.waiters[w].arrival.value
      {
        assert w in s1.waiters && !Better(config, s1, s1.waiters[w], s1.waiters[id]);
      }
      assert exists w :: w in s.waiters;
    }
  }

  /** The arrival number of the waiter this call admits, if it had one. */
  function ArrivalAdmitted(config: QueueConfig, s: State, e: Event): seq<nat> {
    if Admits(config, s, e) && e.item.waiterId.Some? && e.item.waiterId.value in s.waiters &&
       s.waiters[e.item.waiterId.value].arrival.Some?
    then [s.waiters[e.item.waiterId.value].arrival.value] else []
  }

  lemma RegisteredInOrder(config: QueueConfig, s: State, item: Item, p: int, admitted: seq<nat>)
    requires InOrder(p, s, admitted) && PriorityOf(item) == p
    ensures InOrder(p, Registered(s, item), admitted)
  {
  }

  lemma AdmitInOrder(config: QueueConfig, s: State, e: Event, p: int, admitted: seq<nat>)
    requires Valid(config, s) && InOrder(p, s, admitted) && !config.fairByKey && !config.lifo
    requires Admits(config, s, e) && e.item.waiterId.Some? && PriorityOf(e.item) == p
    ensures InOrder(p, Step(config, s, e), admitted + ArrivalAdmitted(config, s, e))
    ensures Increasing(admitted) ==> Increasing(admitted + ArrivalAdmitted(config, s, e))
  {
    hide IsNext, Better, Caller;
    var id := e.item.waiterId.value;
    FirstInLineAdmitted(config, s, p, e, id);
    if s.waiters != map[] {
      assert Registered(Rolled(config, s, e.now), e.item).waiters - {id} == s.waiters - {id};
    }
  }

  lemma StepInOrder(config: QueueConfig, s: State, e: Event, p: int, admitted: seq<nat>)
    requires Valid(config, s) && InOrder(p, s, admitted) && !config.fairByKey && !config.lifo
    requires e.Try? ==> e.item.waiterId.Some? && PriorityOf(e.item) == p
    ensures InOrder(p, Step(config, s, e), admitted + ArrivalAdmitted(config, s, e))
    ensures Increasing(admitted) ==> Increasing(admitted + ArrivalAdmitted(config, s, e))
  {
    if Admits(config, s, e) {
      AdmitInOrder(config, s, e, p, admitted);
    } else if e.Try? {
      hide IsNext, Registered, Took;
      RegisteredInOrder(config, Rolled(config, s, e.now), e.item, p, admitted);
      assert admitted + [] == admitted;
    }
  }

  /** Equal-priority FIFO waiters are admitted in the order they registered. */
  lemma {:induction false} ArrivalOrderKept(config: QueueConfig, events: seq<Event>, p: int)
    requires !config.fairByKey && !config.lifo && Uniform(p, events)
    ensures InOrder(p, Run(config, Initial, events), AdmittedArrivals(config, events))
    ensures Increasing(AdmittedArrivals(config, events))
  {
    if events != [] {
      hide InOrder, Increasing, Step, ArrivalAdmitted, Valid;
      var front := events[..|events| - 1];
      ArrivalOrderKept(config, front, p);
      InFlightBounded(config, front);
      StepInOrder(config, Run(config, Initial, front), events[|events| - 1], p, AdmittedArrivals(config, front));
    }
  }

  // ---------------------------------------------------------------- fairness

  /** How many calls of key `j` the run from `s` admits. */
  function AdmissionsOf(config: QueueConfig, s: State, events: seq<Event>, j: string): nat {
    if events == [] then 0
    else
      AdmissionsOf(config, s, events[..|events| - 1], j) + One(config, Run(config, s, events[..|events| - 1]),
                                                              events[|events| - 1], j)
  }

  function One(config: QueueConfig, s: State, e: Event, j: string): nat {
    if Admits(config, s, e) && e.item.key == Some(j) then 1 else 0
  }

  /** Waiter `w` of key `k` and priority `p` is registered. */
  predicate Stays(s: State, w: string, k: string, p: int) {
    w in s.waiters && s.waiters[w].key == Some(k) && s.waiters[w].priority == p
  }

  /**
   * Over the run, every call is keyed and none outranks `p`; waiter `w` of key `k` stays registered
   * at priority `p`; and no call of key `k` is admitted.
   */
  ghost predicate HeldUp(config: QueueConfig, s: State, events: seq<Event>, w: string, k: string, p: int) {
    && Stays(s, w, k, p)
    && forall i :: 0 <= i < |events| ==> Overtakes(config, Run(config, s, events[..i]), events[i], w, k, p)
  }

  /** One call that leaves the waiter in line. */
  predicate Overtakes(config: QueueConfig, s: State, e: Event, w: string, k: string, p: int) {
    && Stays(Step(config, s, e), w, k, p)
    && (e.Try? ==> e.item.key.Some? && PriorityOf(e.item) <= p)
    && !(Admits(config, s, e) && e.item.key == Some(k))
  }

  lemma RegisteredServed(s: State, item: Item)
    ensures Registered(s, item).keyServed == s.keyServed && Registered(s, item).servedTick == s.servedTick
  {
  }

  lemma TookServed(config: QueueConfig, s: State, item: Item)
    ensures Took(config, s, item).keyServed == Served(s, item).keyServed
    ensures Took(config, s, item).servedTick == Served(s, item).servedTick
  {
  }

  /** Only an admission touches the record of who was served when. */
  lemma StepServed(config: QueueConfig, s: State, e: Event)
    ensures !Admits(config, s, e) ==>
      Step(config, s, e).keyServed == s.keyServed && Step(config, s, e).servedTick == s.servedTick
    ensures Admits(config, s, e) ==>
      && Step(config, s, e).keyServed == Served(s, e.item).keyServed
      && Step(config, s, e).servedTick == Served(s, e.item).servedTick
  {
    hide Registered, IsNext, Took;
    if e.Try? {
      var s0 := Rolled(config, s, e.now);
      RegisteredServed(s0, e.item);
      TookServed(config, s0, e.item);
      TookServed(config, Registered(s0, e.item), e.item);
    }
  }

  /** A call admitted past waiter `w` left it registered as it was, and was not worse than it. */
  lemma PassedBy(config: QueueConfig, s: State, e: Event, w: string)
    requires Admits(config, s, e) && Ordered(config, e.item) && w in s.waiters && w in Step(config, s, e).waiters
    ensures var s1 := Registered(Rolled(config, s, e.now), e.item);
      && w in s1.waiters && s1.waiters[w] == s.waiters[w]
      && !Better(config, s1, s1.waiters[w], Caller(s1, e.item))
  {
    hide Better, Caller;
    var s0 := Rolled(config, s, e.now);
    var s1 := Registered(s0, e.item);
    assert s0.waiters != map[] && IsNext(config, s1, e.item);
    assert e.item.waiterId != Some(w) by {
      assert Step(config, s, e) == Took(config, s1, e.item);
    }
  }

  /** A call of another key admitted past the waiter was served no later than the waiter's own key. */
  lemma OvertakeOnce(config: QueueConfig, s: State, e: Event, w: string, k: string, p: int)
    requires config.fairByKey && Stays(s, w, k, p) && Overtakes(config, s, e, w, k, p)
    ensures Admits(config, s, e) ==>
      ServedOf(s, e.item.key) <= ServedOf(s, Some(k)) && ServedOf(Step(config, s, e), e.item.key) == s.servedTick + 1
    ensures ServedOf(Step(config, s, e), Some(k)) == ServedOf(s, Some(k))
    ensures forall j :: ServedOf(Step(config, s, e), Some(j)) != ServedOf(s, Some(j)) ==>
      e.Try? && e.item.key == Some(j) && Admits(config, s, e)
    ensures s.servedTick <= Step(config, s, e).servedTick
  {
    hide Step, TryAdmit, Registered;
    StepServed(config, s, e);
    if Admits(config, s, e) {
      PassedBy(config, s, e, w);
      var s1 := Registered(Rolled(config, s, e.now), e.item);
      RegisteredServed(Rolled(config, s, e.now), e.item);
      RegisteredHints(Rolled(config, s, e.now), e.item);
      assert ServedOf(s1, e.item.key) == ServedOf(s, e.item.key) && ServedOf(s1, Some(k)) == ServedOf(s, Some(k));
    }
  }

  /** A registered caller competes under the hints of its latest call. */
  lemma RegisteredHints(s: State, item: Item)
    ensures Caller(Registered(s, item), item).key == item.key
    ensures Caller(Registered(s, item), item).priority == PriorityOf(item)
  {
  }

  /** No key was served later than the latest tick. */
  ghost predicate TicksCover(s: State) {
    forall j :: ServedOf(s, Some(j)) <= s.servedTick
  }

  lemma StepTicks(config: QueueConfig, s: State, e: Event)
    requires TicksCover(s)
    ensures TicksCover(Step(config, s, e))
  {
    hide Step, Admits;
    StepServed(config, s, e);
  }

  lemma {:induction false} RunTicks(config: QueueConfig, events: seq<Event>)
    ensures TicksCover(Run(config, Initial, events))
  {
    if events != [] {
      hide TicksCover, Step;
      RunTicks(config, events[..|events| - 1]);
      StepTicks(config, Run(config, Initial, events[..|events| - 1]), events[|events| - 1]);
    }
  }

  /**
   * Bounded overtaking: while a waiter of key `k` is kept in line and nothing of key `k` is admitted,
   * every other key is admitted at most once.
   */
  lemma {:induction false} BoundedOvertaking(
      config: QueueConfig, s: State, events: seq<Event>, w: string, k: string, p: int, j: string)
    requires config.fairByKey && HeldUp(config, s, events, w, k, p)
    requires TicksCover(s)
    ensures AdmissionsOf(config, s, events, j) <= 1
    ensures AdmissionsOf(config, s, events, j) == 1 ==>
      ServedOf(Run(config, s, events), Some(j)) > ServedOf(Run(config, s, events), Some(k))
    ensures ServedOf(Run(config, s, events), Some(k)) <= Run(config, s, events).servedTick
    ensures Stays(Run(config, s, events), w, k, p)
  {
    if events != [] {
      var front, e := events[..|events| - 1], events[|events| - 1];
      forall i | 0 <= i < |front| ensures Overtakes(config, Run(config, s, front[..i]), front[i], w, k, p) {
        assert front[..i] == events[..i] && front[i] == events[i];
      }
      BoundedOvertaking(config, s, front, w, k, p, j);
      assert front == events[..|front|];
      OvertakeOnce(config, Run(config, s, front), e, w, k, p);
    }
  }

  /** The same from the start of time: `before` is any run that leaves the waiter in line. */
  lemma OvertakenAtMostOnce(
      config: QueueConfig, before: seq<Event>, events: seq<Event>, w: string, k: string, p: int, j: string)
    requires config.fairByKey && HeldUp(config, Run(config, Initial, before), events, w, k, p)
    ensures AdmissionsOf(config, Run(config, Initial, before), events, j) <= 1
    ensures AdmissionsOf(config, Run(config, Initial, before), events, k) == 0
  {
    RunTicks(config, before);
    BoundedOvertaking(config, Run(config, Initial, before), events, w, k, p, j);
    BoundedOvertaking(config, Run(config, Initial, before), events, w, k, p, k);
  }

  // ---------------------------------------------------------------- the rate limit

  /** When the run admitted its calls. */
  function AdmitTimes(config: QueueConfig, events: seq<Event>): seq<int> {
    if events == [] then []
    else
      AdmitTimes(config, events[..|events| - 1]) +
      TimeAdmitted(config, Run(config, Initial, events[..|events| - 1]), events[|events| - 1])
  }

  function TimeAdmitted(config: QueueConfig, s: State, e: Event): seq<int> {
    if Admits(config, s, e) then [e.now] else []
  }

  /** How many of `times` lie in the half-open interval from `lo` up to `hi`. */
  function CountIn(times: seq<int>, lo: int, hi: int): nat {
    if times == [] then 0
    else CountIn(times[..|times| - 1], lo, hi) + if lo <= times[|times| - 1] < hi then 1 else 0
  }

  /** The clock never runs backwards, from the epoch on. */
  ghost predicate Monotone(events: seq<Event>) {
    && (forall i :: 0 <= i < |events| && events[i].Try? ==> events[i].now >= 0)
    && (forall i, j :: 0 <= i < j < |events| && events[i].Try? && events[j].Try? ==> events[i].now <= events[j].now)
  }

  lemma CountSnoc(times: seq<int>, t: int, lo: int, hi: int)
    ensures CountIn(times + [t], lo, hi) == CountIn(times, lo, hi) + if lo <= t < hi then 1 else 0
  {
    assert (times + [t])[..|times|] == times;
  }

  lemma {:induction false} CountSplit(times: seq<int>, lo: int, mid: int, hi: int)
    requires lo <= mid <= hi
    ensures CountIn(times, lo, hi) == CountIn(times, lo, mid) + CountIn(times, mid, hi)
  {
    if times != [] { CountSplit(times[..|times| - 1], lo, mid, hi); }
  }

  lemma {:induction false} CountNone(times: seq<int>, lo: int, hi: int)
    requires forall i :: 0 <= i < |times| ==> times[i] < lo
    ensures CountIn(times, lo, hi) == 0
  {
    if times != [] { CountNone(times[..|times| - 1], lo, hi); }
  }

  lemma {:induction false} CountMonotone(times: seq<int>, lo: int, hi: int, lo2: int, hi2: int)
    requires lo2 <= lo && hi <= hi2
    ensures CountIn(times, lo, hi) <= CountIn(times, lo2, hi2)
  {
    if times != [] { CountMonotone(times[..|times| - 1], lo, hi, lo2, hi2); }
  }

  /**
   * What the counters say about the admissions so far, the last call having come at `last`: the
   * window counts exactly the admissions since it opened, and the period before it opened holds no
   * more than the limit.
   */
  ghost predicate Counted(limit: int, period: int, s: State, times: seq<int>, last: int) {
    && s.windowStart <= last < s.windowStart + period
    && (forall i :: 0 <= i < |times| ==> times[i] <= last)
    && s.windowCount == CountIn(times, s.windowStart, last + 1)
    && s.windowCount <= Max(0, limit)
    && CountIn(times, s.windowStart - period, s.windowStart) <= Max(0, limit)
  }

  /** Time passes, and the window opens anew if it is over. */
  lemma RolledCounted(config: QueueConfig, s: State, times: seq<int>, last: int, now: int)
    requires config.rateLimit.Some? && config.rateLimit.value.periodMs > 0 && last <= now
    requires Counted(config.rateLimit.value.limit, config.rateLimit.value.periodMs, s, times, last)
    ensures Counted(config.rateLimit.value.limit, config.rateLimit.value.periodMs, Rolled(config, s, now), times, now)
  {
    var period := config.rateLimit.value.periodMs;
    if now - s.windowStart >= period {
      CountNone(times, now, now + 1);
      CountSplit(times, s.windowStart, last + 1, now);
      CountNone(times, last + 1, now);
      CountMonotone(times, now - period, now, s.windowStart, now);
    } else {
      CountSplit(times, s.windowStart, last + 1, now + 1);
      CountNone(times, last + 1, now + 1);
    }
  }

  lemma TookCounted(config: QueueConfig, s: State, times: seq<int>, now: int, item: Item)
    requires config.rateLimit.Some? && !RateClosed(config, s)
    requires Counted(config.rateLimit.value.limit, config.rateLimit.value.periodMs, s, times, now)
    ensures Counted(config.rateLimit.value.limit, config.rateLimit.value.periodMs, Took(config, s, item),
                    times + [now], now)
  {
    CountSnoc(times, now, s.windowStart, now + 1);
    CountSnoc(times, now, s.windowStart - config.rateLimit.value.periodMs, s.windowStart);
  }

  /** Any period-long interval meets the open window and at most the period before it. */
  lemma AdmissionBound(config: QueueConfig, s: State, times: seq<int>, now: int, lo: int)
    requires config.rateLimit.Some?
    requires Counted(config.rateLimit.value.limit, config.rateLimit.value.periodMs, s, times, now)
    requires lo > s.windowStart - config.rateLimit.value.periodMs
    ensures CountIn(times, lo, lo + config.rateLimit.value.periodMs) <= 2 * Max(0, config.rateLimit.value.limit)
  {
    var period := config.rateLimit.value.periodMs;
    var hi := Max(lo + period, now + 1);
    CountMonotone(times, lo, lo + period, s.windowStart - period, hi);
    CountSplit(times, s.windowStart - period, s.windowStart, hi);
    CountSplit(times, s.windowStart, now + 1, hi);
    CountNone(times, now + 1, hi);
  }

  function LastTime(events: seq<Event>): int {
    if events == [] then 0
    else if events[|events| - 1].Try? then events[|events| - 1].now
    else LastTime(events[..|events| - 1])
  }

  lemma {:induction false} LastTimeBounds(events: seq<Event>, now: int)
    requires now >= 0 && forall i :: 0 <= i < |events| && events[i].Try? ==> events[i].now <= now
    ensures LastTime(events) <= now
  {
    if events != [] { LastTimeBounds(events[..|events| - 1], now); }
  }

  lemma TryCounted(config: QueueConfig, s: State, times: seq<int>, last: int, e: Event)
    requires config.rateLimit.Some? && config.rateLimit.value.periodMs > 0 && e.Try? && last <= e.now
    requires Counted(config.rateLimit.value.limit, config.rateLimit.value.periodMs, s, times, last)
    ensures Counted(config.rateLimit.value.limit, config.rateLimit.value.periodMs, Step(config, s, e),
                    times + TimeAdmitted(config, s, e), e.now)
  {
    hide Counted, Took, Registered, IsNext, RateClosed, Rolled, Full, Ordered;
    var s0 := Rolled(config, s, e.now);
    RolledCounted(config, s, times, last, e.now);
    RegisteredCounted(config, s0, times, e.now, e.item);
    assert times + [] == times;
    if Admits(config, s, e) {
      TookCounted(config, s0, times, e.now, e.item);
      TookCounted(config, Registered(s0, e.item), times, e.now, e.item);
    }
  }

  lemma RegisteredCounted(config: QueueConfig, s: State, times: seq<int>, now: int, item: Item)
    requires config.rateLimit.Some?
    requires Counted(config.rateLimit.value.limit, config.rateLimit.value.periodMs, s, times, now)
    ensures Counted(config.rateLimit.value.limit, config.rateLimit.value.periodMs, Registered(s, item), times, now)
    ensures RateClosed(config, Registered(s, item)) <==> RateClosed(config, s)
  {
  }

  /** The counters stay right over any run under a clock that never runs backwards. */
  lemma {:induction false} RunCounted(config: QueueConfig, events: seq<Event>)
    requires config.rateLimit.Some? && config.rateLimit.value.periodMs > 0 && Monotone(events)
    ensures Counted(config.rateLimit.value.limit, config.rateLimit.value.periodMs, Run(config, Initial, events),
                    AdmitTimes(config, events), LastTime(events))
  {
    hide CountIn, Step, Admits, Counted;
    if events == [] {
      StartCounted(config);
    } else {
      var front, e := events[..|events| - 1], events[|events| - 1];
      RunCounted(config, front);
      if e.Try? {
        LastTimeBounds(front, e.now);
        TryCounted(config, Run(config, Initial, front), AdmitTimes(config, front), LastTime(front), e);
      } else {
        FreeCounted(config, Run(config, Initial, front), AdmitTimes(config, front), LastTime(front));
      }
    }
  }

  lemma StartCounted(config: QueueConfig)
    requires config.rateLimit.Some? && config.rateLimit.value.periodMs > 0
    ensures Counted(config.rateLimit.value.limit, config.rateLimit.value.periodMs, Initial, [], 0)
  {
  }

  lemma FreeCounted(config: QueueConfig, s: State, times: seq<int>, last: int)
    requires config.rateLimit.Some?
    requires Counted(config.rateLimit.value.limit, config.rateLimit.value.periodMs, s, times, last)
    ensures Counted(config.rateLimit.value.limit, config.rateLimit.value.periodMs, Step(config, s, Free),
                    times + TimeAdmitted(config, s, Free), last)
  {
    assert times + [] == times;
  }

  /**
   * Under a clock that never runs backwards, a window admits at most `limit` calls (`Counted`, over
   * any run), and any half-open interval of one period at most twice that.
   */
  lemma {:induction false} RateBounded(config: QueueConfig, events: seq<Event>, lo: int)
    requires config.rateLimit.Some? && Monotone(events)
    ensures CountIn(AdmitTimes(config, events), lo, lo + config.rateLimit.value.periodMs)
         <= 2 * Max(0, config.rateLimit.value.limit)
  {
    hide CountIn, Step, TryAdmit, Counted;
    var times := AdmitTimes(config, events);
    var period := config.rateLimit.value.periodMs;
    if period <= 0 {
      CountEmpty(times, lo, lo + period);
    } else if events == [] {
      CountNone([], lo, lo + period);
    } else {
      var front, e := events[..|events| - 1], events[|events| - 1];
      var s := Run(config, Initial, front);
      RateBounded(config, front, lo);
      assert AdmitTimes(config, front) + [] == AdmitTimes(config, front);
      if Admits(config, s, e) {
        CountSnoc(AdmitTimes(config, front), e.now, lo, lo + period);
        if lo <= e.now < lo + period {
          RunCounted(config, events);
          AdmissionStart(config, Run(config, Initial, events), times, e.now);
          AdmissionBound(config, Run(config, Initial, events), times, e.now, lo);
        }
      }
    }
  }

  lemma AdmissionStart(config: QueueConfig, s: State, times: seq<int>, now: int)
    requires config.rateLimit.Some?
    requires Counted(config.rateLimit.value.limit, config.rateLimit.value.periodMs, s, times, now)
    ensures s.windowStart <= now
  {
  }

  lemma {:induction false} CountEmpty(times: seq<int>, lo: int, hi: int)
    requires hi <= lo
    ensures CountIn(times, lo, hi) == 0
  {
    if times != [] { CountEmpty(times[..|times| - 1], lo, hi); }
  }

  /** The factor two is reached: one call at the end of a window, one at the start of the next. */
  lemma RateBoundTight()
    ensures var config := QueueConfig(None, Some(RateLimit(1, 10)), None, false, false);
      var call := Item(None, None, None);
      CountIn(AdmitTimes(config, [Try(9, call), Try(10, call)]), 9, 19) == 2
  {
    var config := QueueConfig(None, Some(RateLimit(1, 10)), None, false, false);
    var call := Item(None, None, None);
    var events := [Try(9, call), Try(10, call)];
    assert events[..1] == [Try(9, call)] && [Try(9, call)][..0] == [];
    assert Run(config, Initial, [Try(9, call)]) == Step(config, Initial, Try(9, call));
    assert AdmitTimes(config, [Try(9, call)]) == AdmitTimes(config, []) + [9];
    assert AdmitTimes(config, events) == [9] + [10];
    CountSnoc([9], 10, 9, 19);
    CountSnoc([], 9, 9, 19);
    assert [9] == [] + [9];
  }

  /**
   * What `retryAt` promises a call the rate window turned away: until then every call is turned away,
   * and from then on the window no longer stands in the way (if the limit lets anyone through at all).
   */
  lemma RetryAtReopens(config: QueueConfig, s: State, now: int, item: Item, later: int, other: Item)
    requires config.rateLimit.Some? && config.rateLimit.value.limit > 0 && later >= now
    requires RateClosed(config, Rolled(config, s, now))
    ensures TryAdmit(config, s, now, item).1.Blocked?
    ensures var (after, verdict) := TryAdmit(config, s, now, item);
      RateClosed(config, Rolled(config, after, later)) <==> later < verdict.retryAt
    ensures var (after, verdict) := TryAdmit(config, s, now, item);
      later < verdict.retryAt ==> TryAdmit(config, after, later, other) == (after, verdict)
  {
    hide Registered, Took, IsNext;
  }
}
