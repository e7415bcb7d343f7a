/**
 * What the shared keys guarantee to a fleet, over any interleaving of calls by any instances, slots
 * given back, heartbeats and heartbeats lapsing.
 */
module FleetSafety {
  import opened Basics
  import opened Admission
  import opened RedisAdmission

  datatype Event =
    | Ask(inst: Instance, now: int, item: Item)
    | Free(slotId: string)
    | Beat(instance: string)
    | Lapse(instance: string)

  ghost function Step(config: QueueConfig, s: Shared, e: Event): Shared
    requires Valid(s)
  {
    match e
    case Ask(inst, now, item) => Acquire(s, ParamsOf(config, inst, now, item)).0
    case Free(slotId) => s.(slots := s.slots - {slotId})
    case Beat(instance) => Beaten(s, instance)
    case Lapse(instance) => s.(alive := s.alive - {instance})
  }

  ghost predicate Admits(config: QueueConfig, s: Shared, e: Event)
    requires Valid(s)
  {
    e.Ask? && Acquire(s, ParamsOf(config, e.inst, e.now, e.item)).1 == Admitted
  }

  lemma AcquireValid(s: Shared, p: Params)
    requires Valid(s)
    ensures Valid(Acquire(s, p).0)
  {
    hide Valid, WellFormedMeta, Cleaned, Enlisted, SlotTaken, RightfulNext;
    ValidWellFormed(s);
    CleanedValid(s, p);
    ValidWellFormed(Cleaned(s, p));
    EnlistedValid(Cleaned(s, p), p);
    SlotTakenValid(Cleaned(s, p), p);
    SlotTakenValid(Enlisted(Cleaned(s, p), p), p);
  }

  lemma StepValid(config: QueueConfig, s: Shared, e: Event)
    requires Valid(s)
    ensures Valid(Step(config, s, e))
  {
    if e.Ask? {
      hide Acquire, Valid;
      AcquireValid(s, ParamsOf(config, e.inst, e.now, e.item));
    }
  }

  /** The keys after `events`, from `s`. On every run the three waiter keys hold the same ids. */
  ghost function Run(config: QueueConfig, s: Shared, events: seq<Event>): (end: Shared)
    requires Valid(s)
    ensures Valid(end)
    decreases |events|
  {
    if events == [] then s
    else
      var before := Run(config, s, events[..|events| - 1]);
      StepValid(config, before, events[|events| - 1]);
      Step(config, before, events[|events| - 1])
  }

  // ---------------------------------------------------------------- the concurrency cap

  /** An acquire ends in one of four states; an admission found the window open and a slot free. */
  lemma AcquireShape(s: Shared, p: Params)
    requires Valid(s)
    ensures var s0 := Cleaned(s, p);
      && (Acquire(s, p).1 != Admitted ==> Acquire(s, p).0 == s0 || Acquire(s, p).0 == Enlisted(s0, p))
      && (Acquire(s, p).1 == Admitted ==>
            && !RateClosed(s0, p) && !Full(s0, p)
            && (Acquire(s, p).0 == SlotTaken(s0, p) || Acquire(s, p).0 == SlotTaken(Enlisted(s0, p), p)))
  {
    hide Valid, WellFormedMeta, Cleaned, Enlisted, SlotTaken, RightfulNext, RateClosed, Full;
    ValidWellFormed(s);
    CleanedValid(s, p);
    ValidWellFormed(Cleaned(s, p));
  }

  // What the parts of the script leave alone.

  lemma PrunedFrame(s: Shared, now: int)
    ensures Pruned(s, now).slots == s.slots && Pruned(s, now).rate == s.rate && Pruned(s, now).alive == s.alive
  {
    hide Stale;
  }

  lemma CleanedFrame(s: Shared, p: Params)
    ensures Cleaned(s, p).slots == Reclaimed(Beaten(s, p.instanceId)).slots
    ensures Cleaned(s, p).rate == s.rate && Cleaned(s, p).alive == s.alive + {p.instanceId}
  {
    hide Pruned;
    PrunedFrame(Reclaimed(Beaten(s, p.instanceId)), p.now);
  }

  lemma EnlistedFrame(s: Shared, p: Params)
    ensures Enlisted(s, p).slots == s.slots && Enlisted(s, p).rate == s.rate && Enlisted(s, p).alive == s.alive
  {
    hide Meta;
  }

  lemma SlotTakenFrame(s: Shared, p: Params)
    ensures SlotTaken(s, p).slots == s.slots[p.waiterId := p.instanceId] && SlotTaken(s, p).alive == s.alive
    ensures SlotTaken(s, p).rate == Counted(s.rate, p)
  {
    hide Counted;
  }

  /** The parts of one acquire, joined. */
  lemma PartsFrame(s: Shared, p: Params)
    ensures var s0, live := Cleaned(s, p), Reclaimed(Beaten(s, p.instanceId)).slots;
      var s1 := Enlisted(s0, p);
      && s0.slots == s1.slots == live
      && s0.rate == s1.rate == s.rate
      && s0.alive == s1.alive == s.alive + {p.instanceId}
      && SlotTaken(s0, p).slots == SlotTaken(s1, p).slots == live[p.waiterId := p.instanceId]
      && SlotTaken(s0, p).alive == SlotTaken(s1, p).alive == s0.alive
      && SlotTaken(s0, p).rate == SlotTaken(s1, p).rate == Counted(s.rate, p)
  {
    hide Cleaned, Enlisted, SlotTaken, Reclaimed, Beaten, Counted;
    var s0 := Cleaned(s, p);
    CleanedFrame(s, p);
    EnlistedFrame(s0, p);
    SlotTakenFrame(s0, p);
    SlotTakenFrame(Enlisted(s0, p), p);
  }

  /** The slots after an acquire: those of live owners, and the caller's if it is admitted. */
  lemma AcquireSlots(s: Shared, p: Params)
    requires Valid(s)
    ensures Acquire(s, p).0.slots ==
      if Acquire(s, p).1 == Admitted then Reclaimed(Beaten(s, p.instanceId)).slots[p.waiterId := p.instanceId]
      else Reclaimed(Beaten(s, p.instanceId)).slots
    ensures Acquire(s, p).1 == Admitted && p.concurrency > 0 ==>
      |Reclaimed(Beaten(s, p.instanceId)).slots| < p.concurrency
  {
    hide Acquire, Valid, Cleaned, Enlisted, SlotTaken, Reclaimed, Beaten, RateClosed;
    AcquireShape(s, p);
    PartsFrame(s, p);
  }

  lemma StepCapped(config: QueueConfig, s: Shared, e: Event, cap: int)
    requires Valid(s) && config.concurrency == Some(cap) && cap > 0 && |s.slots| <= cap
    ensures |Step(config, s, e).slots| <= cap
  {
    match e {
      case Ask(inst, now, item) =>
        hide Acquire, Valid;
        var p := ParamsOf(config, inst, now, item);
        AcquireSlots(s, p);
        SubsetSize(Reclaimed(Beaten(s, p.instanceId)).slots.Keys, s.slots.Keys);
      case Free(slotId) => SubsetSize((s.slots - {slotId}).Keys, s.slots.Keys);
      case _ =>
    }
  }

  /** The slots never outnumber the configured concurrency, whatever the fleet does. */
  lemma {:induction false} SlotsCapped(config: QueueConfig, events: seq<Event>, cap: int)
    requires config.concurrency == Some(cap) && cap > 0
    ensures |Run(config, Empty, events).slots| <= cap
  {
    if events != [] {
      hide Step;
      SlotsCapped(config, events[..|events| - 1], cap);
      StepCapped(config, Run(config, Empty, events[..|events| - 1]), events[|events| - 1], cap);
    }
  }

  /** An admission takes a slot of its own exactly when its id holds none yet. */
  lemma AdmissionTakesSlot(config: QueueConfig, s: Shared, inst: Instance, now: int, item: Item)
    requires Valid(s) && Admits(config, s, Ask(inst, now, item))
    ensures var p := ParamsOf(config, inst, now, item);
      var held := Reclaimed(Beaten(s, inst.id)).slots;
      var after := Step(config, s, Ask(inst, now, item)).slots;
      && p.waiterId in after && after[p.waiterId] == inst.id
      && (|after| == |held| + 1 <==> p.waiterId !in held)
      && (|after| == |held| <==> p.waiterId in held)
  {
    hide Acquire, Valid;
    var p := ParamsOf(config, inst, now, item);
    AcquireSlots(s, p);
    OneMore(Reclaimed(Beaten(s, inst.id)).slots, p.waiterId, p.instanceId);
  }

  lemma OneMore(held: map<string, string>, id: string, owner: string)
    ensures |held[id := owner]| == |held| + if id in held then 0 else 1
  {
    assert held[id := owner].Keys == held.Keys + {id};
  }

  /**
   * Two calls without a waiter id in the same millisecond share one slot: both are admitted, one
   * slot is held. Calls that carry distinct ids are not affected (`AdmissionTakesSlot`).
   */
  lemma AnonymousCallsShareSlot(inst: Instance, now: int)
    ensures var config := QueueConfig(Some(2), None, None, false, false);
      var ask := Ask(inst, now, Item(None, None, None));
      var s1 := Run(config, Empty, [ask]);
      Admits(config, Empty, ask) && Admits(config, s1, ask) && |Step(config, s1, ask).slots| == 1
  {
    var config := QueueConfig(Some(2), None, None, false, false);
    var ask := Ask(inst, now, Item(None, None, None));
    var p := ParamsOf(config, inst, now, ask.item);
    assert [ask][..0] == [];
    var s1 := Run(config, Empty, [ask]);
    assert s1 == Step(config, Run(config, Empty, []), ask) == Step(config, Empty, ask);
    assert Cleaned(Empty, p).slots == map[];
    assert s1.slots == map[p.waiterId := inst.id];
    assert Cleaned(s1, p).slots == s1.slots;
    assert |s1.slots.Keys| == 1;
    assert Step(config, s1, ask).slots == s1.slots;
  }

  /** A call without a waiter id goes by the time it was made at. */
  lemma AnonymousName(now: int)
    ensures now >= 0 ==> AnonymousId(now) == "anon:" + Decimal(now)
    ensures now < 0 ==> AnonymousId(now) == "anon:-" + Decimal(-now)
  {
    hide Decimal;
    if now < 0 { assert "anon:" + ("-" + Decimal(-now)) == "anon:-" + Decimal(-now); }
  }

  // ---------------------------------------------------------------- a live owner keeps its slot

  /** No event of the run gives `slotId` back, takes it again, or ends `owner`'s liveness. */
  ghost predicate Undisturbed(config: QueueConfig, events: seq<Event>, slotId: string, owner: string) {
    forall i :: 0 <= i < |events| ==>
      && events[i] != Free(slotId) && events[i] != Lapse(owner)
      && (events[i].Ask? ==> ParamsOf(config, events[i].inst, events[i].now, events[i].item).waiterId != slotId)
  }

  lemma StepKeepsSlot(config: QueueConfig, s: Shared, e: Event, slotId: string, owner: string)
    requires Valid(s) && Undisturbed(config, [e], slotId, owner)
    requires slotId in s.slots && s.slots[slotId] == owner && owner in s.alive
    ensures slotId in Step(config, s, e).slots && Step(config, s, e).slots[slotId] == owner
    ensures owner in Step(config, s, e).alive
  {
    assert [e][0] == e;
    if e.Ask? {
      AcquireSlots(s, ParamsOf(config, e.inst, e.now, e.item));
      AcquireAlive(s, ParamsOf(config, e.inst, e.now, e.item));
      hide Acquire, Valid;
    }
  }

  lemma UndisturbedParts(config: QueueConfig, events: seq<Event>, slotId: string, owner: string)
    requires events != [] && Undisturbed(config, events, slotId, owner)
    ensures Undisturbed(config, events[..|events| - 1], slotId, owner)
    ensures Undisturbed(config, [events[|events| - 1]], slotId, owner)
  {
    hide ParamsOf;
  }

  lemma AcquireAlive(s: Shared, p: Params)
    requires Valid(s)
    ensures Acquire(s, p).0.alive == s.alive + {p.instanceId}
  {
    hide Acquire, Valid, Cleaned, Enlisted, SlotTaken, Reclaimed, Beaten, RateClosed;
    AcquireShape(s, p);
    PartsFrame(s, p);
  }

  /** However long its step runs, a live owner's slot goes away only by release. */
  lemma {:induction false} LiveSlotKept(
      config: QueueConfig, s: Shared, events: seq<Event>, slotId: string, owner: string)
    requires Valid(s) && slotId in s.slots && s.slots[slotId] == owner && owner in s.alive
    requires Undisturbed(config, events, slotId, owner)
    ensures var end := Run(config, s, events);
      slotId in end.slots && end.slots[slotId] == owner && owner in end.alive
    decreases |events|
  {
    if events != [] {
      hide Step, Valid, Undisturbed;
      UndisturbedParts(config, events, slotId, owner);
      LiveSlotKept(config, s, events[..|events| - 1], slotId, owner);
      StepKeepsSlot(config, Run(config, s, events[..|events| - 1]), events[|events| - 1], slotId, owner);
    }
  }

  // ---------------------------------------------------------------- selection never comes up empty

  /** Some waiter is the rightful next, and only one is. */
  lemma OneRightfulNext(s: Shared, p: Params)
    requires Valid(s) && s.waiters != map[]
    ensures exists best :: RightfulNext(s, p, best) && forall id :: RightfulNext(s, p, id) ==> id == best
  {
    hide Ahead, InTier;
    SomeInTier(s);
    TierRegistered(s);
    var tier := set id | id in s.waiters && InTier(s, id);
    assert tier <= s.wmeta.Keys;
    var top :| InTier(s, top);
    assert top in tier;
    var best := Foremost(s, p, tier);
    assert RightfulNext(s, p, best);
    forall id | RightfulNext(s, p, id) ensures id == best {
      AheadTotal(s, p, id, best);
    }
  }

  lemma TierRegistered(s: Shared)
    ensures forall id :: InTier(s, id) ==> id in s.waiters
  {
  }

  lemma {:induction false} Foremost(s: Shared, p: Params, ids: set<string>) returns (best: string)
    requires Valid(s) && ids != {} && ids <= s.wmeta.Keys
    ensures best in ids && forall id :: id in ids ==> !Ahead(s, p, s.wmeta[id], s.wmeta[best])
  {
    hide Ahead, WellFormed, SeqIn;
    var pick :| pick in ids;
    best := pick;
    AheadTotal(s, p, pick, pick);
    var others := ids - {pick};
    assert forall id :: id in ids ==> id == pick || id in others;
    if others != {} {
      var other := Foremost(s, p, others);
      AheadTotal(s, p, pick, other);
      if Ahead(s, p, s.wmeta[other], s.wmeta[pick]) {
        best := other;
      } else {
        forall id | id in others ensures !Ahead(s, p, s.wmeta[id], s.wmeta[pick]) {
          if Ahead(s, p, s.wmeta[id], s.wmeta[pick]) {
            AheadTransitive(s, p, s.wmeta[id], s.wmeta[pick], s.wmeta[other]);
          }
        }
      }
    }
  }

  // ---------------------------------------------------------------- the rate window

  /** How many calls of the run were admitted in window `w`. */
  ghost function AdmittedIn(config: QueueConfig, events: seq<Event>, w: int): nat
    decreases |events|
  {
    if events == [] then 0
    else
      AdmittedIn(config, events[..|events| - 1], w) +
      InWindow(config, Run(config, Empty, events[..|events| - 1]), events[|events| - 1], w)
  }

  ghost function InWindow(config: QueueConfig, s: Shared, e: Event, w: int): nat
    requires Valid(s)
  {
    if Admits(config, s, e) && Window(config.rateLimit, e.now) == w then 1 else 0
  }

  function CountOf(s: Shared, w: int): nat { if w in s.rate then s.rate[w].count else 0 }

  /** A window's key lapses one period after an admission inside it, so after the window's end. */
  ghost predicate KeysOutliveWindows(period: int, rate: map<int, Counter>)
    requires period > 0
  {
    forall w :: w in rate ==> exists t :: t / period == w && rate[w].expiry == t + period
  }

  lemma OutlivesWindow(t: int, now: int, period: int)
    requires period > 0 && t / period == now / period
    ensures now < t + period
  {
    var w := t / period;
    assert t == w * period + t % period && now == w * period + now % period;
  }

  lemma AcquireRate(s: Shared, p: Params)
    requires Valid(s)
    ensures Acquire(s, p).0.rate == if Acquire(s, p).1 == Admitted then Counted(s.rate, p) else s.rate
    ensures Acquire(s, p).1 == Admitted && p.rateLimit > 0 ==> Used(s.rate, p) < p.rateLimit
  {
    hide Acquire, Valid, Cleaned, Enlisted, SlotTaken, Reclaimed, Beaten, Counted;
    AcquireShape(s, p);
    PartsFrame(s, p);
  }

  /** No window of the fixed grid admits more than the limit, across the whole fleet. */
  lemma {:induction false} WindowBounded(config: QueueConfig, events: seq<Event>, w: int)
    requires config.rateLimit.Some? && config.rateLimit.value.limit > 0 && config.rateLimit.value.periodMs > 0
    ensures AdmittedIn(config, events, w) <= config.rateLimit.value.limit
    ensures KeysOutliveWindows(config.rateLimit.value.periodMs, Run(config, Empty, events).rate)
    ensures AdmittedIn(config, events, w) == CountOf(Run(config, Empty, events), w)
    decreases |events|
  {
    if events != [] {
      hide Step, Admits, Run, KeysOutliveWindows;
      var front, e := events[..|events| - 1], events[|events| - 1];
      WindowBounded(config, front, w);
      StepWindow(config, Run(config, Empty, front), e, w);
      RunSnoc(config, events);
    } else {
      RunEmpty(config);
    }
  }

  lemma RunSnoc(config: QueueConfig, events: seq<Event>)
    requires events != []
    ensures Run(config, Empty, events) == Step(config, Run(config, Empty, events[..|events| - 1]), events[|events| - 1])
  {
  }

  lemma EmptyValid()
    ensures Valid(Empty)
  {
  }

  lemma RunEmpty(config: QueueConfig)
    ensures Run(config, Empty, []) == Empty
  {
  }

  lemma StepWindow(config: QueueConfig, s: Shared, e: Event, w: int)
    requires Valid(s)
    requires config.rateLimit.Some? && config.rateLimit.value.limit > 0 && config.rateLimit.value.periodMs > 0
    requires KeysOutliveWindows(config.rateLimit.value.periodMs, s.rate)
    requires CountOf(s, w) <= config.rateLimit.value.limit
    ensures KeysOutliveWindows(config.rateLimit.value.periodMs, Step(config, s, e).rate)
    ensures CountOf(Step(config, s, e), w) == CountOf(s, w) + InWindow(config, s, e, w)
    ensures CountOf(Step(config, s, e), w) <= config.rateLimit.value.limit
  {
    if e.Ask? {
      hide Acquire, Valid, KeysOutliveWindows, Used, Counted;
      var p := ParamsOf(config, e.inst, e.now, e.item);
      AcquireRate(s, p);
      CountedWindow(s, p, w);
      assert e.now / config.rateLimit.value.periodMs == p.window;
      FreshWindow(s, p);
    }
  }

  /** A key still stored for the window of `now` has not lapsed. */
  lemma FreshWindow(s: Shared, p: Params)
    requires p.ratePeriodMs > 0 && KeysOutliveWindows(p.ratePeriodMs, s.rate) && p.window == p.now / p.ratePeriodMs
    ensures Used(s.rate, p) == CountOf(s, p.window)
  {
    if p.window in s.rate {
      var t :| t / p.ratePeriodMs == p.window && s.rate[p.window].expiry == t + p.ratePeriodMs;
      OutlivesWindow(t, p.now, p.ratePeriodMs);
    }
  }

  lemma CountedWindow(s: Shared, p: Params, w: int)
    requires p.rateLimit > 0 && p.ratePeriodMs > 0 && p.window == p.now / p.ratePeriodMs
    requires KeysOutliveWindows(p.ratePeriodMs, s.rate)
    ensures KeysOutliveWindows(p.ratePeriodMs, Counted(s.rate, p))
    ensures w != p.window ==> (w in Counted(s.rate, p) <==> w in s.rate)
    ensures w != p.window && w in s.rate ==> Counted(s.rate, p)[w] == s.rate[w]
    ensures p.window in Counted(s.rate, p) && Counted(s.rate, p)[p.window].count == Used(s.rate, p) + 1
  {
  }

  // ---------------------------------------------------------------- and no call inside the limit is turned away

  /**
   * A call passes the rate limit exactly when fewer calls than the limit were admitted in its window,
   * whichever instances made them; whether it is then admitted does not depend on the limit.
   */
  lemma RateExactly(config: QueueConfig, events: seq<Event>, inst: Instance, now: int, item: Item)
    requires config.rateLimit.Some? && config.rateLimit.value.limit > 0 && config.rateLimit.value.periodMs > 0
    ensures var s, ask := Run(config, Empty, events), Ask(inst, now, item);
      Admits(config, s, ask) <==>
        AdmittedIn(config, events, now / config.rateLimit.value.periodMs) < config.rateLimit.value.limit
        && Admits(config.(rateLimit := None), s, ask)
  {
    hide Run, Admits, KeysOutliveWindows, Acquire, Valid;
    EmptyValid();
    var s, p := Run(config, Empty, events), ParamsOf(config, inst, now, item);
    WindowBounded(config, events, p.window);
    FreshWindow(s, p);
    PassesRate(config, s, inst, now, item);
  }

  lemma PassesRate(config: QueueConfig, s: Shared, inst: Instance, now: int, item: Item)
    requires Valid(s)
    requires config.rateLimit.Some? && config.rateLimit.value.limit > 0 && config.rateLimit.value.periodMs > 0
    requires var p := ParamsOf(config, inst, now, item); Used(s.rate, p) == CountOf(s, p.window)
    ensures var ask := Ask(inst, now, item);
      Admits(config, s, ask) <==>
        CountOf(s, now / config.rateLimit.value.periodMs) < config.rateLimit.value.limit
        && Admits(config.(rateLimit := None), s, ask)
  {
    var p, p0 := ParamsOf(config, inst, now, item), ParamsOf(config.(rateLimit := None), inst, now, item);
    RateAside(s, p, p0);
    hide Acquire, Valid;
  }

  /** Two calls that differ only in the rate limit are answered alike where neither limit closes. */
  lemma RateAside(s: Shared, p: Params, p0: Params)
    requires Valid(s) && p0.rateLimit <= 0 && p.waiterId == p0.waiterId
    requires p0 == p.(rateLimit := p0.rateLimit, ratePeriodMs := p0.ratePeriodMs, window := p0.window)
    ensures Acquire(s, p).1 == Admitted <==>
      !(p.rateLimit > 0 && Used(s.rate, p) >= p.rateLimit) && Acquire(s, p0).1 == Admitted
  {
    hide Valid, Cleaned, Enlisted, SlotTaken, RightfulNext, WellFormedMeta, Used;
    ValidWellFormed(s);
    SameCleaned(s, p, p0);
    CleanedValid(s, p);
    ValidWellFormed(Cleaned(s, p));
    EnlistedValid(Cleaned(s, p), p);
    ValidWellFormed(Enlisted(Cleaned(s, p), p));
    SameEnlisting(Cleaned(s, p), p, p0);
    SameNext(Enlisted(Cleaned(s, p), p), p, p0);
    PartsFrame(s, p);
  }

  lemma SameCleaned(s: Shared, p: Params, p0: Params)
    requires p0.instanceId == p.instanceId && p0.now == p.now
    ensures Cleaned(s, p0) == Cleaned(s, p)
  {
    hide Reclaimed, Pruned;
  }

  lemma SameEnlisting(s: Shared, p: Params, p0: Params)
    requires p0 == p.(rateLimit := p0.rateLimit, ratePeriodMs := p0.ratePeriodMs, window := p0.window)
    ensures Enlisted(s, p0) == Enlisted(s, p)
  {
    hide Meta;
  }

  lemma SameNext(s: Shared, p: Params, p0: Params)
    requires WellFormedMeta(s) && p0.fairnessOn == p.fairnessOn && p0.lifo == p.lifo
    ensures RightfulNext(s, p0, p.waiterId) <==> RightfulNext(s, p, p.waiterId)
  {
    hide InTier, WellFormed, SeqIn, KeyIn;
  }

  /** Where nothing is ordered and there is no cap, nothing but the rate limit turns a call away. */
  lemma RateAlone(config: QueueConfig, events: seq<Event>, inst: Instance, now: int)
    requires config.rateLimit.Some? && config.rateLimit.value.limit > 0 && config.rateLimit.value.periodMs > 0
    requires config.concurrency.None? && !config.fairByKey && !config.lifo
    ensures var s, ask := Run(config, Empty, events), Ask(inst, now, Item(None, None, None));
      Admits(config, s, ask) <==>
        AdmittedIn(config, events, now / config.rateLimit.value.periodMs) < config.rateLimit.value.limit
  {
    hide Run, Admits, AdmittedIn, Valid;
    EmptyValid();
    RateExactly(config, events, inst, now, Item(None, None, None));
    NothingElse(config.(rateLimit := None), Run(config, Empty, events), inst, now);
  }

  lemma NothingElse(config: QueueConfig, s: Shared, inst: Instance, now: int)
    requires Valid(s) && config.rateLimit.None? && config.concurrency.None? && !config.fairByKey && !config.lifo
    ensures Admits(config, s, Ask(inst, now, Item(None, None, None)))
  {
    hide Cleaned, SlotTaken, Valid, WellFormedMeta;
    var p := ParamsOf(config, inst, now, Item(None, None, None));
    ValidWellFormed(s);
    CleanedValid(s, p);
    ValidWellFormed(Cleaned(s, p));
  }

  /** A limit or a period that is not positive closes nothing. */
  lemma NoRate(config: QueueConfig, events: seq<Event>, inst: Instance, now: int, item: Item)
    requires config.rateLimit.Some?
    requires config.rateLimit.value.limit <= 0 || config.rateLimit.value.periodMs <= 0
    ensures var s, ask := Run(config, Empty, events), Ask(inst, now, item);
      Admits(config, s, ask) <==> Admits(config.(rateLimit := None), s, ask)
  {
    hide Run, Acquire, Valid;
    EmptyValid();
    var s := Run(config, Empty, events);
    var p, p0 := ParamsOf(config, inst, now, item), ParamsOf(config.(rateLimit := None), inst, now, item);
    RateAside(s, p, p0);
    if config.rateLimit.value.limit > 0 { NothingCounted(config, events); }
  }

  lemma StillNothing(config: QueueConfig, s: Shared, e: Event)
    requires Valid(s) && s.rate == map[]
    requires config.rateLimit.Some? && config.rateLimit.value.limit > 0 && config.rateLimit.value.periodMs <= 0
    ensures Step(config, s, e).rate == map[]
  {
    hide Acquire, Valid;
    if e.Ask? { AcquireRate(s, ParamsOf(config, e.inst, e.now, e.item)); }
  }

  lemma {:induction false} NothingCounted(config: QueueConfig, events: seq<Event>)
    requires config.rateLimit.Some? && config.rateLimit.value.limit > 0 && config.rateLimit.value.periodMs <= 0
    ensures Run(config, Empty, events).rate == map[]
    decreases |events|
  {
    if events != [] {
      hide Run, Step, Valid;
      EmptyValid();
      var front, e := events[..|events| - 1], events[|events| - 1];
      NothingCounted(config, front);
      RunSnoc(config, events);
      StillNothing(config, Run(config, Empty, front), e);
    } else {
      RunEmpty(config);
    }
  }
}
