/**
 * Fleet-wide admission: the keys one queue keeps in Redis, the script that decides one call on them
 * atomically, and the instances that call it.
 */
module RedisAdmission {
  import opened Basics
  import opened Admission

  /** A rate window's counter and when its key lapses. */
  datatype Counter = Counter(count: nat, expiry: int)

  /** The keys of one queue, and the instances whose heartbeat key has not lapsed. */
  datatype Shared = Shared(
    slots: map<string, string>, waiters: map<string, int>, wmeta: map<string, string>,
    wexpire: map<string, int>, keyserved: map<string, nat>, rate: map<int, Counter>,
    seqNo: nat, servedSeq: nat, alive: set<string>)

  const Empty := Shared(map[], map[], map[], map[], map[], map[], 0, 0, {})

  datatype Instance = Instance(id: string, waiterTtlMs: int, retryMs: int)

  datatype Params = Params(
    now: int, instanceId: string, concurrency: int, rateLimit: int, ratePeriodMs: int, window: int,
    waiterId: string, priority: int, retryAt: int, hasOrdering: bool, fairnessOn: bool, fairKey: string,
    waiterTtl: int, lifo: bool)

  // ---------------------------------------------------------------- a waiter's "seq|key" record

  function Meta(number: nat, key: string): string { Decimal(number) + "|" + key }

  /** Where the first bar is, or the length when there is none. */
  function Bar(meta: string): (at: nat)
    ensures at <= |meta| && (at < |meta| ==> meta[at] == '|') && '|' !in meta[..at]
  {
    if meta == [] || meta[0] == '|' then 0 else
      var at := 1 + Bar(meta[1..]);
      assert meta[..at] == [meta[0]] + meta[1..][..at - 1];
      at
  }

  predicate WellFormed(meta: string) {
    Bar(meta) < |meta| && AllDigits(meta[..Bar(meta)])
  }

  function SeqIn(meta: string): nat
    requires WellFormed(meta)
  {
    Parse(meta[..Bar(meta)])
  }

  function KeyIn(meta: string): string
    requires WellFormed(meta)
  {
    meta[Bar(meta) + 1..]
  }

  /** A record reads back as the number and key it was written with, whatever bars the key holds. */
  lemma MetaRoundTrip(number: nat, key: string)
    ensures WellFormed(Meta(number, key))
    ensures SeqIn(Meta(number, key)) == number && KeyIn(Meta(number, key)) == key
  {
    var meta, n := Meta(number, key), |Decimal(number)|;
    assert meta[n] == '|' && meta[..n] == Decimal(number);
    forall i | 0 <= i < n ensures meta[i] != '|' { assert IsDigit(meta[..n][i]); }
    assert Bar(meta) <= n by { assert forall i :: 0 <= i < Bar(meta) ==> meta[..Bar(meta)][i] == meta[i]; }
  }

  // ---------------------------------------------------------------- the parts of the script

  function Beaten(s: Shared, instance: string): Shared { s.(alive := s.alive + {instance}) }

  /** Slots whose owner is gone are freed. */
  function Reclaimed(s: Shared): Shared {
    s.(slots := map id | id in s.slots && s.slots[id] in s.alive :: s.slots[id])
  }

  function Stale(s: Shared, now: int): set<string> {
    set id | id in s.wexpire && s.wexpire[id] <= now
  }

  /** Waiters that stopped retrying are dropped. */
  function Pruned(s: Shared, now: int): Shared {
    s.(waiters := s.waiters - Stale(s, now), wmeta := s.wmeta - Stale(s, now), wexpire := s.wexpire - Stale(s, now))
  }

  /** The count of the caller's rate window; a lapsed key reads as zero. */
  function Used(rate: map<int, Counter>, p: Params): nat {
    if p.window in rate && p.now < rate[p.window].expiry then rate[p.window].count else 0
  }

  predicate RateClosed(s: Shared, p: Params) { p.rateLimit > 0 && Used(s.rate, p) >= p.rateLimit }

  predicate Full(s: Shared, p: Params) { p.concurrency > 0 && |s.slots| >= p.concurrency }

  /** The caller takes a place in line, or refreshes the one it has. */
  function Enlisted(s: Shared, p: Params): Shared {
    var s1 := if p.waiterId in s.waiters then s
      else s.(seqNo := s.seqNo + 1, wmeta := s.wmeta[p.waiterId := Meta(s.seqNo + 1, p.fairKey)]);
    s1.(waiters := s1.waiters[p.waiterId := -p.priority],
        wexpire := s1.wexpire[p.waiterId := p.now + p.waiterTtl])
  }

  predicate InTier(s: Shared, id: string) {
    id in s.waiters && forall other :: other in s.waiters ==> s.waiters[id] <= s.waiters[other]
  }

  function ServedAt(s: Shared, fairnessOn: bool, key: string): nat {
    if fairnessOn && key != "" && key in s.keyserved then s.keyserved[key] else 0
  }

  /** Within a tier: the key served longer ago, then the arrival number. */
  predicate Ahead(s: Shared, p: Params, a: string, b: string)
    requires WellFormed(a) && WellFormed(b)
  {
    var servedA, servedB := ServedAt(s, p.fairnessOn, KeyIn(a)), ServedAt(s, p.fairnessOn, KeyIn(b));
    servedA < servedB || (servedA == servedB && if p.lifo then SeqIn(a) > SeqIn(b) else SeqIn(a) < SeqIn(b))
  }

  ghost predicate WellFormedMeta(s: Shared) {
    forall id :: id in s.wmeta ==> WellFormed(s.wmeta[id])
  }

  /** `id` is in the top tier, and no one else there is ahead of it. */
  ghost predicate RightfulNext(s: Shared, p: Params, id: string)
    requires WellFormedMeta(s)
  {
    && InTier(s, id) && id in s.wmeta
    && forall other :: InTier(s, other) && other in s.wmeta ==> !Ahead(s, p, s.wmeta[other], s.wmeta[id])
  }

  /** The rate keys after an admission: its window's key lapses a period after its last admission. */
  function Counted(rate: map<int, Counter>, p: Params): map<int, Counter> {
    if p.rateLimit <= 0 then rate
    else if p.ratePeriodMs <= 0 then rate - {p.window}
    else rate[p.window := Counter(Used(rate, p) + 1, p.now + p.ratePeriodMs)]
  }

  function SlotTaken(s: Shared, p: Params): Shared {
    var s1 := s.(slots := s.slots[p.waiterId := p.instanceId], waiters := s.waiters - {p.waiterId},
                 wmeta := s.wmeta - {p.waiterId}, wexpire := s.wexpire - {p.waiterId});
    var s2 := if p.fairnessOn && p.fairKey != "" then
        s1.(servedSeq := s1.servedSeq + 1, keyserved := s1.keyserved[p.fairKey := s1.servedSeq + 1])
      else s1;
    s2.(rate := Counted(s.rate, p))
  }

  function Cleaned(s: Shared, p: Params): Shared {
    Pruned(Reclaimed(Beaten(s, p.instanceId)), p.now)
  }

  /** One acquire: the script's verdict and the keys after it. */
  ghost function Acquire(s: Shared, p: Params): (Shared, Verdict)
    requires WellFormedMeta(s)
  {
    var s0 := Cleaned(s, p);
    if RateClosed(s0, p) then (s0, Blocked(p.retryAt))
    else if Full(s0, p) then (if p.hasOrdering then Enlisted(s0, p) else s0, Blocked(p.retryAt))
    else if p.hasOrdering then
      EnlistedWellFormed(s0, p);
      var s1 := Enlisted(s0, p);
      if RightfulNext(s1, p, p.waiterId) then (SlotTaken(s1, p), Admitted) else (s1, Blocked(p.retryAt))
    else (SlotTaken(s0, p), Admitted)
  }

  lemma EnlistedWellFormed(s: Shared, p: Params)
    requires WellFormedMeta(s)
    ensures WellFormedMeta(Enlisted(s, p))
  {
    MetaRoundTrip(s.seqNo + 1, p.fairKey);
  }

  // ---------------------------------------------------------------- the instances' calls

  function Window(rate: Option<RateLimit>, now: int): int {
    if rate.Some? && rate.value.periodMs > 0 then now / rate.value.periodMs else 0
  }

  /** What an instance asks the script for one call. */
  function ParamsOf(config: QueueConfig, inst: Instance, now: int, item: Item): Params {
    Params(
      now, inst.id,
      if config.concurrency.Some? then config.concurrency.value else 0,
      if config.rateLimit.Some? then config.rateLimit.value.limit else 0,
      if config.rateLimit.Some? then config.rateLimit.value.periodMs else 0,
      Window(config.rateLimit, now),
      if item.waiterId.Some? then item.waiterId.value else AnonymousId(now),
      PriorityOf(item), now + inst.retryMs,
      item.waiterId.Some? || item.priority.Some? || config.fairByKey || config.lifo,
      config.fairByKey,
      if config.fairByKey && item.key.Some? then item.key.value else "",
      inst.waiterTtlMs, config.lifo)
  }

  function AnonymousId(now: int): string {
    "anon:" + if now < 0 then "-" + Decimal(-now) else Decimal(now)
  }

  // ---------------------------------------------------------------- the keys' invariant

  /**
   * The three waiter keys hold the same ids, every record is readable, and arrival numbers are
   * distinct and already handed out.
   */
  ghost predicate Valid(s: Shared) {
    s.waiters.Keys == s.wmeta.Keys == s.wexpire.Keys && Numbered(s.wmeta, s.seqNo)
  }

  ghost predicate Numbered(wmeta: map<string, string>, last: nat) {
    && (forall id :: id in wmeta ==> WellFormed(wmeta[id]))
    && (forall id :: id in wmeta ==> SeqIn(wmeta[id]) <= last)
    && (forall a, b :: a in wmeta && b in wmeta && a != b ==> SeqIn(wmeta[a]) != SeqIn(wmeta[b]))
  }

  lemma NumberedAdd(wmeta: map<string, string>, last: nat, id: string, key: string)
    requires Numbered(wmeta, last)
    ensures Numbered(wmeta[id := Meta(last + 1, key)], last + 1)
  {
    MetaRoundTrip(last + 1, key);
    hide WellFormed, SeqIn, Meta;
  }

  lemma NumberedRemove(wmeta: map<string, string>, last: nat, ids: set<string>)
    requires Numbered(wmeta, last)
    ensures Numbered(wmeta - ids, last)
  {
    hide WellFormed, SeqIn;
  }

  lemma AheadTotal(s: Shared, p: Params, a: string, b: string)
    requires Valid(s) && a in s.wmeta && b in s.wmeta
    ensures !Ahead(s, p, s.wmeta[a], s.wmeta[a])
    ensures a != b ==> (Ahead(s, p, s.wmeta[a], s.wmeta[b]) <==> !Ahead(s, p, s.wmeta[b], s.wmeta[a]))
  {
  }

  lemma AheadTransitive(s: Shared, p: Params, a: string, b: string, c: string)
    requires WellFormed(a) && WellFormed(b) && WellFormed(c)
    requires Ahead(s, p, a, b) && Ahead(s, p, b, c)
    ensures Ahead(s, p, a, c)
  {
  }

  // ---------------------------------------------------------------- the script, step by step

  /** Midway through reclaiming: `rest` is still to be looked at, `inflight` of the others are live. */
  ghost predicate Survivors(
      was: map<string, string>, slots: map<string, string>, rest: set<string>, alive: set<string>, inflight: nat)
  {
    && rest <= slots.Keys
    && (forall id :: id in slots ==> id in was && slots[id] == was[id] && (id in rest || was[id] in alive))
    && (forall id :: id in was && was[id] in alive ==> id in slots)
    && inflight == |slots.Keys - rest|
  }

  lemma SurvivorsStart(slots: map<string, string>, alive: set<string>)
    ensures Survivors(slots, slots, slots.Keys, alive, 0)
  {
    assert slots.Keys - slots.Keys == {};
  }

  lemma SurvivorsStep(
      was: map<string, string>, slots: map<string, string>, rest: set<string>, alive: set<string>, inflight: nat,
      id: string)
    requires Survivors(was, slots, rest, alive, inflight) && id in rest
    ensures id in slots
    ensures slots[id] in alive ==> Survivors(was, slots, rest - {id}, alive, inflight + 1)
    ensures slots[id] !in alive ==> Survivors(was, slots - {id}, rest - {id}, alive, inflight)
  {
    assert slots.Keys - (rest - {id}) == (slots.Keys - rest) + {id};
    assert (slots - {id}).Keys - (rest - {id}) == slots.Keys - rest;
  }

  lemma SurvivorsEnd(was: map<string, string>, slots: map<string, string>, alive: set<string>, inflight: nat)
    requires Survivors(was, slots, {}, alive, inflight)
    ensures slots == map id | id in was && was[id] in alive :: was[id]
    ensures inflight == |slots|
  {
    assert slots.Keys - {} == slots.Keys;
  }

  class AdmissionKeys {
    var slots: map<string, string>
    var waiters: map<string, int>
    var wmeta: map<string, string>
    var wexpire: map<string, int>
    var keyserved: map<string, nat>
    var rate: map<int, Counter>
    var seqNo: nat
    var servedSeq: nat
    var alive: set<string>

    constructor ()
      ensures AsShared() == Empty
    {
      slots, waiters, wmeta, wexpire, keyserved, rate := map[], map[], map[], map[], map[], map[];
      seqNo, servedSeq, alive := 0, 0, {};
    }

    function AsShared(): Shared
      reads this
    {
      Shared(slots, waiters, wmeta, wexpire, keyserved, rate, seqNo, servedSeq, alive)
    }

    /** Free the slots of instances that are gone, and count the others. */
    method ReclaimSlots() returns (inflight: nat)
      modifies this`slots
      ensures AsShared() == Reclaimed(old(AsShared()))
      ensures inflight == |slots|
    {
      hide Survivors;
      var rest := slots.Keys;
      inflight := 0;
      SurvivorsStart(slots, alive);
      while rest != {}
        invariant Survivors(old(slots), slots, rest, alive, inflight)
        decreases rest
      {
        var id :| id in rest;
        SurvivorsStep(old(slots), slots, rest, alive, inflight, id);
        var owner := slots[id];
        if owner in alive { inflight := inflight + 1; } else { slots := slots - {id}; }
        rest := rest - {id};
      }
      SurvivorsEnd(old(slots), slots, alive, inflight);
    }

    /** Drop the waiters that stopped retrying. */
    method PruneWaiters(now: int)
      modifies this`waiters, this`wmeta, this`wexpire
      ensures AsShared() == Pruned(old(AsShared()), now)
    {
      var stale := set id | id in wexpire && wexpire[id] <= now;
      ghost var all := stale;
      while stale != {}
        invariant stale <= all
        invariant waiters == old(waiters) - (all - stale)
        invariant wmeta == old(wmeta) - (all - stale)
        invariant wexpire == old(wexpire) - (all - stale)
        decreases stale
      {
        var id :| id in stale;
        waiters, wmeta, wexpire := waiters - {id}, wmeta - {id}, wexpire - {id};
        stale := stale - {id};
      }
      assert all - stale == all;
    }

    method Enlist(p: Params)
      modifies this`waiters, this`wmeta, this`wexpire, this`seqNo
      ensures AsShared() == Enlisted(old(AsShared()), p)
    {
      if p.waiterId !in waiters {
        seqNo := seqNo + 1;
        wmeta := wmeta[p.waiterId := Meta(seqNo, p.fairKey)];
      }
      waiters := waiters[p.waiterId := -p.priority];
      wexpire := wexpire[p.waiterId := p.now + p.waiterTtl];
    }

    /** The ids holding the lowest score. */
    method TopTier() returns (tier: set<string>)
      requires waiters != map[]
      ensures forall id :: id in tier <==> InTier(AsShared(), id)
    {
      var first :| first in waiters;
      var rest := waiters.Keys;
      var top := waiters[first];
      while rest != {}
        invariant rest <= waiters.Keys
        invariant exists id :: id in waiters && waiters[id] == top
        invariant forall id :: id in waiters && id !in rest ==> top <= waiters[id]
        decreases rest
      {
        var id :| id in rest;
        if waiters[id] < top { top := waiters[id]; }
        rest := rest - {id};
      }
      tier := set id | id in waiters && waiters[id] == top;
    }

    /** Scan the top tier for the waiter to serve next. */
    method SelectBest(p: Params) returns (best: Option<string>)
      requires Valid(AsShared()) && waiters != map[]
      ensures best.Some? && RightfulNext(AsShared(), p, best.value)
      ensures forall id :: RightfulNext(AsShared(), p, id) ==> best == Some(id)
    {
      hide Ahead, WellFormed, SeqIn;
      var tier := TopTier();
      var rest := tier;
      best := None;
      while rest != {}
        invariant rest <= tier
        invariant best.None? ==> rest == tier
        invariant best.Some? ==> best.value in tier - rest
        invariant best.Some? ==>
          forall id :: id in tier && id !in rest && id != best.value ==>
            Ahead(AsShared(), p, wmeta[best.value], wmeta[id])
        decreases rest
      {
        var id :| id in rest;
        var better := best.None? || Ahead(AsShared(), p, wmeta[id], wmeta[best.value]);
        if better {
          if best.Some? {
            forall other | other in tier && other !in rest && other != best.value
              ensures Ahead(AsShared(), p, wmeta[id], wmeta[other])
            {
              AheadTransitive(AsShared(), p, wmeta[id], wmeta[best.value], wmeta[other]);
            }
          }
          best := Some(id);
        } else {
          AheadTotal(AsShared(), p, id, best.value);
        }
        rest := rest - {id};
      }
      SomeInTier(AsShared());
      forall id | id in tier ensures !Ahead(AsShared(), p, wmeta[id], wmeta[best.value]) {
        AheadTotal(AsShared(), p, id, best.value);
      }
      forall id | RightfulNext(AsShared(), p, id) ensures best == Some(id) {
        AheadTotal(AsShared(), p, id, best.value);
      }
    }

    method Admit(p: Params)
      modifies this
      ensures AsShared() == SlotTaken(old(AsShared()), p)
    {
      hide Counted;
      slots := slots[p.waiterId := p.instanceId];
      waiters, wmeta, wexpire := waiters - {p.waiterId}, wmeta - {p.waiterId}, wexpire - {p.waiterId};
      if p.fairnessOn && p.fairKey != "" {
        servedSeq := servedSeq + 1;
        keyserved := keyserved[p.fairKey := servedSeq];
      }
      CountAdmission(p);
    }

    /** Count the admission against its window. */
    method CountAdmission(p: Params)
      modifies this`rate
      ensures rate == Counted(old(rate), p)
    {
      if p.rateLimit > 0 {
        var used := Used(rate, p);
        rate := rate[p.window := Counter(used + 1, p.now + p.ratePeriodMs)];
        if p.ratePeriodMs <= 0 {
          rate := rate - {p.window};
          assert rate == old(rate) - {p.window};
        }
      }
    }

    /** The whole script. */
    method TryAcquire(p: Params) returns (verdict: Verdict)
      requires Valid(AsShared())
      modifies this
      ensures Valid(AsShared())
      ensures (AsShared(), verdict) == Acquire(old(AsShared()), p)
    {
      hide RightfulNext, Enlisted, Valid, WellFormedMeta, Pruned, Reclaimed, SlotTaken;
      ValidWellFormed(AsShared());
      alive := alive + {p.instanceId};
      var inflight := ReclaimSlots();
      PruneWaiters(p.now);
      assert AsShared() == Cleaned(old(AsShared()), p);
      assert inflight == |slots| by { assert AsShared().slots == slots; }
      CleanedValid(old(AsShared()), p);
      EnlistedValid(AsShared(), p);
      if p.rateLimit > 0 {
        var used := Used(rate, p);
        if used >= p.rateLimit { return Blocked(p.retryAt); }
      }
      if p.concurrency > 0 && inflight >= p.concurrency {
        if p.hasOrdering { Enlist(p); }
        return Blocked(p.retryAt);
      }
      if p.hasOrdering {
        Enlist(p);
        EnlistedIn(Cleaned(old(AsShared()), p), p);
        ValidWellFormed(AsShared());
        var best := SelectBest(p);
        if best != Some(p.waiterId) { return Blocked(p.retryAt); }
      }
      SlotTakenValid(AsShared(), p);
      Admit(p);
      verdict := Admitted;
    }

    method RefreshLiveness(instance: string)
      modifies this`alive
      ensures AsShared() == Beaten(old(AsShared()), instance)
    {
      alive := alive + {instance};
    }

    method Release(slotId: string)
      modifies this`slots
      ensures AsShared() == old(AsShared()).(slots := old(slots) - {slotId})
    {
      slots := slots - {slotId};
    }
  }

  lemma EnlistedIn(s: Shared, p: Params)
    ensures p.waiterId in Enlisted(s, p).waiters && Enlisted(s, p).waiters != map[]
  {
  }

  lemma ValidWellFormed(s: Shared)
    requires Valid(s)
    ensures WellFormedMeta(s)
  {
  }

  /** A non-empty set of waiters has a top tier. */
  lemma SomeInTier(s: Shared)
    requires s.waiters != map[]
    ensures exists id :: InTier(s, id)
  {
    var first :| first in s.waiters;
    var least := LowestOf(s, s.waiters.Keys);
    assert InTier(s, least);
  }

  lemma {:induction false} LowestOf(s: Shared, ids: set<string>) returns (least: string)
    requires ids != {} && ids <= s.waiters.Keys
    ensures least in ids && forall id :: id in ids ==> s.waiters[least] <= s.waiters[id]
  {
    least :| least in ids;
    assert forall id :: id in ids ==> id == least || id in ids - {least};
    if ids - {least} != {} {
      var other := LowestOf(s, ids - {least});
      if s.waiters[other] < s.waiters[least] { least := other; }
    }
  }

  lemma CleanedValid(s: Shared, p: Params)
    requires Valid(s)
    ensures Valid(Cleaned(s, p))
  {
    hide Numbered;
    NumberedRemove(s.wmeta, s.seqNo, Stale(s, p.now));
  }

  lemma EnlistedValid(s: Shared, p: Params)
    requires Valid(s)
    ensures Valid(Enlisted(s, p))
  {
    hide Numbered, Meta;
    NumberedAdd(s.wmeta, s.seqNo, p.waiterId, p.fairKey);
  }

  lemma SlotTakenValid(s: Shared, p: Params)
    requires Valid(s)
    ensures Valid(SlotTaken(s, p))
  {
    hide Numbered;
    NumberedRemove(s.wmeta, s.seqNo, {p.waiterId});
  }

  // ---------------------------------------------------------------- an instance's backend

  /** One instance's view of one queue. A queue nothing was registered for is not gated. */
  class RedisAdmissionBackend {
    const instance: Instance
    const keys: AdmissionKeys
    var config: Option<QueueConfig>

    constructor (instance: Instance, keys: AdmissionKeys)
      requires Valid(keys.AsShared())
      modifies keys`alive
      ensures this.instance == instance && this.keys == keys && config == None
      ensures keys.AsShared() == Beaten(old(keys.AsShared()), instance.id)
    {
      this.instance, this.keys, this.config := instance, keys, None;
      new;
      keys.RefreshLiveness(instance.id);
    }

    method Register(config: QueueConfig)
      modifies this
      ensures this.config == Some(config)
    {
      this.config := Some(config);
    }

    method TryToAdmit(now: int, item: Item) returns (verdict: Verdict)
      requires Valid(keys.AsShared())
      modifies keys
      ensures config.None? ==> verdict == Admitted && keys.AsShared() == old(keys.AsShared())
      ensures config.Some? ==>
        (keys.AsShared(), verdict) == Acquire(old(keys.AsShared()), ParamsOf(config.value, instance, now, item))
      ensures Valid(keys.AsShared())
    {
      if config.None? { return Admitted; }
      verdict := keys.TryAcquire(ParamsOf(config.value, instance, now, item));
    }

    method ReleaseSlot(slotId: string)
      requires Valid(keys.AsShared())
      modifies keys`slots
      ensures keys.AsShared() == old(keys.AsShared()).(slots := old(keys.slots) - {slotId})
    {
      keys.Release(slotId);
    }
  }
}
