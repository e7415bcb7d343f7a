/**
 * When the in-process controller admits a call, said outright: in terms of its configuration, the slots
 * in use, the calls counted in its window, and who else is waiting since when.
 */
module QueueMeaning {
  import opened Basics
  import opened Admission
  import opened Queue

  /** How many calls still count against the rate limit at `now`: a window over a period old counts none. */
  function CountedNow(config: QueueConfig, s: State, now: int): nat
    requires config.rateLimit.Some?
  {
    if now - s.windowStart >= config.rateLimit.value.periodMs then 0 else s.windowCount
  }

  predicate WindowOpen(config: QueueConfig, s: State, now: int) {
    config.rateLimit.Some? ==> CountedNow(config, s, now) < config.rateLimit.value.limit
  }

  predicate SlotFree(config: QueueConfig, s: State) {
    config.concurrency.Some? ==> s.inFlight < config.concurrency.value
  }

  /** Neither the queue nor the call says anything of an order. */
  predicate Plain(config: QueueConfig, item: Item) {
    !config.fairByKey && !config.lifo && item.priority == None && item.waiterId == None
  }

  function PriorityIn(item: Item): int { match item.priority case Some(p) => p case None => 0 }

  /** When a key was last served; never, for a key that was not and for no key. */
  function LastServed(s: State, key: Option<string>): nat {
    match key
    case None => 0
    case Some(k) => if k in s.keyServed then s.keyServed[k] else 0
  }

  /** A waiter goes before a call of this priority and key that arrived at `arrival`, or has not arrived before. */
  predicate GoesBefore(
      config: QueueConfig, s: State, w: Waiter, priority: int, key: Option<string>, arrival: Option<nat>)
  {
    || w.priority > priority
    || (w.priority == priority && config.fairByKey && LastServed(s, w.key) < LastServed(s, key))
    || (w.priority == priority && (config.fairByKey ==> LastServed(s, w.key) == LastServed(s, key)) &&
        w.arrival.Some? &&
        match arrival
          case None => !config.lifo
          case Some(n) => if config.lifo then w.arrival.value > n else w.arrival.value < n)
  }

  /** The number the call is known by: the one it waits under, else the next; a call without an id has none. */
  function ArrivalOf(s: State, item: Item): Option<nat> {
    match item.waiterId
    case None => None
    case Some(id) => if id in s.waiters then s.waiters[id].arrival else Some(s.waiterSeq)
  }

  predicate Waits(s: State, item: Item, id: string) { id in s.waiters && item.waiterId != Some(id) }

  /** No one who waits, but for the caller itself, goes before it. */
  ghost predicate NobodyBefore(config: QueueConfig, s: State, item: Item) {
    forall id :: Waits(s, item, id) ==>
      !GoesBefore(config, s, s.waiters[id], PriorityIn(item), item.key, ArrivalOf(s, item))
  }

  /** Everybody who waits has a number. */
  predicate Arrived(s: State) { forall id :: id in s.waiters ==> s.waiters[id].arrival.Some? }

  /**
   * A call is admitted exactly when the window is open, a slot is free, and it is plain or nobody who
   * waits goes before it.
   */
  lemma AdmittedExactly(config: QueueConfig, s: State, now: int, item: Item)
    requires Arrived(s)
    ensures TryAdmit(config, s, now, item).1 == Admitted <==>
      WindowOpen(config, s, now) && SlotFree(config, s) && (Plain(config, item) || NobodyBefore(config, s, item))
  {
    hide Took, Better, GoesBefore, ServedOf, Registered;
    var s0 := Rolled(config, s, now);
    if Ordered(config, item) && s0.waiters != map[] { NextExactly(config, s0, item); }
    SameBefore(config, s, s0, item);
  }

  lemma SameBefore(config: QueueConfig, s: State, s0: State, item: Item)
    requires s0.waiters == s.waiters && s0.keyServed == s.keyServed && s0.waiterSeq == s.waiterSeq
    ensures NobodyBefore(config, s0, item) <==> NobodyBefore(config, s, item)
  {
  }

  lemma NextExactly(config: QueueConfig, s: State, item: Item)
    requires Arrived(s)
    ensures IsNext(config, Registered(s, item), item) <==> NobodyBefore(config, s, item)
  {
    hide Better, GoesBefore;
    var s1 := Registered(s, item);
    if item.waiterId.Some? { NotBeforeItself(config, s1, s1.waiters[item.waiterId.value]); }
    forall id | Waits(s, item, id)
      ensures id in s1.waiters && s1.waiters[id] == s.waiters[id]
      ensures Better(config, s1, s1.waiters[id], Caller(s1, item)) <==>
        GoesBefore(config, s, s.waiters[id], PriorityIn(item), item.key, ArrivalOf(s, item))
    {
      OneBefore(config, s, s1, s.waiters[id], item);
    }
  }

  lemma NotBeforeItself(config: QueueConfig, s: State, w: Waiter)
    ensures !Better(config, s, w, w)
  {
  }

  lemma OneBefore(config: QueueConfig, s: State, s1: State, w: Waiter, item: Item)
    requires w.arrival.Some? && s1 == Registered(s, item)
    ensures Better(config, s1, w, Caller(s1, item)) <==>
      GoesBefore(config, s, w, PriorityIn(item), item.key, ArrivalOf(s, item))
  {
    assert s1.keyServed == s.keyServed;
  }

  /**
   * What a blocked call is told: when the window reopens, or to come back after the retry time, a second
   * by default.
   */
  lemma ToldWhen(config: QueueConfig, s: State, now: int, item: Item)
    ensures var verdict := TryAdmit(config, s, now, item).1;
      verdict.Blocked? ==>
        verdict.retryAt ==
          if !WindowOpen(config, s, now) then
            (if now - s.windowStart >= config.rateLimit.value.periodMs then now else s.windowStart)
            + config.rateLimit.value.periodMs
          else now + if config.retryMs.Some? then config.retryMs.value else 1000
  {
    hide IsNext, Took, Registered;
  }

  /**
   * An admitted call takes a slot, counts in the window, and is the one its key was served by last; a
   * blocked one does not.
   */
  lemma CountsAfter(config: QueueConfig, s: State, now: int, item: Item)
    ensures var (s2, verdict) := TryAdmit(config, s, now, item);
      && s2.inFlight == s.inFlight + (if verdict == Admitted then 1 else 0)
      && (verdict == Admitted && config.rateLimit.Some? ==> s2.windowCount == CountedNow(config, s, now) + 1)
      && s2.keyServed == (if verdict == Admitted && item.key.Some?
                          then s.keyServed[item.key.value := s.servedTick + 1] else s.keyServed)
      && s2.servedTick == s.servedTick + (if verdict == Admitted && item.key.Some? then 1 else 0)
  {
    hide IsNext, Registered, Took;
    var s0 := Rolled(config, s, now);
    RegisteredKeeps(s0, item);
    TookCounts(config, s0, item);
    TookCounts(config, Registered(s0, item), item);
  }

  lemma RegisteredKeeps(s: State, item: Item)
    ensures Registered(s, item)
      == s.(waiters := Registered(s, item).waiters, waiterSeq := Registered(s, item).waiterSeq)
  {
  }

  lemma TookCounts(config: QueueConfig, s: State, item: Item)
    ensures var s2 := Took(config, s, item);
      && s2.inFlight == s.inFlight + 1
      && s2.windowCount == s.windowCount + (if config.rateLimit.Some? then 1 else 0)
      && s2.keyServed == (if item.key.Some? then s.keyServed[item.key.value := s.servedTick + 1] else s.keyServed)
      && s2.servedTick == s.servedTick + (if item.key.Some? then 1 else 0)
  {
  }

  /**
   * It gives up its place. A call blocked by the cap or by others keeps its place, under the number it had
   * or the next one, with its latest hints; one blocked by the window is not noted at all.
   */
  lemma LineAfter(config: QueueConfig, s: State, now: int, item: Item)
    ensures var (s2, verdict) := TryAdmit(config, s, now, item);
      s2.waiters ==
        if verdict == Admitted then (if item.waiterId.Some? then s.waiters - {item.waiterId.value} else s.waiters)
        else if item.waiterId.None? || !WindowOpen(config, s, now) then s.waiters
        else s.waiters[item.waiterId.value := Waiter(PriorityIn(item), item.key, ArrivalOf(s, item))]
  {
    hide IsNext, Served, Took;
    TookLine(config, Rolled(config, s, now), item);
    TookLine(config, Registered(Rolled(config, s, now), item), item);
    if item.waiterId.Some? {
      var id := item.waiterId.value;
      assert s.waiters[id := Waiter(PriorityIn(item), item.key, ArrivalOf(s, item))] - {id} == s.waiters - {id};
    }
  }

  lemma TookLine(config: QueueConfig, s: State, item: Item)
    ensures Took(config, s, item).waiters ==
      if item.waiterId.Some? then s.waiters - {item.waiterId.value} else s.waiters
  {
  }

  /** A slot given back is one fewer in use, and nothing else. */
  lemma GivenBack(s: State)
    ensures Release(s) == s.(inFlight := if s.inFlight == 0 then 0 else s.inFlight - 1)
  {
  }
}
