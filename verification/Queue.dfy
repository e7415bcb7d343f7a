/**
 * Flow control for dispatched steps: what a queue is configured with, what a call may hint, and the
 * in-process controller that admits or blocks each call.
 */
module Admission {
  import opened Basics

  datatype RateLimit = RateLimit(limit: int, periodMs: int)

  datatype QueueConfig = QueueConfig(
    concurrency: Option<int>, rateLimit: Option<RateLimit>, retryMs: Option<int>,
    fairByKey: bool, lifo: bool)

  datatype Item = Item(priority: Option<int>, key: Option<string>, waiterId: Option<string>)

  datatype Verdict = Admitted | Blocked(retryAt: int)

  function PriorityOf(item: Item): int {
    if item.priority.Some? then item.priority.value else 0
  }
}

module Queue {
  import opened Basics
  import opened Admission

  /** A blocked call. `arrival` is its registration number; `None` (never registered) is after all. */
  datatype Waiter = Waiter(priority: int, key: Option<string>, arrival: Option<nat>)

  datatype State = State(
    inFlight: nat, windowStart: int, windowCount: nat, waiters: map<string, Waiter>, waiterSeq: nat,
    keyServed: map<string, nat>, servedTick: nat)

  const Initial := State(0, 0, 0, map[], 0, map[], 0)

  // ---------------------------------------------------------------- the admission order

  function ServedOf(s: State, key: Option<string>): nat {
    if key.Some? && key.value in s.keyServed then s.keyServed[key.value] else 0
  }

  predicate Before(a: Option<nat>, b: Option<nat>) {
    a.Some? && (b.None? || a.value < b.value)
  }

  /** Strictly preferred: higher priority; then, under fairness, the key served longer ago; then arrival. */
  predicate Better(config: QueueConfig, s: State, a: Waiter, b: Waiter) {
    if a.priority != b.priority then a.priority > b.priority
    else if config.fairByKey && ServedOf(s, a.key) != ServedOf(s, b.key) then
      ServedOf(s, a.key) < ServedOf(s, b.key)
    else if config.lifo then Before(b.arrival, a.arrival)
    else Before(a.arrival, b.arrival)
  }

  /** How the caller competes: as the waiter it is registered as, or on its hints alone. */
  function Caller(s: State, item: Item): Waiter {
    if item.waiterId.Some? && item.waiterId.value in s.waiters then s.waiters[item.waiterId.value]
    else Waiter(PriorityOf(item), item.key, None)
  }

  /** No registered waiter is preferred to the caller. */
  predicate IsNext(config: QueueConfig, s: State, item: Item) {
    forall id :: id in s.waiters ==> !Better(config, s, s.waiters[id], Caller(s, item))
  }

  // ---------------------------------------------------------------- one call

  function Registered(s: State, item: Item): State {
    if item.waiterId.None? then s
    else
      var id := item.waiterId.value;
      if id in s.waiters then
        s.(waiters := s.waiters[id := Waiter(PriorityOf(item), item.key, s.waiters[id].arrival)])
      else
        s.(waiters := s.waiters[id := Waiter(PriorityOf(item), item.key, Some(s.waiterSeq))],
           waiterSeq := s.waiterSeq + 1)
  }

  /** The rate window as of `now`. */
  function Rolled(config: QueueConfig, s: State, now: int): State {
    if config.rateLimit.Some? && now - s.windowStart >= config.rateLimit.value.periodMs
    then s.(windowStart := now, windowCount := 0) else s
  }

  predicate RateClosed(config: QueueConfig, s: State) {
    config.rateLimit.Some? && s.windowCount >= config.rateLimit.value.limit
  }

  predicate Full(config: QueueConfig, s: State) {
    config.concurrency.Some? && s.inFlight >= config.concurrency.value
  }

  predicate Ordered(config: QueueConfig, item: Item) {
    config.fairByKey || config.lifo || item.priority.Some? || item.waiterId.Some?
  }

  function Served(s: State, item: Item): State {
    if item.key.None? then s
    else s.(keyServed := s.keyServed[item.key.value := s.servedTick + 1], servedTick := s.servedTick + 1)
  }

  function Took(config: QueueConfig, s: State, item: Item): State {
    var s1 := if config.rateLimit.Some? then s.(windowCount := s.windowCount + 1) else s;
    var s2 := s1.(inFlight := s1.inFlight + 1);
    var s3 := if item.waiterId.Some? then s2.(waiters := s2.waiters - {item.waiterId.value}) else s2;
    Served(s3, item)
  }

  function RetryAt(config: QueueConfig, now: int): int {
    now + if config.retryMs.Some? then config.retryMs.value else 1000
  }

  /** One call: blocked by the rate window, by the cap, or by a better waiter; admitted otherwise. */
  function TryAdmit(config: QueueConfig, s: State, now: int, item: Item): (State, Verdict) {
    var s0 := Rolled(config, s, now);
    if RateClosed(config, s0) then
      (s0, Blocked(s0.windowStart + config.rateLimit.value.periodMs))
    else if Full(config, s0) then
      (Registered(s0, item), Blocked(RetryAt(config, now)))
    else if Ordered(config, item) && s0.waiters != map[] then
      var s1 := Registered(s0, item);
      if IsNext(config, s1, item) then (Took(config, s1, item), Admitted)
      else (s1, Blocked(RetryAt(config, now)))
    else (Took(config, s0, item), Admitted)
  }

  function Release(s: State): State {
    if s.inFlight > 0 then s.(inFlight := s.inFlight - 1) else s
  }

  // ---------------------------------------------------------------- the controller

  lemma BetterTransitive(config: QueueConfig, s: State, a: Waiter, b: Waiter, c: Waiter)
    requires Better(config, s, a, b) && Better(config, s, b, c)
    ensures Better(config, s, a, c)
  {
  }

  class QueueController {
    const config: QueueConfig
    var inFlight: nat
    var windowStart: int
    var windowCount: nat
    var waiters: map<string, Waiter>
    var waiterSeq: nat
    var keyServed: map<string, nat>
    var servedTick: nat

    constructor (config: QueueConfig)
      ensures this.config == config && AsState() == Initial
    {
      this.config := config;
      inFlight, windowStart, windowCount := 0, 0, 0;
      waiters, waiterSeq := map[], 0;
      keyServed, servedTick := map[], 0;
    }

    function AsState(): State
      reads this
    {
      State(inFlight, windowStart, windowCount, waiters, waiterSeq, keyServed, servedTick)
    }

    /** Track a blocked call, or refresh it; its arrival number is stamped only on first sight. */
    method Register(waiterId: string, item: Item)
      requires item.waiterId == Some(waiterId)
      modifies this`waiters, this`waiterSeq
      ensures AsState() == Registered(old(AsState()), item)
    {
      if waiterId in waiters {
        var existing := waiters[waiterId];
        waiters := waiters[waiterId := existing.(priority := PriorityOf(item), key := item.key)];
        return;
      }
      waiters := waiters[waiterId := Waiter(PriorityOf(item), item.key, Some(waiterSeq))];
      waiterSeq := waiterSeq + 1;
    }

    /** Scan the waiters for the best candidate, starting from the caller itself. */
    method CallerIsNext(item: Item) returns (next: bool)
      ensures next == IsNext(config, AsState(), item)
    {
      var self := Caller(AsState(), item);
      var best := self;
      next := true;
      var rest := waiters.Keys;
      while rest != {}
        invariant rest <= waiters.Keys
        invariant next ==> best == self
        invariant !next ==> Better(config, AsState(), best, self)
        invariant !next ==> exists id :: id in waiters && Better(config, AsState(), waiters[id], self)
        invariant next ==> forall id :: id in waiters && id !in rest ==> !Better(config, AsState(), waiters[id], self)
        decreases rest
      {
        var id :| id in rest;
        rest := rest - {id};
        if Better(config, AsState(), waiters[id], best) {
          if !next { BetterTransitive(config, AsState(), waiters[id], best, self); }
          best := waiters[id];
          next := false;
        }
      }
    }

    method TryToAdmit(now: int, item: Item) returns (verdict: Verdict)
      modifies this
      ensures (AsState(), verdict) == TryAdmit(config, old(AsState()), now, item)
    {
      hide Took, IsNext, Caller, Better;
      if config.rateLimit.Some? {
        if now - windowStart >= config.rateLimit.value.periodMs {
          windowStart, windowCount := now, 0;
        }
        if windowCount >= config.rateLimit.value.limit {
          return Blocked(windowStart + config.rateLimit.value.periodMs);
        }
      }
      var usingOrder := config.fairByKey || config.lifo || item.priority.Some? || item.waiterId.Some?;
      var full := config.concurrency.Some? && inFlight >= config.concurrency.value;
      if full {
        if usingOrder && item.waiterId.Some? { Register(item.waiterId.value, item); }
        return Blocked(RetryAt(config, now));
      }
      if usingOrder && waiters != map[] {
        if item.waiterId.Some? { Register(item.waiterId.value, item); }
        var next := CallerIsNext(item);
        if !next { return Blocked(RetryAt(config, now)); }
      }
      Take(item);
      return Admitted;
    }

    /** Consume the slot and the rate-window tick, and clear this waiter. */
    method Take(item: Item)
      modifies this
      ensures AsState() == Took(config, old(AsState()), item)
    {
      if config.rateLimit.Some? { windowCount := windowCount + 1; }
      inFlight := inFlight + 1;
      if item.waiterId.Some? { waiters := waiters - {item.waiterId.value}; }
      if item.key.Some? {
        servedTick := servedTick + 1;
        keyServed := keyServed[item.key.value := servedTick];
      }
    }

    method ReleaseSlot()
      modifies this`inFlight
      ensures AsState() == Release(old(AsState()))
    {
      if inFlight > 0 { inFlight := inFlight - 1; }
    }
  }
}
