/**
 * The two admission backends give the same answers. One live instance talks to the shared keys, the
 * other side is the in-process controller; both see the same sequence of calls and releases.
 */
module AdmissionBisimulation {
  import opened Basics
  import opened Admission
  import Q = Queue
  import QP = QueueProperties
  import R = RedisAdmission
  import F = FleetSafety

  datatype Command = Ask(now: int, item: Item) | Give(slotId: string)

  /** The two sides after the same commands. */
  datatype Pair = Pair(local: Q.State, shared: R.Shared)

  const Start := Pair(Q.Initial, R.Empty)

  // ---------------------------------------------------------------- the commands compared

  /** No rate limit, and the concurrency cap unset or at least one. */
  predicate Comparable(config: QueueConfig) {
    config.rateLimit.None? && (config.concurrency.Some? ==> config.concurrency.value >= 1)
  }

  /**
   * What callers may keep to: every call carries a waiter id; no waiter's place has expired when a call
   * comes; an id that holds a slot does not ask again; no key is the empty string; a waiter keeps its key
   * while it waits; only held slots are given back.
   */
  datatype Rules = Rules(
    identified: bool, unexpired: bool, freeIds: bool, namedKeys: bool, keptKeys: bool, heldGives: bool)

  const AllRules := Rules(true, true, true, true, true, true)

  /** The rules a configuration needs for the two sides to agree. */
  predicate Enough(config: QueueConfig, rules: Rules) {
    config.concurrency.Some? ==>
      && rules.identified && rules.unexpired && rules.heldGives
      && (config.concurrency.value >= 2 ==> rules.freeIds)
      && (config.fairByKey ==> rules.namedKeys && rules.keptKeys)
  }

  /** The next command keeps the rules. */
  predicate Polite(rules: Rules, s: Pair, c: Command) {
    match c
    case Ask(now, item) =>
      && (rules.identified ==> item.waiterId.Some?)
      && (rules.unexpired ==> R.Stale(s.shared, now) == {})
      && (rules.freeIds && item.waiterId.Some? ==> item.waiterId.value !in s.shared.slots)
      && (rules.namedKeys ==> item.key != Some(""))
      && (rules.keptKeys && item.waiterId.Some? && item.waiterId.value in s.local.waiters ==>
            item.key == s.local.waiters[item.waiterId.value].key)
    case Give(slotId) => rules.heldGives ==> slotId in s.shared.slots
  }

  ghost function Stepped(config: QueueConfig, inst: R.Instance, s: Pair, c: Command): (after: Pair)
    requires R.Valid(s.shared)
    ensures R.Valid(after.shared)
  {
    match c
    case Ask(now, item) =>
      var p := R.ParamsOf(config, inst, now, item);
      F.AcquireValid(s.shared, p);
      Pair(Q.TryAdmit(config, s.local, now, item).0, R.Acquire(s.shared, p).0)
    case Give(slotId) =>
      Pair(Q.Release(s.local), s.shared.(slots := s.shared.slots - {slotId}))
  }

  /** Both sides after the commands. */
  ghost function After(config: QueueConfig, inst: R.Instance, commands: seq<Command>): (s: Pair)
    ensures R.Valid(s.shared)
  {
    if commands == [] then Start
    else Stepped(config, inst, After(config, inst, commands[..|commands| - 1]), commands[|commands| - 1])
  }

  ghost predicate WellMannered(rules: Rules, config: QueueConfig, inst: R.Instance, commands: seq<Command>) {
    commands == [] ||
    (WellMannered(rules, config, inst, commands[..|commands| - 1]) &&
     Polite(rules, After(config, inst, commands[..|commands| - 1]), commands[|commands| - 1]))
  }

  /** Both sides admit, or both block. */
  ghost predicate SameAnswer(config: QueueConfig, inst: R.Instance, s: Pair, c: Command)
    requires R.Valid(s.shared)
  {
    c.Ask? ==>
      (Q.TryAdmit(config, s.local, c.now, c.item).1 == Admitted <==>
       R.Acquire(s.shared, R.ParamsOf(config, inst, c.now, c.item)).1 == Admitted)
  }

  ghost predicate SameAnswers(config: QueueConfig, inst: R.Instance, commands: seq<Command>) {
    commands == [] ||
    (SameAnswers(config, inst, commands[..|commands| - 1]) &&
     SameAnswer(config, inst, After(config, inst, commands[..|commands| - 1]), commands[|commands| - 1]))
  }

  // ---------------------------------------------------------------- the relation

  function KeyText(key: Option<string>): string { if key.Some? then key.value else "" }

  /** The same line: ids, priorities, keys, and the same order of arrival under different numbers. */
  ghost predicate SameLine(
      fair: bool, line: map<string, Q.Waiter>, scores: map<string, int>, wmeta: map<string, string>)
  {
    && line.Keys == scores.Keys == wmeta.Keys
    && (forall id :: id in wmeta ==> R.WellFormed(wmeta[id]))
    && (forall id :: id in line ==> SameWaiter(fair, line[id], scores[id], wmeta[id]))
    && (forall a, b :: a in line && b in line ==>
          (Q.Before(line[a].arrival, line[b].arrival) <==> R.SeqIn(wmeta[a]) < R.SeqIn(wmeta[b])))
  }

  /** The same priority and, where keys count, the same key, which is not the empty string. */
  predicate SameWaiter(fair: bool, w: Q.Waiter, score: int, meta: string)
    requires R.WellFormed(meta)
  {
    && score == -w.priority
    && (fair ==> w.key != Some("") && R.KeyIn(meta) == KeyText(w.key))
  }

  /** The same record of who was served when. */
  ghost predicate SameServed(config: QueueConfig, local: Q.State, shared: R.Shared) {
    config.fairByKey ==>
      && local.servedTick == shared.servedSeq
      && forall k :: k != "" ==> Q.ServedOf(local, Some(k)) == R.ServedAt(shared, true, k)
  }

  /** As many slots taken, all of them the one instance's. */
  ghost predicate SameHeld(inst: R.Instance, local: Q.State, shared: R.Shared) {
    && local.inFlight == |shared.slots|
    && forall id :: id in shared.slots ==> shared.slots[id] == inst.id
  }

  ghost predicate Related(
      config: QueueConfig, inst: R.Instance, local: Q.State, shared: R.Shared)
  {
    && QP.Valid(config, local) && R.Valid(shared)
    && SameLine(config.fairByKey, local.waiters, shared.waiters, shared.wmeta)
    && SameServed(config, local, shared)
    && SameHeld(inst, local, shared)
  }

  // ---------------------------------------------------------------- one call

  /** A live instance's slots stay, and nothing has expired: cleaning up changes only the heartbeat. */
  lemma CleanedKeeps(config: QueueConfig, inst: R.Instance, local: Q.State, shared: R.Shared, p: R.Params)
    requires Related(config, inst, local, shared)
    requires p.instanceId == inst.id && R.Stale(shared, p.now) == {}
    ensures R.Cleaned(shared, p) == R.Beaten(shared, inst.id)
    ensures Related(config, inst, local, R.Beaten(shared, inst.id))
  {
    hide QP.Valid, R.Numbered, SameLine, SameServed, R.Cleaned, R.Stale;
    NothingToClean(inst, local, shared, p);
    BeatenServed(config, local, shared, inst.id);
  }

  lemma NothingToClean(inst: R.Instance, local: Q.State, shared: R.Shared, p: R.Params)
    requires SameHeld(inst, local, shared) && p.instanceId == inst.id && R.Stale(shared, p.now) == {}
    ensures R.Cleaned(shared, p) == R.Beaten(shared, inst.id)
  {
    NothingReclaimed(R.Beaten(shared, inst.id), inst.id);
    NothingPruned(R.Beaten(shared, inst.id), p.now);
  }

  lemma NothingReclaimed(s: R.Shared, owner: string)
    requires owner in s.alive && forall id :: id in s.slots ==> s.slots[id] == owner
    ensures R.Reclaimed(s) == s
  {
    assert R.Reclaimed(s).slots == s.slots;
  }

  lemma NothingPruned(s: R.Shared, now: int)
    requires R.Stale(s, now) == {}
    ensures R.Pruned(s, now) == s
  {
    hide R.Stale;
  }

  lemma BeatenServed(config: QueueConfig, local: Q.State, shared: R.Shared, id: string)
    requires SameServed(config, local, shared)
    ensures SameServed(config, local, R.Beaten(shared, id))
  {
    assert forall k :: R.ServedAt(R.Beaten(shared, id), true, k) == R.ServedAt(shared, true, k);
  }

  lemma EnlistKeepsServed(config: QueueConfig, local: Q.State, shared: R.Shared, item: Item, p: R.Params)
    requires SameServed(config, local, shared)
    ensures SameServed(config, Q.Registered(local, item), R.Enlisted(shared, p))
  {
    hide R.Meta;
    var local1, shared1 := Q.Registered(local, item), R.Enlisted(shared, p);
    assert shared1.keyserved == shared.keyserved && shared1.servedSeq == shared.servedSeq;
    assert local1.keyServed == local.keyServed && local1.servedTick == local.servedTick;
    assert forall k :: R.ServedAt(shared1, true, k) == R.ServedAt(shared, true, k);
    assert forall k :: Q.ServedOf(local1, Some(k)) == Q.ServedOf(local, Some(k));
  }

  /** A newcomer joins at the end of both lines. */
  lemma LineJoin(
      fair: bool, line: map<string, Q.Waiter>, scores: map<string, int>, wmeta: map<string, string>, id: string,
      w: Q.Waiter, score: int, meta: string)
    requires SameLine(fair, line, scores, wmeta) && id !in line
    requires R.WellFormed(meta) && SameWaiter(fair, w, score, meta) && w.arrival.Some?
    requires forall other :: other in line ==> Q.Before(line[other].arrival, w.arrival)
    requires forall other :: other in wmeta ==> R.SeqIn(wmeta[other]) < R.SeqIn(meta)
    ensures SameLine(fair, line[id := w], scores[id := score], wmeta[id := meta])
  {
    hide R.WellFormed, R.SeqIn, SameWaiter;
  }

  /** A waiter already in line is refreshed where it stands. */
  lemma LineRefresh(
      fair: bool, line: map<string, Q.Waiter>, scores: map<string, int>, wmeta: map<string, string>, id: string,
      w: Q.Waiter, score: int)
    requires SameLine(fair, line, scores, wmeta) && id in line
    requires (fair ==> w.key == line[id].key) && w.arrival == line[id].arrival && score == -w.priority
    ensures SameLine(fair, line[id := w], scores[id := score], wmeta)
  {
    hide R.WellFormed, R.SeqIn, R.KeyIn;
  }

  lemma LineLeave(
      fair: bool, line: map<string, Q.Waiter>, scores: map<string, int>, wmeta: map<string, string>, id: string)
    requires SameLine(fair, line, scores, wmeta)
    ensures SameLine(fair, line - {id}, scores - {id}, wmeta - {id})
  {
    hide R.WellFormed, R.SeqIn, SameWaiter;
  }

  /** Where keys count, the call's key is not the empty string, and is the one it already waits under. */
  predicate Fits(config: QueueConfig, local: Q.State, item: Item) {
    config.fairByKey ==>
      && item.key != Some("")
      && (item.waiterId.Some? && item.waiterId.value in local.waiters ==>
            item.key == local.waiters[item.waiterId.value].key)
  }

  /** The blocked caller takes the same place in both lines. */
  lemma EnlistKeepsLine(config: QueueConfig, local: Q.State, shared: R.Shared,
                        inst: R.Instance, now: int, item: Item)
    requires QP.Valid(config, local) && R.Valid(shared)
    requires SameLine(config.fairByKey, local.waiters, shared.waiters, shared.wmeta)
    requires item.waiterId.Some? && Fits(config, local, item)
    ensures var p := R.ParamsOf(config, inst, now, item);
      SameLine(config.fairByKey, Q.Registered(local, item).waiters, R.Enlisted(shared, p).waiters,
               R.Enlisted(shared, p).wmeta)
  {
    hide R.WellFormed, R.SeqIn, R.KeyIn, R.Meta, SameLine, QP.Valid, R.Valid;
    var p, id := R.ParamsOf(config, inst, now, item), item.waiterId.value;
    LineIds(config.fairByKey, local.waiters, shared.waiters, shared.wmeta);
    if id in local.waiters {
      var w := Q.Waiter(PriorityOf(item), item.key, local.waiters[id].arrival);
      LineRefresh(config.fairByKey, local.waiters, shared.waiters, shared.wmeta, id, w, -p.priority);
    } else {
      R.MetaRoundTrip(shared.seqNo + 1, p.fairKey);
      Newest(config, local, shared);
      LineJoin(config.fairByKey, local.waiters, shared.waiters, shared.wmeta, id,
               Q.Waiter(PriorityOf(item), item.key, Some(local.waiterSeq)), -p.priority,
               R.Meta(shared.seqNo + 1, p.fairKey));
    }
  }

  lemma LineIds(fair: bool, line: map<string, Q.Waiter>, scores: map<string, int>, wmeta: map<string, string>)
    requires SameLine(fair, line, scores, wmeta)
    ensures line.Keys == scores.Keys == wmeta.Keys
  {
  }

  /** The numbers handed out next are after all those in line. */
  lemma Newest(config: QueueConfig, local: Q.State, shared: R.Shared)
    requires QP.Valid(config, local) && R.Valid(shared)
    ensures forall other :: other in local.waiters ==> Q.Before(local.waiters[other].arrival, Some(local.waiterSeq))
    ensures forall other :: other in shared.wmeta ==>
      R.WellFormed(shared.wmeta[other]) && R.SeqIn(shared.wmeta[other]) < shared.seqNo + 1
  {
  }

  lemma EnlistRelated(config: QueueConfig, inst: R.Instance, local: Q.State, shared: R.Shared, now: int, item: Item)
    requires Related(config, inst, local, shared)
    requires item.waiterId.Some? && Fits(config, local, item)
    ensures Related(config, inst, Q.Registered(local, item), R.Enlisted(shared, R.ParamsOf(config, inst, now, item)))
  {
    hide SameLine, SameServed, QP.Valid, R.Valid, R.Meta;
    QP.RegisteredValid(config, local, item);
    R.EnlistedValid(shared, R.ParamsOf(config, inst, now, item));
    EnlistKeepsLine(config, local, shared, inst, now, item);
    EnlistKeepsServed(config, local, shared, item, R.ParamsOf(config, inst, now, item));
  }

  /** Two waiters compare the same way on both sides. */
  lemma SameOrder(
      config: QueueConfig, inst: R.Instance, local: Q.State, shared: R.Shared, p: R.Params, a: string, b: string)
    requires Related(config, inst, local, shared)
    requires p.fairnessOn == config.fairByKey && p.lifo == config.lifo
    requires a in local.waiters && b in local.waiters
    ensures Q.Better(config, local, local.waiters[a], local.waiters[b]) <==>
      shared.waiters[a] < shared.waiters[b] ||
      (shared.waiters[a] == shared.waiters[b] && R.Ahead(shared, p, shared.wmeta[a], shared.wmeta[b]))
  {
    hide R.WellFormed, R.SeqIn, R.KeyIn;
    assert SameWaiter(config.fairByKey, local.waiters[a], shared.waiters[a], shared.wmeta[a]);
    assert SameWaiter(config.fairByKey, local.waiters[b], shared.waiters[b], shared.wmeta[b]);
    ServedSame(config, inst, local, shared, p, a);
    ServedSame(config, inst, local, shared, p, b);
  }

  lemma ServedSame(config: QueueConfig, inst: R.Instance, local: Q.State, shared: R.Shared, p: R.Params, id: string)
    requires Related(config, inst, local, shared) && p.fairnessOn == config.fairByKey && id in local.waiters
    ensures R.ServedAt(shared, p.fairnessOn, R.KeyIn(shared.wmeta[id])) ==
      if config.fairByKey then Q.ServedOf(local, local.waiters[id].key) else 0
  {
    hide R.WellFormed, R.SeqIn, R.KeyIn;
    assert SameWaiter(config.fairByKey, local.waiters[id], shared.waiters[id], shared.wmeta[id]);
  }

  /** Being next among the waiters means the same on both sides. */
  lemma SameChoice(config: QueueConfig, inst: R.Instance, local: Q.State, shared: R.Shared, p: R.Params, item: Item)
    requires Related(config, inst, local, shared)
    requires p.fairnessOn == config.fairByKey && p.lifo == config.lifo
    requires item.waiterId.Some? && p.waiterId == item.waiterId.value && p.waiterId in local.waiters
    ensures Q.IsNext(config, local, item) <==> R.RightfulNext(shared, p, p.waiterId)
  {
    var id := p.waiterId;
    forall other | other in local.waiters
      ensures Q.Better(config, local, local.waiters[other], local.waiters[id]) <==>
        shared.waiters[other] < shared.waiters[id] ||
        (shared.waiters[other] == shared.waiters[id] && R.Ahead(shared, p, shared.wmeta[other], shared.wmeta[id]))
    {
      SameOrder(config, inst, local, shared, p, other, id);
    }
    hide Q.Better, R.Ahead, R.Numbered, SameServed, SameHeld, SameWaiter, R.SeqIn;
    assert Q.Caller(local, item) == local.waiters[id];
    assert shared.wmeta.Keys == local.waiters.Keys;
    if R.RightfulNext(shared, p, id) {
      forall other | other in local.waiters ensures !Q.Better(config, local, local.waiters[other], local.waiters[id]) {
        assert shared.waiters[id] <= shared.waiters[other];
        if shared.waiters[other] == shared.waiters[id] { assert R.InTier(shared, other); }
      }
    }
    if Q.IsNext(config, local, item) {
      assert R.InTier(shared, id);
      forall other | R.InTier(shared, other) && other in shared.wmeta
        ensures !R.Ahead(shared, p, shared.wmeta[other], shared.wmeta[id])
      {
        assert shared.waiters[other] == shared.waiters[id];
      }
    }
  }

  // ---------------------------------------------------------------- an admission

  lemma TookKeepsServed(config: QueueConfig, inst: R.Instance, local: Q.State, shared: R.Shared, now: int, item: Item)
    requires SameServed(config, local, shared) && config.rateLimit.None?
    requires config.fairByKey ==> item.key != Some("")
    ensures SameServed(config, Q.Took(config, local, item), R.SlotTaken(shared, R.ParamsOf(config, inst, now, item)))
  {
    if config.fairByKey {
      var local1, shared1 := Q.Took(config, local, item), R.SlotTaken(shared, R.ParamsOf(config, inst, now, item));
      forall k | k != "" ensures Q.ServedOf(local1, Some(k)) == R.ServedAt(shared1, true, k) {
        assert Q.ServedOf(local, Some(k)) == R.ServedAt(shared, true, k);
      }
    }
  }

  lemma TookKeepsHeld(config: QueueConfig, inst: R.Instance, local: Q.State, shared: R.Shared, now: int, item: Item)
    requires SameHeld(inst, local, shared) && item.waiterId.Some? && item.waiterId.value !in shared.slots
    ensures SameHeld(inst, Q.Took(config, local, item), R.SlotTaken(shared, R.ParamsOf(config, inst, now, item)))
  {
    var p := R.ParamsOf(config, inst, now, item);
    F.SlotTakenFrame(shared, p);
    hide R.SlotTaken;
    assert shared.slots[p.waiterId := inst.id].Keys == shared.slots.Keys + {p.waiterId};
  }

  lemma TookRelated(config: QueueConfig, inst: R.Instance, local: Q.State, shared: R.Shared, now: int, item: Item)
    requires Related(config, inst, local, shared) && config.rateLimit.None? && !Q.Full(config, local)
    requires item.waiterId.Some? && item.waiterId.value !in shared.slots && (config.fairByKey ==> item.key != Some(""))
    ensures Related(config, inst, Q.Took(config, local, item), R.SlotTaken(shared, R.ParamsOf(config, inst, now, item)))
  {
    hide SameLine, SameServed, SameHeld, QP.Valid, R.Valid;
    var p := R.ParamsOf(config, inst, now, item);
    QP.TookValid(config, local, item);
    R.SlotTakenValid(shared, p);
    LineLeave(config.fairByKey, local.waiters, shared.waiters, shared.wmeta, p.waiterId);
    TookKeepsServed(config, inst, local, shared, now, item);
    TookKeepsHeld(config, inst, local, shared, now, item);
  }

  /** An admitted caller nobody waited for need not have been registered first. */
  lemma LoneRelated(config: QueueConfig, inst: R.Instance, local: Q.State, shared: R.Shared, item: Item)
    requires local.waiters == map[] && item.waiterId.Some?
    requires Related(config, inst, Q.Took(config, Q.Registered(local, item), item), shared)
    ensures Related(config, inst, Q.Took(config, local, item), shared)
  {
    hide R.Valid, SameLine;
    var direct, registered := Q.Took(config, local, item), Q.Took(config, Q.Registered(local, item), item);
    assert direct.waiters == map[] == registered.waiters;
    assert direct == registered.(waiterSeq := direct.waiterSeq);
    hide Q.Took, Q.Registered;
    assert forall k :: Q.ServedOf(direct, Some(k)) == Q.ServedOf(registered, Some(k));
  }

  /** Alone in line, the caller is next. */
  lemma LoneNext(config: QueueConfig, local: Q.State, item: Item)
    requires local.waiters == map[] && item.waiterId.Some?
    ensures Q.IsNext(config, Q.Registered(local, item), item)
  {
  }

  // ---------------------------------------------------------------- the theorem

  /** What the rules a configuration needs say of one call to it. */
  lemma PoliteCall(
      rules: Rules, config: QueueConfig, inst: R.Instance, local: Q.State, shared: R.Shared, now: int, item: Item)
    requires Comparable(config) && config.concurrency.Some? && Enough(config, rules)
    requires SameHeld(inst, local, shared) && Polite(rules, Pair(local, shared), Ask(now, item))
    ensures item.waiterId.Some? && R.Stale(shared, now) == {} && Fits(config, local, item)
    ensures !Q.Full(config, local) ==> item.waiterId.value !in shared.slots
  {
    if !Q.Full(config, local) && config.concurrency.value == 1 {
      assert shared.slots.Keys == {};
    }
  }

  /** A call: the same answer, and the two sides stay related. */
  lemma AskAgrees(
      rules: Rules, config: QueueConfig, inst: R.Instance, local: Q.State, shared: R.Shared, now: int, item: Item)
    requires Comparable(config) && config.concurrency.Some? && Enough(config, rules)
    requires Related(config, inst, local, shared) && Polite(rules, Pair(local, shared), Ask(now, item))
    ensures var p := R.ParamsOf(config, inst, now, item);
      && (Q.TryAdmit(config, local, now, item).1 == Admitted <==> R.Acquire(shared, p).1 == Admitted)
      && Related(config, inst, Q.TryAdmit(config, local, now, item).0, R.Acquire(shared, p).0)
  {
    var p, id := R.ParamsOf(config, inst, now, item), item.waiterId.value;
    PoliteCall(rules, config, inst, local, shared, now, item);
    CleanedKeeps(config, inst, local, shared, p);
    var beaten := R.Beaten(shared, inst.id);
    EnlistRelated(config, inst, local, beaten, now, item);
    var local1, beaten1 := Q.Registered(local, item), R.Enlisted(beaten, p);
    SameFull(config, inst, local, beaten, p);
    EnlistFull(config, local, item);
    F.EnlistedFrame(beaten, p);
    EnlistIn(local, item);
    LocalOutcome(config, local, now, item);
    RelatedValid(config, inst, local, shared);
    SharedOutcome(shared, p);
    hide Related, R.Valid, Q.TryAdmit, R.Acquire, Q.Took, R.SlotTaken, R.Cleaned, R.Beaten, Q.IsNext, R.RightfulNext,
         Q.Registered, R.Enlisted, Q.Full, R.Full;
    if !Q.Full(config, local) {
      SameChoice(config, inst, local1, beaten1, p, item);
      TookRelated(config, inst, local1, beaten1, now, item);
      if local.waiters == map[] {
        LoneNext(config, local, item);
        LoneRelated(config, inst, local, R.SlotTaken(beaten1, p), item);
      }
    }
  }

  lemma RelatedValid(config: QueueConfig, inst: R.Instance, local: Q.State, shared: R.Shared)
    requires Related(config, inst, local, shared)
    ensures QP.Valid(config, local) && R.Valid(shared)
  {
  }

  lemma EnlistIn(local: Q.State, item: Item)
    requires item.waiterId.Some?
    ensures item.waiterId.value in Q.Registered(local, item).waiters
  {
  }

  /** An identified call without a rate limit, in process. */
  lemma LocalOutcome(config: QueueConfig, local: Q.State, now: int, item: Item)
    requires config.rateLimit.None? && item.waiterId.Some?
    ensures var local1, result := Q.Registered(local, item), Q.TryAdmit(config, local, now, item);
      if Q.Full(config, local) then result.0 == local1 && result.1 != Admitted
      else if local.waiters == map[] then result == (Q.Took(config, local, item), Admitted)
      else if Q.IsNext(config, local1, item) then result == (Q.Took(config, local1, item), Admitted)
      else result.0 == local1 && result.1 != Admitted
  {
    hide Q.Took, Q.IsNext, Q.Registered, Q.Full;
  }

  /** The same on the shared keys, when cleaning up only beats the heart. */
  lemma SharedOutcome(shared: R.Shared, p: R.Params)
    requires R.Valid(shared) && R.Cleaned(shared, p) == R.Beaten(shared, p.instanceId)
    requires p.rateLimit <= 0 && p.hasOrdering && R.Valid(R.Enlisted(R.Beaten(shared, p.instanceId), p))
    ensures var beaten := R.Beaten(shared, p.instanceId);
      var beaten1, result := R.Enlisted(beaten, p), R.Acquire(shared, p);
      if R.Full(beaten, p) then result.0 == beaten1 && result.1 != Admitted
      else if R.RightfulNext(beaten1, p, p.waiterId) then result == (R.SlotTaken(beaten1, p), Admitted)
      else result.0 == beaten1 && result.1 != Admitted
  {
    hide R.SlotTaken, R.RightfulNext, R.Enlisted, R.Full, R.Cleaned, R.Beaten;
  }

  lemma SameFull(config: QueueConfig, inst: R.Instance, local: Q.State, shared: R.Shared, p: R.Params)
    requires Comparable(config) && Related(config, inst, local, shared)
    requires p.concurrency == if config.concurrency.Some? then config.concurrency.value else 0
    ensures Q.Full(config, local) <==> R.Full(shared, p)
  {
  }

  lemma EnlistFull(config: QueueConfig, local: Q.State, item: Item)
    ensures Q.Full(config, Q.Registered(local, item)) <==> Q.Full(config, local)
  {
  }

  /** A slot given back is given back on both sides. */
  lemma GiveAgrees(config: QueueConfig, inst: R.Instance, local: Q.State, shared: R.Shared, slotId: string)
    requires Related(config, inst, local, shared) && slotId in shared.slots
    ensures Related(config, inst, Q.Release(local), shared.(slots := shared.slots - {slotId}))
  {
    hide SameLine, SameServed, SameHeld, QP.Valid, R.Valid;
    GiveKeepsServed(config, local, shared, slotId);
    GiveKeepsHeld(inst, local, shared, slotId);
    GiveKeepsValid(config, local, shared, slotId);
  }

  lemma GiveKeepsHeld(inst: R.Instance, local: Q.State, shared: R.Shared, slotId: string)
    requires SameHeld(inst, local, shared) && slotId in shared.slots
    ensures SameHeld(inst, Q.Release(local), shared.(slots := shared.slots - {slotId}))
  {
    assert shared.slots.Keys == (shared.slots - {slotId}).Keys + {slotId};
  }

  lemma GiveKeepsValid(config: QueueConfig, local: Q.State, shared: R.Shared, slotId: string)
    requires QP.Valid(config, local) && R.Valid(shared)
    ensures QP.Valid(config, Q.Release(local)) && R.Valid(shared.(slots := shared.slots - {slotId}))
  {
    hide R.Numbered, R.SeqIn;
  }

  lemma GiveKeepsServed(config: QueueConfig, local: Q.State, shared: R.Shared, slotId: string)
    requires SameServed(config, local, shared)
    ensures SameServed(config, Q.Release(local), shared.(slots := shared.slots - {slotId}))
  {
    var after := shared.(slots := shared.slots - {slotId});
    assert forall k :: R.ServedAt(after, true, k) == R.ServedAt(shared, true, k);
    assert forall k :: Q.ServedOf(Q.Release(local), Some(k)) == Q.ServedOf(local, Some(k));
  }

  lemma StartRelated(config: QueueConfig, inst: R.Instance)
    requires Comparable(config)
    ensures Related(config, inst, Q.Initial, R.Empty)
  {
  }

  /** Under a cap, well-mannered commands leave the two sides related, having answered alike. */
  lemma {:induction false} CappedAgrees(rules: Rules, config: QueueConfig, inst: R.Instance, commands: seq<Command>)
    requires Comparable(config) && config.concurrency.Some? && Enough(config, rules)
    requires WellMannered(rules, config, inst, commands)
    ensures SameAnswers(config, inst, commands)
    ensures Related(config, inst, After(config, inst, commands).local, After(config, inst, commands).shared)
  {
    if commands == [] {
      StartRelated(config, inst);
    } else {
      var front, last := commands[..|commands| - 1], commands[|commands| - 1];
      CappedAgrees(rules, config, inst, front);
      var s := After(config, inst, front);
      match last {
        case Ask(now, item) =>
          AskAgrees(rules, config, inst, s.local, s.shared, now, item);
          hide Related, Polite, Q.TryAdmit, R.Acquire, R.ParamsOf;
        case Give(slotId) =>
          GiveAgrees(config, inst, s.local, s.shared, slotId);
          hide Related, Q.Release;
      }
    }
  }

  // ---------------------------------------------------------------- nobody waits

  /** With nobody waiting and a slot free, the script admits any caller, who leaves no trace in line. */
  lemma SoloAdmitted(s: R.Shared, p: R.Params)
    requires R.Valid(s) && R.Cleaned(s, p).waiters == map[] && p.rateLimit <= 0 && !R.Full(R.Cleaned(s, p), p)
    ensures R.Acquire(s, p).1 == Admitted && R.Acquire(s, p).0.waiters == map[]
  {
    hide R.SlotTaken, R.RightfulNext, R.Enlisted, R.Full, R.Cleaned;
    var s0 := R.Cleaned(s, p);
    R.CleanedValid(s, p);
    R.EnlistedValid(s0, p);
    var s1 := R.Enlisted(s0, p);
    AloneEnlisted(s0, p);
    LoneIsNext(s1, p);
    TakenAlone(s0, p);
    TakenAlone(s1, p);
  }

  lemma NobodyCleaned(s: R.Shared, p: R.Params)
    requires R.Valid(s) && s.waiters == map[]
    ensures R.Cleaned(s, p).waiters == map[]
  {
  }

  lemma AloneEnlisted(s: R.Shared, p: R.Params)
    requires s.waiters == map[]
    ensures R.Enlisted(s, p).waiters.Keys == {p.waiterId}
  {
    hide R.Meta;
  }

  lemma TakenAlone(s: R.Shared, p: R.Params)
    requires s.waiters.Keys <= {p.waiterId}
    ensures R.SlotTaken(s, p).waiters == map[]
  {
    hide R.Counted;
  }

  lemma LoneIsNext(s: R.Shared, p: R.Params)
    requires R.Valid(s) && s.waiters.Keys == {p.waiterId}
    ensures R.RightfulNext(s, p, p.waiterId)
  {
    hide R.Ahead;
    F.OneRightfulNext(s, p);
    var best :| R.RightfulNext(s, p, best);
    assert best in s.waiters.Keys;
  }

  /** Without a cap nobody ever waits: both sides admit every call, whatever it says. */
  lemma {:induction false} UncappedAgrees(config: QueueConfig, inst: R.Instance, commands: seq<Command>)
    requires Comparable(config) && config.concurrency.None?
    ensures SameAnswers(config, inst, commands)
    ensures After(config, inst, commands).local.waiters == map[]
    ensures After(config, inst, commands).shared.waiters == map[]
  {
    if commands != [] {
      var front, last := commands[..|commands| - 1], commands[|commands| - 1];
      UncappedAgrees(config, inst, front);
      if last.Ask? {
        hide R.Acquire, R.Cleaned;
        NobodyCleaned(After(config, inst, front).shared, R.ParamsOf(config, inst, last.now, last.item));
        SoloAdmitted(After(config, inst, front).shared, R.ParamsOf(config, inst, last.now, last.item));
      }
    }
  }

  /**
   * From the start, over every sequence of calls and releases that keeps the rules the configuration
   * needs, a call is admitted by the in-process controller exactly when the script admits it. Without a
   * cap there is nothing to keep to.
   */
  lemma SameAnswersAlways(rules: Rules, config: QueueConfig, inst: R.Instance, commands: seq<Command>)
    requires Comparable(config) && Enough(config, rules)
    requires config.concurrency.Some? ==> WellMannered(rules, config, inst, commands)
    ensures SameAnswers(config, inst, commands)
  {
    if config.concurrency.Some? { CappedAgrees(rules, config, inst, commands); }
    else { UncappedAgrees(config, inst, commands); }
  }
}
