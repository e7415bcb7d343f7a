/**
 * Exactly which rules the callers must keep for the two admission backends to agree. Each rule a
 * configuration needs is needed: without it, there is a sequence of calls and releases, otherwise
 * well-mannered, that the in-process controller and the script answer differently.
 */
module AdmissionDivergence {
  import opened Basics
  import opened Admission
  import opened AdmissionBisimulation
  import Q = Queue
  import R = RedisAdmission
  import F = FleetSafety

  // ---------------------------------------------------------------- sequences, one command longer

  lemma Longer(rules: Rules, config: QueueConfig, inst: R.Instance, commands: seq<Command>, c: Command)
    ensures After(config, inst, commands + [c]) == Stepped(config, inst, After(config, inst, commands), c)
    ensures WellMannered(rules, config, inst, commands + [c]) <==>
      WellMannered(rules, config, inst, commands) && Polite(rules, After(config, inst, commands), c)
    ensures SameAnswers(config, inst, commands + [c]) <==>
      SameAnswers(config, inst, commands) && SameAnswer(config, inst, After(config, inst, commands), c)
  {
    hide Stepped, Polite, SameAnswer;
    assert (commands + [c])[..|commands|] == commands;
  }

  /** Keeping more rules is keeping fewer. */
  lemma {:induction false} FewerRules(
      few: Rules, many: Rules, config: QueueConfig, inst: R.Instance, commands: seq<Command>)
    requires WellMannered(many, config, inst, commands)
    requires (few.identified ==> many.identified) && (few.unexpired ==> many.unexpired)
    requires (few.freeIds ==> many.freeIds) && (few.heldGives ==> many.heldGives)
    requires (few.namedKeys ==> many.namedKeys) && (few.keptKeys ==> many.keptKeys)
    ensures WellMannered(few, config, inst, commands)
  {
    hide After;
    if commands != [] { FewerRules(few, many, config, inst, commands[..|commands| - 1]); }
  }

  // ---------------------------------------------------------------- the shared keys in a scene

  /** Every slot is the one instance's, and at time 0 no place has expired. */
  ghost predicate Tidy(inst: R.Instance, s: R.Shared) {
    && R.Valid(s)
    && (forall id :: id in s.slots ==> s.slots[id] == inst.id)
    && (forall id :: id in s.wexpire ==> s.wexpire[id] > 0)
  }

  lemma TidyValid(inst: R.Instance, s: R.Shared)
    requires Tidy(inst, s)
    ensures R.Valid(s)
  {
  }

  lemma NothingStale(inst: R.Instance, s: R.Shared)
    requires Tidy(inst, s)
    ensures R.Stale(s, 0) == {}
  {
  }

  lemma TidyCleaned(inst: R.Instance, s: R.Shared, p: R.Params)
    requires Tidy(inst, s) && p.instanceId == inst.id && p.now == 0
    ensures R.Cleaned(s, p) == R.Beaten(s, inst.id) && R.Reclaimed(R.Beaten(s, inst.id)).slots == s.slots
  {
    hide R.Valid;
    NothingStale(inst, s);
    NothingReclaimed(R.Beaten(s, inst.id), inst.id);
    NothingPruned(R.Beaten(s, inst.id), 0);
  }

  lemma ExpiresLater(s: R.Shared, p: R.Params)
    requires p.now == 0 && p.waiterTtl > 0 && forall id :: id in s.wexpire ==> s.wexpire[id] > 0
    ensures forall id :: id in R.Enlisted(s, p).wexpire ==> R.Enlisted(s, p).wexpire[id] > 0
    ensures forall id :: id in R.SlotTaken(s, p).wexpire ==> R.SlotTaken(s, p).wexpire[id] > 0
  {
    hide R.Meta, R.Counted;
  }

  /** A call at time 0 keeps the keys tidy; an admitted one holds a slot, a blocked one changes none. */
  lemma AskTidy(config: QueueConfig, inst: R.Instance, s: R.Shared, item: Item)
    requires Tidy(inst, s) && inst.waiterTtlMs > 0
    ensures var (after, verdict) := R.Acquire(s, R.ParamsOf(config, inst, 0, item));
      Tidy(inst, after) && after.slots ==
        if verdict == Admitted then s.slots[R.ParamsOf(config, inst, 0, item).waiterId := inst.id] else s.slots
  {
    hide R.Acquire, R.Cleaned, R.Enlisted, R.SlotTaken, R.Beaten, R.Reclaimed, R.Valid;
    var p := R.ParamsOf(config, inst, 0, item);
    F.AcquireValid(s, p);
    F.AcquireShape(s, p);
    F.AcquireSlots(s, p);
    TidyCleaned(inst, s, p);
    BeatenExpiry(s, inst.id);
    ExpiresLater(R.Cleaned(s, p), p);
    ExpiresLater(R.Enlisted(R.Cleaned(s, p), p), p);
  }

  lemma BeatenExpiry(s: R.Shared, id: string)
    ensures R.Beaten(s, id).wexpire == s.wexpire && R.Beaten(s, id).waiters == s.waiters
    ensures R.Beaten(s, id).slots == s.slots
  {
  }

  // ---------------------------------------------------------------- all slots taken

  function Named(i: nat, key: Option<string>): Item { Item(None, key, Some(Decimal(i))) }

  function Names(n: nat): set<string> { if n == 0 then {} else Names(n - 1) + {Decimal(n - 1)} }

  lemma {:induction false} NamesExactly(n: nat)
    ensures |Names(n)| == n
    ensures forall i: nat :: Decimal(i) in Names(n) <==> i < n
  {
    hide Decimal;
    if n > 0 {
      NamesExactly(n - 1);
      forall i: nat ensures Decimal(i) in Names(n) <==> i < n {
        if i != n - 1 { NumeralsDiffer(i, n - 1); }
      }
    }
  }

  /** Callers 0 to n - 1 ask, all under one key. */
  function Fill(n: nat, key: Option<string>): seq<Command> {
    if n == 0 then [] else Fill(n - 1, key) + [Ask(0, Named(n - 1, key))]
  }

  function ServedBy(key: Option<string>, n: nat): map<string, nat> {
    if key.None? || n == 0 then map[] else map[key.value := n]
  }

  function TicksBy(key: Option<string>, n: nat): nat { if key.None? then 0 else n }

  /** No rate limit, and a cap. */
  predicate Capped(config: QueueConfig) {
    config.rateLimit.None? && config.concurrency.Some? && config.concurrency.value >= 1
  }

  function Cap(config: QueueConfig): nat
    requires Capped(config)
  {
    config.concurrency.value
  }

  predicate KeyOk(rules: Rules, key: Option<string>) { rules.namedKeys ==> key != Some("") }

  /** They are all admitted. */
  lemma {:induction false} Filling(rules: Rules, config: QueueConfig, inst: R.Instance, n: nat, key: Option<string>)
    requires Capped(config) && n <= Cap(config) && inst.waiterTtlMs > 0 && KeyOk(rules, key)
    ensures WellMannered(rules, config, inst, Fill(n, key))
    ensures After(config, inst, Fill(n, key)).local == Q.State(n, 0, 0, map[], 0, ServedBy(key, n), TicksBy(key, n))
    ensures var s := After(config, inst, Fill(n, key)).shared;
      Tidy(inst, s) && s.waiters == map[] && s.slots.Keys == Names(n)
  {
    hide *;
    FillShape(n, key);
    if n == 0 {
      FillNone(rules, config, inst, key);
    } else {
      Filling(rules, config, inst, n - 1, key);
      Longer(rules, config, inst, Fill(n - 1, key), Ask(0, Named(n - 1, key)));
      FillOne(rules, config, inst, After(config, inst, Fill(n - 1, key)), n, key);
    }
  }

  lemma FillShape(n: nat, key: Option<string>)
    ensures Fill(n, key) == if n == 0 then [] else Fill(n - 1, key) + [Ask(0, Named(n - 1, key))]
  {
  }

  lemma FillNone(rules: Rules, config: QueueConfig, inst: R.Instance, key: Option<string>)
    ensures WellMannered(rules, config, inst, []) && After(config, inst, []) == Start
    ensures Start.local == Q.State(0, 0, 0, map[], 0, ServedBy(key, 0), TicksBy(key, 0))
    ensures Tidy(inst, Start.shared) && Start.shared.waiters == map[] && Start.shared.slots.Keys == Names(0)
  {
  }

  lemma FillOne(rules: Rules, config: QueueConfig, inst: R.Instance, s: Pair, n: nat, key: Option<string>)
    requires Capped(config) && 0 < n <= Cap(config) && inst.waiterTtlMs > 0 && KeyOk(rules, key)
    requires s.local == Q.State(n - 1, 0, 0, map[], 0, ServedBy(key, n - 1), TicksBy(key, n - 1))
    requires Tidy(inst, s.shared) && s.shared.waiters == map[] && s.shared.slots.Keys == Names(n - 1)
    ensures Polite(rules, s, Ask(0, Named(n - 1, key)))
    ensures var after := Stepped(config, inst, s, Ask(0, Named(n - 1, key)));
      && after.local == Q.State(n, 0, 0, map[], 0, ServedBy(key, n), TicksBy(key, n))
      && Tidy(inst, after.shared) && after.shared.waiters == map[] && after.shared.slots.Keys == Names(n)
  {
    hide Q.TryAdmit, Q.Took, R.Acquire, R.Valid, Tidy, ServedBy, TicksBy, Names, Q.Full, Q.IsNext, Q.Registered;
    NamesExactly(n - 1);
    NothingStale(inst, s.shared);
    LocalOutcome(config, s.local, 0, Named(n - 1, key));
    NotYetFull(config, s.local);
    TakesOne(config, n, key);
    SharedTakesOne(config, inst, s.shared, n, key);
  }

  lemma NotYetFull(config: QueueConfig, s: Q.State)
    requires Capped(config)
    ensures Q.Full(config, s) <==> s.inFlight >= Cap(config)
  {
  }

  lemma SharedTakesOne(config: QueueConfig, inst: R.Instance, s: R.Shared, n: nat, key: Option<string>)
    requires Capped(config) && 0 < n <= Cap(config) && inst.waiterTtlMs > 0
    requires Tidy(inst, s) && s.waiters == map[] && s.slots.Keys == Names(n - 1)
    ensures R.Valid(s)
    ensures var after := R.Acquire(s, R.ParamsOf(config, inst, 0, Named(n - 1, key))).0;
      Tidy(inst, after) && after.waiters == map[] && after.slots.Keys == Names(n)
  {
    hide R.Acquire, R.Cleaned, R.Valid, R.Full, R.Beaten, R.Stale, R.Reclaimed, Decimal, Tidy;
    var p := R.ParamsOf(config, inst, 0, Named(n - 1, key));
    NamesExactly(n - 1);
    TidyValid(inst, s);
    AskTidy(config, inst, s, Named(n - 1, key));
    TidyCleaned(inst, s, p);
    BeatenExpiry(s, inst.id);
    RoomLeft(s, p, n - 1);
    NobodyCleaned(s, p);
    SoloAdmitted(s, p);
  }

  lemma RoomLeft(s: R.Shared, p: R.Params, n: nat)
    requires |s.slots.Keys| == n && n < p.concurrency && R.Cleaned(s, p) == R.Beaten(s, p.instanceId)
    ensures !R.Full(R.Cleaned(s, p), p)
  {
    BeatenExpiry(s, p.instanceId);
    assert |s.slots| == |s.slots.Keys|;
  }

  lemma TakesOne(config: QueueConfig, n: nat, key: Option<string>)
    requires Capped(config) && 0 < n
    ensures Q.Took(config, Q.State(n - 1, 0, 0, map[], 0, ServedBy(key, n - 1), TicksBy(key, n - 1)), Named(n - 1, key))
         == Q.State(n, 0, 0, map[], 0, ServedBy(key, n), TicksBy(key, n))
  {
    hide Decimal;
  }

  // ---------------------------------------------------------------- two callers wait, a slot comes free

  /** Who is named `ahead` arrives so as to go first among equals, whichever way the queue runs. */
  function Order(config: QueueConfig, ahead: Item, behind: Item): (Item, Item) {
    if config.lifo then (behind, ahead) else (ahead, behind)
  }

  /** All slots are taken under `key`; two more callers wait; one slot is given back. */
  function Scene(config: QueueConfig, key: Option<string>, ahead: Item, behind: Item): seq<Command>
    requires Capped(config)
  {
    var (first, second) := Order(config, ahead, behind);
    Fill(Cap(config), key) + [Ask(0, first)] + [Ask(0, second)] + [Give(Decimal(Cap(config) - 1))]
  }

  function Waiting(item: Item, arrival: nat): Q.Waiter { Q.Waiter(PriorityOf(item), item.key, Some(arrival)) }

  /** The two callers of a scene: they are not among those that took the slots. */
  predicate Pairs(config: QueueConfig, ahead: Item, behind: Item)
    requires Capped(config)
  {
    && ahead.waiterId == Some(Decimal(Cap(config))) && behind.waiterId == Some(Decimal(Cap(config) + 1))
    && ahead.priority == None == behind.priority
  }

  /** The controller at the end of a scene. */
  function SceneLocal(config: QueueConfig, key: Option<string>, ahead: Item, behind: Item): Q.State
    requires Capped(config) && Pairs(config, ahead, behind)
  {
    var n := Cap(config);
    Q.State(n - 1, 0, 0,
            map[ahead.waiterId.value := Waiting(ahead, if config.lifo then 1 else 0),
                behind.waiterId.value := Waiting(behind, if config.lifo then 0 else 1)],
            2, ServedBy(key, n), TicksBy(key, n))
  }

  /** While every slot is taken a caller waits, and no slot changes. */
  lemma JoinsLine(rules: Rules, config: QueueConfig, inst: R.Instance, s: Pair, item: Item)
    requires Capped(config) && inst.waiterTtlMs > 0 && KeyOk(rules, item.key)
    requires s.local.inFlight == Cap(config) && item.waiterId.Some? && item.waiterId.value !in s.local.waiters
    requires Tidy(inst, s.shared) && s.shared.slots.Keys == Names(Cap(config)) && item.waiterId.value !in s.shared.slots
    ensures Polite(rules, s, Ask(0, item))
    ensures var after := Stepped(config, inst, s, Ask(0, item));
      && after.local == Q.Registered(s.local, item)
      && Tidy(inst, after.shared) && after.shared.slots == s.shared.slots
  {
    hide Q.TryAdmit, Q.Took, R.Acquire, R.Valid, Tidy, Names, Q.Full, Q.IsNext, Q.Registered;
    NothingStale(inst, s.shared);
    LocalOutcome(config, s.local, 0, item);
    NotYetFull(config, s.local);
    SharedFull(config, inst, s.shared, item);
  }

  lemma SharedFull(config: QueueConfig, inst: R.Instance, s: R.Shared, item: Item)
    requires Capped(config) && inst.waiterTtlMs > 0 && Tidy(inst, s) && s.slots.Keys == Names(Cap(config))
    ensures R.Valid(s)
    ensures var (after, verdict) := R.Acquire(s, R.ParamsOf(config, inst, 0, item));
      verdict != Admitted && Tidy(inst, after) && after.slots == s.slots
  {
    hide R.Acquire, R.Cleaned, R.Valid, R.Full, R.Beaten, R.Stale, R.Reclaimed;
    var p := R.ParamsOf(config, inst, 0, item);
    NamesExactly(Cap(config));
    AskTidy(config, inst, s, item);
    TidyCleaned(inst, s, p);
    F.AcquireSlots(s, p);
    assert |s.slots| == |s.slots.Keys|;
  }

  /** A scene is well-mannered, and ends as it says. */
  lemma SceneEnds(rules: Rules, config: QueueConfig, inst: R.Instance, key: Option<string>, ahead: Item, behind: Item)
    requires Capped(config) && Pairs(config, ahead, behind) && inst.waiterTtlMs > 0
    requires KeyOk(rules, key) && KeyOk(rules, ahead.key) && KeyOk(rules, behind.key)
    ensures WellMannered(rules, config, inst, Scene(config, key, ahead, behind))
    ensures var s := After(config, inst, Scene(config, key, ahead, behind));
      && s.local == SceneLocal(config, key, ahead, behind) && Tidy(inst, s.shared)
      && s.shared.slots.Keys == Names(Cap(config)) - {Decimal(Cap(config) - 1)}
  {
    hide *;
    var n := Cap(config);
    var (first, second) := Order(config, ahead, behind);
    Filling(rules, config, inst, n, key);
    var full := Fill(n, key);
    var s0 := After(config, inst, full);
    SceneNames(config, ahead, behind);
    FilledIds(config, s0.local, key);
    JoinsLine(rules, config, inst, s0, first);
    Longer(rules, config, inst, full, Ask(0, first));
    var s1 := After(config, inst, full + [Ask(0, first)]);
    TwoRegistered(config, key, ahead, behind);
    JoinsLine(rules, config, inst, s1, second);
    Longer(rules, config, inst, full + [Ask(0, first)], Ask(0, second));
    var s2 := After(config, inst, full + [Ask(0, first)] + [Ask(0, second)]);
    Longer(rules, config, inst, full + [Ask(0, first)] + [Ask(0, second)], Give(Decimal(n - 1)));
    OneGiven(rules, config, inst, s2, Decimal(n - 1));
    SceneShape(config, key, ahead, behind);
  }

  lemma SceneShape(config: QueueConfig, key: Option<string>, ahead: Item, behind: Item)
    requires Capped(config)
    ensures var (first, second) := Order(config, ahead, behind);
      Scene(config, key, ahead, behind) ==
        Fill(Cap(config), key) + [Ask(0, first)] + [Ask(0, second)] + [Give(Decimal(Cap(config) - 1))]
  {
  }

  lemma SceneNames(config: QueueConfig, ahead: Item, behind: Item)
    requires Capped(config) && Pairs(config, ahead, behind)
    ensures ahead.waiterId.value !in Names(Cap(config)) && behind.waiterId.value !in Names(Cap(config))
    ensures Decimal(Cap(config) - 1) in Names(Cap(config)) && ahead.waiterId.value != behind.waiterId.value
    ensures Order(config, ahead, behind) == if config.lifo then (behind, ahead) else (ahead, behind)
    ensures ahead.waiterId.Some? && behind.waiterId.Some?
  {
    hide Decimal, Names;
    var n := Cap(config);
    NamesExactly(n);
    NumeralsDiffer(n, n + 1);
  }

  lemma NumeralsDiffer(m: nat, n: nat)
    requires m != n
    ensures Decimal(m) != Decimal(n)
  {
    assert Parse(Decimal(m)) == m && Parse(Decimal(n)) == n;
  }

  lemma FilledIds(config: QueueConfig, s: Q.State, key: Option<string>)
    requires Capped(config)
    requires s == Q.State(Cap(config), 0, 0, map[], 0, ServedBy(key, Cap(config)), TicksBy(key, Cap(config)))
    ensures s.inFlight == Cap(config) && s.waiters == map[]
  {
  }

  lemma TwoRegistered(config: QueueConfig, key: Option<string>, ahead: Item, behind: Item)
    requires Capped(config) && Pairs(config, ahead, behind) && ahead.waiterId.value != behind.waiterId.value
    ensures var n := Cap(config);
      var (first, second) := Order(config, ahead, behind);
      var s1 := Q.Registered(Q.State(n, 0, 0, map[], 0, ServedBy(key, n), TicksBy(key, n)), first);
      var s2 := Q.Registered(s1, second);
      && s1.inFlight == n && s1.waiters.Keys == {first.waiterId.value} && second.waiterId.value !in s1.waiters
      && s2.inFlight == n && Q.Release(s2) == SceneLocal(config, key, ahead, behind)
  {
    hide Decimal;
  }

  lemma OneGiven(rules: Rules, config: QueueConfig, inst: R.Instance, s: Pair, id: string)
    requires Tidy(inst, s.shared) && id in s.shared.slots
    ensures Polite(rules, s, Give(id))
    ensures var after := Stepped(config, inst, s, Give(id));
      && after.local == Q.Release(s.local) && after.shared == s.shared.(slots := s.shared.slots - {id})
      && Tidy(inst, after.shared) && after.shared.slots.Keys == s.shared.slots.Keys - {id}
  {
    hide R.Numbered;
  }

  // ---------------------------------------------------------------- the empty key

  /** The same call without its key, when that is the empty string. */
  function Mute(c: Command): Command {
    if c.Ask? && c.item.key == Some("") then Ask(c.now, c.item.(key := None)) else c
  }

  function Muted(commands: seq<Command>): seq<Command> {
    if commands == [] then [] else Muted(commands[..|commands| - 1]) + [Mute(commands[|commands| - 1])]
  }

  lemma MutedSnoc(commands: seq<Command>, c: Command)
    ensures Muted(commands + [c]) == Muted(commands) + [Mute(c)]
  {
    assert (commands + [c])[..|commands|] == commands;
  }

  /** To the script, the empty key is no key at all. */
  lemma {:induction false} EmptyKeyUnheard(config: QueueConfig, inst: R.Instance, commands: seq<Command>)
    ensures After(config, inst, commands).shared == After(config, inst, Muted(commands)).shared
  {
    hide R.Acquire, Q.TryAdmit;
    if commands != [] {
      var front, last := commands[..|commands| - 1], commands[|commands| - 1];
      EmptyKeyUnheard(config, inst, front);
      if last.Ask? { MuteUnheard(config, inst, last); }
      Longer(AllRules, config, inst, Muted(front), Mute(last));
      hide After, Muted, R.ParamsOf;
    }
  }

  lemma MuteUnheard(config: QueueConfig, inst: R.Instance, c: Command)
    requires c.Ask?
    ensures R.ParamsOf(config, inst, c.now, c.item) == R.ParamsOf(config, inst, c.now, Mute(c).item)
  {
  }

  lemma {:induction false} MutedFill(n: nat)
    ensures Muted(Fill(n, Some(""))) == Fill(n, None)
  {
    hide Decimal;
    if n > 0 {
      MutedFill(n - 1);
      MutedSnoc(Fill(n - 1, Some("")), Ask(0, Named(n - 1, Some(""))));
    }
  }

  lemma MutedScene(config: QueueConfig, other: Option<string>)
    requires Capped(config) && other != Some("")
    ensures var n := Cap(config);
      Muted(Scene(config, Some(""), Named(n, Some("")), Named(n + 1, other)))
      == Scene(config, None, Named(n, None), Named(n + 1, other))
  {
    hide Decimal, Fill, Muted;
    var n := Cap(config);
    var (first, second) := Order(config, Named(n, Some("")), Named(n + 1, other));
    var full := Fill(n, Some(""));
    MutedFill(n);
    MutedSnoc(full, Ask(0, first));
    MutedSnoc(full + [Ask(0, first)], Ask(0, second));
    MutedSnoc(full + [Ask(0, first)] + [Ask(0, second)], Give(Decimal(n - 1)));
  }

  lemma NamedPairs(config: QueueConfig, a: Option<string>, b: Option<string>)
    requires Capped(config)
    ensures Pairs(config, Named(Cap(config), a), Named(Cap(config) + 1, b))
    ensures Named(Cap(config), a).waiterId.value != Named(Cap(config) + 1, b).waiterId.value
  {
    NumeralsDiffer(Cap(config), Cap(config) + 1);
  }

  /** The one `ahead` asks again under the key it waits with: admitted unless the other's key was served longer ago. */
  lemma AheadAsks(config: QueueConfig, key: Option<string>, ahead: Item, behind: Item)
    requires Capped(config) && Pairs(config, ahead, behind) && ahead.waiterId.value != behind.waiterId.value
    ensures var s := SceneLocal(config, key, ahead, behind);
      Q.TryAdmit(config, s, 0, ahead).1 == Admitted <==>
        !(config.fairByKey && Q.ServedOf(s, behind.key) < Q.ServedOf(s, ahead.key))
  {
    hide Q.TryAdmit, Q.Took, ServedBy, TicksBy, Decimal;
    var s := SceneLocal(config, key, ahead, behind);
    LocalOutcome(config, s, 0, ahead);
    assert behind.waiterId.value in s.waiters;
    assert Q.Registered(s, ahead) == s;
    assert forall id :: id in s.waiters ==> id == ahead.waiterId.value || id == behind.waiterId.value;
  }

  /** The one `behind` asks again, under some key: admitted exactly when that key was served longer ago. */
  lemma BehindAsks(config: QueueConfig, key: Option<string>, ahead: Item, behind: Item, again: Item)
    requires Capped(config) && Pairs(config, ahead, behind) && ahead.waiterId.value != behind.waiterId.value
    requires again == behind.(key := again.key)
    ensures var s := SceneLocal(config, key, ahead, behind);
      Q.TryAdmit(config, s, 0, again).1 == Admitted <==>
        config.fairByKey && Q.ServedOf(s, again.key) < Q.ServedOf(s, ahead.key)
  {
    hide Q.TryAdmit, Q.Took, ServedBy, TicksBy, Decimal;
    var s := SceneLocal(config, key, ahead, behind);
    LocalOutcome(config, s, 0, again);
    assert ahead.waiterId.value in s.waiters;
    var s1 := Q.Registered(s, again);
    assert s1.keyServed == s.keyServed;
    assert s1.waiters[ahead.waiterId.value] == s.waiters[ahead.waiterId.value];
    assert Q.Caller(s1, again) == s1.waiters[behind.waiterId.value];
    assert s1.waiters[behind.waiterId.value] == Waiting(again, if config.lifo then 0 else 1);
    assert forall id :: id in s1.waiters ==> id == ahead.waiterId.value || id == behind.waiterId.value;
  }

  /** The slots fill under the empty key; the first of two waiters, of the empty key too, asks again. */
  function EmptyKeyScene(config: QueueConfig, other: Option<string>): seq<Command>
    requires Capped(config)
  {
    var n := Cap(config);
    Scene(config, Some(""), Named(n, Some("")), Named(n + 1, other)) + [Ask(0, Named(n, Some("")))]
  }

  /**
   * Under fairness the empty key is a key in process and no key at all to the script. Once it has been
   * served, the controller passes its waiter over for one of another key, or of none; the script admits it.
   */
  lemma EmptyKeyDiverges(config: QueueConfig, inst: R.Instance, other: Option<string>)
    requires Capped(config) && config.fairByKey && inst.waiterTtlMs > 0 && other != Some("")
    ensures WellMannered(AllRules.(namedKeys := false), config, inst, EmptyKeyScene(config, other))
    ensures !SameAnswers(config, inst, EmptyKeyScene(config, other))
  {
    hide *;
    var n := Cap(config);
    var rules, a, a0, b := AllRules.(namedKeys := false), Named(n, Some("")), Named(n, None), Named(n + 1, other);
    var scene, muted := Scene(config, Some(""), a, b), Scene(config, None, a0, b);
    SceneOf(config, other);
    NamedKeys(n, Some(""), n + 1, other);
    NamedKeys(n, None, n + 1, other);
    NamedPairs(config, Some(""), other);
    NamedPairs(config, None, other);
    AnyKey(rules);
    NotEmpty(AllRules, None);
    NotEmpty(AllRules, other);
    SceneEnds(rules, config, inst, Some(""), a, b);
    SceneEnds(AllRules, config, inst, None, a0, b);
    AsksAgain(rules, config, inst, After(config, inst, scene), Some(""), a, b, a);
    AsksAgain(AllRules, config, inst, After(config, inst, muted), None, a0, b, a0);
    Longer(rules, config, inst, scene, Ask(0, a));
    Longer(AllRules, config, inst, muted, Ask(0, a0));
    AheadAsks(config, Some(""), a, b);
    AheadAsks(config, None, a0, b);
    ServedInScene(config, Some(""), a, b);
    ServedInScene(config, None, a0, b);
    CappedEnough(config);
    CappedAgrees(AllRules, config, inst, muted + [Ask(0, a0)]);
    MutedScene(config, other);
    EmptyKeyUnheard(config, inst, scene);
    MuteUnheard(config, inst, Ask(0, a));
    MuteNamed(n);
    AnswersDiffer(config, inst, After(config, inst, scene), After(config, inst, muted), a, a0);
  }

  lemma SceneOf(config: QueueConfig, other: Option<string>)
    requires Capped(config)
    ensures var n := Cap(config);
      EmptyKeyScene(config, other)
      == Scene(config, Some(""), Named(n, Some("")), Named(n + 1, other)) + [Ask(0, Named(n, Some("")))]
  {
  }

  lemma NamedKeys(m: nat, a: Option<string>, n: nat, b: Option<string>)
    ensures Named(m, a).key == a && Named(n, b).key == b && Named(m, a).waiterId.Some? && Named(n, b).waiterId.Some?
  {
  }

  lemma MuteNamed(n: nat)
    ensures Mute(Ask(0, Named(n, Some("")))) == Ask(0, Named(n, None))
  {
  }

  lemma AnyKey(rules: Rules)
    ensures !rules.namedKeys ==> forall key :: KeyOk(rules, key)
  {
  }

  lemma NotEmpty(rules: Rules, key: Option<string>)
    requires key != Some("")
    ensures KeyOk(rules, key)
  {
  }

  lemma CappedEnough(config: QueueConfig)
    requires Capped(config)
    ensures Comparable(config) && config.concurrency.Some? && Enough(config, AllRules)
  {
  }

  /**
   * At the end of a scene either of the two waiters may ask again, under its own key or, the rules
   * allowing, another.
   */
  lemma AsksAgain(rules: Rules, config: QueueConfig, inst: R.Instance, s: Pair, key: Option<string>,
                  ahead: Item, behind: Item, again: Item)
    requires Capped(config) && Pairs(config, ahead, behind) && ahead.waiterId.value != behind.waiterId.value
    requires s.local == SceneLocal(config, key, ahead, behind) && Tidy(inst, s.shared)
    requires s.shared.slots.Keys == Names(Cap(config)) - {Decimal(Cap(config) - 1)}
    requires KeyOk(rules, again.key)
    requires again == ahead || again == behind || (!rules.keptKeys && again == behind.(key := again.key))
    ensures Polite(rules, s, Ask(0, again))
  {
    hide R.Valid, ServedBy, TicksBy, Names, Decimal;
    SceneNames(config, ahead, behind);
    NothingStale(inst, s.shared);
  }

  /** At the end of a scene the key that took the slots was served last, and no other key ever. */
  lemma ServedInScene(config: QueueConfig, key: Option<string>, ahead: Item, behind: Item)
    requires Capped(config) && Pairs(config, ahead, behind)
    ensures var s := SceneLocal(config, key, ahead, behind);
      forall k :: Q.ServedOf(s, k) == if key.Some? && k == key then Cap(config) else 0
  {
    hide Decimal;
  }

  lemma AnswersDiffer(config: QueueConfig, inst: R.Instance, s: Pair, s0: Pair, item: Item, item0: Item)
    requires R.Valid(s.shared) && R.Valid(s0.shared) && s.shared == s0.shared
    requires R.ParamsOf(config, inst, 0, item) == R.ParamsOf(config, inst, 0, item0)
    requires SameAnswer(config, inst, s0, Ask(0, item0))
    requires (Q.TryAdmit(config, s.local, 0, item).1 == Admitted)
      != (Q.TryAdmit(config, s0.local, 0, item0).1 == Admitted)
    ensures !SameAnswer(config, inst, s, Ask(0, item))
  {
    hide Q.TryAdmit, R.Acquire, R.ParamsOf, R.Valid;
  }

  // ---------------------------------------------------------------- a key that changes

  /** The slots fill under `x`; two of that key wait; the second asks again, now under `y`. */
  function ChangedKeyScene(config: QueueConfig, x: string, y: Option<string>): seq<Command>
    requires Capped(config)
  {
    var n := Cap(config);
    Scene(config, Some(x), Named(n, Some(x)), Named(n + 1, Some(x))) + [Ask(0, Named(n + 1, y))]
  }

  /** The script keeps a waiter under the key it first gave: its verdict does not depend on the key given now. */
  lemma LaterKeyUnheard(config: QueueConfig, inst: R.Instance, s: R.Shared, item: Item, again: Item)
    requires Capped(config) && Tidy(inst, s) && item.waiterId.Some? && item.waiterId.value in s.waiters
    requires again == item.(key := again.key)
    ensures R.Valid(s)
    ensures R.Acquire(s, R.ParamsOf(config, inst, 0, again)).1 == Admitted <==>
      R.Acquire(s, R.ParamsOf(config, inst, 0, item)).1 == Admitted
  {
    hide R.Acquire, R.Cleaned, R.Valid, R.Full, R.Stale, R.Reclaimed, R.SlotTaken;
    var p, p2, beaten := R.ParamsOf(config, inst, 0, item), R.ParamsOf(config, inst, 0, again), R.Beaten(s, inst.id);
    TidyCleaned(inst, s, p);
    TidyCleaned(inst, s, p2);
    R.CleanedValid(s, p);
    R.EnlistedValid(beaten, p);
    R.EnlistedValid(beaten, p2);
    SharedOutcome(s, p);
    SharedOutcome(s, p2);
    SameEnlisted(beaten, p, p2);
    SameFullness(beaten, p, p2);
    SameRight(R.Enlisted(beaten, p), p, p2);
  }

  lemma SameEnlisted(s: R.Shared, p: R.Params, p2: R.Params)
    requires p.waiterId in s.waiters && p2 == p.(fairKey := p2.fairKey)
    ensures R.Enlisted(s, p2) == R.Enlisted(s, p)
  {
    hide R.Meta;
  }

  lemma SameFullness(s: R.Shared, p: R.Params, p2: R.Params)
    requires p2 == p.(fairKey := p2.fairKey)
    ensures R.Full(s, p2) <==> R.Full(s, p)
  {
  }

  lemma SameRight(s: R.Shared, p: R.Params, p2: R.Params)
    requires R.Valid(s) && p2 == p.(fairKey := p2.fairKey)
    ensures R.RightfulNext(s, p2, p2.waiterId) <==> R.RightfulNext(s, p, p.waiterId)
  {
    hide R.InTier, R.WellFormed, R.SeqIn, R.KeyIn;
  }

  /**
   * Under fairness a waiter that comes back under another key is a waiter of that key in process, and of
   * the old one to the script: the controller admits it ahead of one of the old key, the script does not.
   */
  lemma ChangedKeyDiverges(config: QueueConfig, inst: R.Instance, x: string, y: Option<string>)
    requires Capped(config) && config.fairByKey && inst.waiterTtlMs > 0
    requires x != "" && y != Some("") && y != Some(x)
    ensures WellMannered(AllRules.(keptKeys := false), config, inst, ChangedKeyScene(config, x, y))
    ensures !SameAnswers(config, inst, ChangedKeyScene(config, x, y))
  {
    hide *;
    var n := Cap(config);
    var rules, a, b, again := AllRules.(keptKeys := false), Named(n, Some(x)), Named(n + 1, Some(x)), Named(n + 1, y);
    var scene := Scene(config, Some(x), a, b);
    ChangedSceneOf(config, x, y);
    NamedKeys(n, Some(x), n + 1, Some(x));
    Renamed(n + 1, Some(x), y);
    NamedPairs(config, Some(x), Some(x));
    NotEmpty(rules, Some(x));
    NotEmpty(rules, y);
    NotEmpty(AllRules, Some(x));
    SceneEnds(rules, config, inst, Some(x), a, b);
    SceneEnds(AllRules, config, inst, Some(x), a, b);
    var s := After(config, inst, scene);
    AsksAgain(rules, config, inst, s, Some(x), a, b, again);
    AsksAgain(AllRules, config, inst, s, Some(x), a, b, b);
    Longer(rules, config, inst, scene, Ask(0, again));
    Longer(AllRules, config, inst, scene, Ask(0, b));
    BehindAsks(config, Some(x), a, b, again);
    BehindAsks(config, Some(x), a, b, b);
    ServedInScene(config, Some(x), a, b);
    CappedEnough(config);
    CappedAgrees(AllRules, config, inst, scene + [Ask(0, b)]);
    CappedAgrees(AllRules, config, inst, scene);
    BothWait(config, inst, s, Some(x), a, b);
    LaterKeyUnheard(config, inst, s.shared, b, again);
    VerdictsDiffer(config, inst, s, b, again);
  }

  lemma ChangedSceneOf(config: QueueConfig, x: string, y: Option<string>)
    requires Capped(config)
    ensures var n := Cap(config);
      ChangedKeyScene(config, x, y)
      == Scene(config, Some(x), Named(n, Some(x)), Named(n + 1, Some(x))) + [Ask(0, Named(n + 1, y))]
  {
  }

  lemma Renamed(n: nat, x: Option<string>, y: Option<string>)
    ensures Named(n, y) == Named(n, x).(key := y)
  {
  }

  lemma BothWait(config: QueueConfig, inst: R.Instance, s: Pair, key: Option<string>, ahead: Item, behind: Item)
    requires Capped(config) && Pairs(config, ahead, behind)
    requires s.local == SceneLocal(config, key, ahead, behind) && Related(config, inst, s.local, s.shared)
    ensures behind.waiterId.Some? && behind.waiterId.value in s.shared.waiters
  {
    hide R.Valid, SameServed, SameHeld, SameWaiter, R.WellFormed, R.SeqIn;
    assert behind.waiterId.value in s.local.waiters;
  }

  lemma VerdictsDiffer(config: QueueConfig, inst: R.Instance, s: Pair, item: Item, again: Item)
    requires R.Valid(s.shared) && SameAnswer(config, inst, s, Ask(0, item))
    requires R.Acquire(s.shared, R.ParamsOf(config, inst, 0, again)).1 == Admitted <==>
      R.Acquire(s.shared, R.ParamsOf(config, inst, 0, item)).1 == Admitted
    requires (Q.TryAdmit(config, s.local, 0, item).1 == Admitted)
      != (Q.TryAdmit(config, s.local, 0, again).1 == Admitted)
    ensures !SameAnswer(config, inst, s, Ask(0, again))
  {
    hide Q.TryAdmit, R.Acquire, R.ParamsOf, R.Valid;
  }

  // ---------------------------------------------------------------- an id that holds a slot

  const OneId := Item(None, None, Some("id"))

  /** One caller asks, and asks again, under one id. */
  function Again(n: nat): seq<Command> { if n == 0 then [] else Again(n - 1) + [Ask(0, OneId)] }

  lemma {:induction false} AskingAgain(config: QueueConfig, inst: R.Instance, n: nat)
    requires Capped(config) && Cap(config) >= 2 && n <= Cap(config) && inst.waiterTtlMs > 0
    ensures WellMannered(AllRules.(freeIds := false), config, inst, Again(n))
    ensures After(config, inst, Again(n)).local == Q.State(n, 0, 0, map[], 0, map[], 0)
    ensures var s := After(config, inst, Again(n)).shared;
      Tidy(inst, s) && s.waiters == map[] && s.slots.Keys <= {"id"}
  {
    hide *;
    AgainShape(n);
    if n == 0 {
      FillNone(AllRules.(freeIds := false), config, inst, None);
      NoneServed();
    } else {
      AskingAgain(config, inst, n - 1);
      Longer(AllRules.(freeIds := false), config, inst, Again(n - 1), Ask(0, OneId));
      AgainOne(config, inst, After(config, inst, Again(n - 1)), n);
    }
  }

  lemma AgainShape(n: nat)
    ensures Again(n) == if n == 0 then [] else Again(n - 1) + [Ask(0, OneId)]
  {
  }

  lemma NoneServed()
    ensures ServedBy(None, 0) == map[] && TicksBy(None, 0) == 0 && Names(0) == {}
  {
  }

  lemma AgainOne(config: QueueConfig, inst: R.Instance, s: Pair, n: nat)
    requires Capped(config) && Cap(config) >= 2 && 0 < n <= Cap(config) && inst.waiterTtlMs > 0
    requires s.local == Q.State(n - 1, 0, 0, map[], 0, map[], 0)
    requires Tidy(inst, s.shared) && s.shared.waiters == map[] && s.shared.slots.Keys <= {"id"}
    ensures Polite(AllRules.(freeIds := false), s, Ask(0, OneId))
    ensures var after := Stepped(config, inst, s, Ask(0, OneId));
      && after.local == Q.State(n, 0, 0, map[], 0, map[], 0)
      && Tidy(inst, after.shared) && after.shared.waiters == map[] && after.shared.slots.Keys <= {"id"}
  {
    hide Q.TryAdmit, R.Acquire, R.Valid, Tidy, Q.Full, Q.IsNext, Q.Registered;
    NothingStale(inst, s.shared);
    LocalOutcome(config, s.local, 0, OneId);
    NotYetFull(config, s.local);
    SharedAgain(config, inst, s.shared);
  }

  /** To the script the id holds one slot, however often it asks: a cap of two is never reached. */
  lemma SharedAgain(config: QueueConfig, inst: R.Instance, s: R.Shared)
    requires Capped(config) && Cap(config) >= 2 && inst.waiterTtlMs > 0
    requires Tidy(inst, s) && s.waiters == map[] && s.slots.Keys <= {"id"}
    ensures R.Valid(s)
    ensures var (after, verdict) := R.Acquire(s, R.ParamsOf(config, inst, 0, OneId));
      verdict == Admitted && Tidy(inst, after) && after.waiters == map[] && after.slots.Keys <= {"id"}
  {
    hide R.Acquire, R.Cleaned, R.Valid, R.Full, R.Beaten, R.Stale, R.Reclaimed;
    var p := R.ParamsOf(config, inst, 0, OneId);
    AskTidy(config, inst, s, OneId);
    TidyCleaned(inst, s, p);
    BeatenExpiry(s, inst.id);
    assert s.slots.Keys == {} || s.slots.Keys == {"id"};
    RoomLeft(s, p, |s.slots.Keys|);
    NobodyCleaned(s, p);
    SoloAdmitted(s, p);
  }

  /** In process it holds as many slots as calls were admitted, and the cap is reached. */
  lemma HeldIdDiverges(config: QueueConfig, inst: R.Instance)
    requires Capped(config) && Cap(config) >= 2 && inst.waiterTtlMs > 0
    ensures WellMannered(AllRules.(freeIds := false), config, inst, Again(Cap(config) + 1))
    ensures !SameAnswers(config, inst, Again(Cap(config) + 1))
  {
    hide Stepped, After, WellMannered, SameAnswers, R.Acquire, Q.TryAdmit, Tidy, R.Valid, Again, R.Stale;
    var n, rules := Cap(config), AllRules.(freeIds := false);
    AskingAgain(config, inst, n);
    AgainShape(n + 1);
    var s := After(config, inst, Again(n));
    Longer(rules, config, inst, Again(n), Ask(0, OneId));
    NothingStale(inst, s.shared);
    LocalOutcome(config, s.local, 0, OneId);
    NotYetFull(config, s.local);
    SharedAgain(config, inst, s.shared);
  }

  // ---------------------------------------------------------------- a slot that is not held

  /** All slots are taken; one more is given back that nobody holds; one more caller asks. */
  function UnheldScene(config: QueueConfig): seq<Command>
    requires Capped(config)
  {
    Fill(Cap(config), None) + [Give(Decimal(Cap(config)))] + [Ask(0, Named(Cap(config), None))]
  }

  /** The controller counts the slot as free, and admits the caller; the script knows none was held. */
  lemma UnheldGiveDiverges(config: QueueConfig, inst: R.Instance)
    requires Capped(config) && inst.waiterTtlMs > 0
    ensures WellMannered(AllRules.(heldGives := false), config, inst, UnheldScene(config))
    ensures !SameAnswers(config, inst, UnheldScene(config))
  {
    hide *;
    var n, rules := Cap(config), AllRules.(heldGives := false);
    var full, item := Fill(n, None), Named(n, None);
    UnheldShape(config);
    NotEmpty(rules, None);
    Filling(rules, config, inst, n, None);
    Longer(rules, config, inst, full, Give(Decimal(n)));
    var s := After(config, inst, full);
    GivesNothing(rules, config, inst, s);
    var s1 := After(config, inst, full + [Give(Decimal(n))]);
    Longer(rules, config, inst, full + [Give(Decimal(n))], Ask(0, item));
    OneTooMany(rules, config, inst, s1);
  }

  lemma UnheldShape(config: QueueConfig)
    requires Capped(config)
    ensures var n := Cap(config);
      UnheldScene(config) == Fill(n, None) + [Give(Decimal(n))] + [Ask(0, Named(n, None))]
  {
  }

  lemma GivesNothing(rules: Rules, config: QueueConfig, inst: R.Instance, s: Pair)
    requires Capped(config) && !rules.heldGives
    requires s.local == Q.State(Cap(config), 0, 0, map[], 0, ServedBy(None, Cap(config)), TicksBy(None, Cap(config)))
    requires Tidy(inst, s.shared) && s.shared.slots.Keys == Names(Cap(config))
    ensures Polite(rules, s, Give(Decimal(Cap(config))))
    ensures var after := Stepped(config, inst, s, Give(Decimal(Cap(config))));
      && after.local == s.local.(inFlight := Cap(config) - 1)
      && Tidy(inst, after.shared) && after.shared.slots == s.shared.slots
  {
    hide Decimal, Names, R.Numbered;
    NamesExactly(Cap(config));
    assert s.shared.slots - {Decimal(Cap(config))} == s.shared.slots;
  }

  lemma OneTooMany(rules: Rules, config: QueueConfig, inst: R.Instance, s: Pair)
    requires Capped(config) && inst.waiterTtlMs > 0
    requires s.local.inFlight == Cap(config) - 1 && s.local.waiters == map[]
    requires Tidy(inst, s.shared) && s.shared.slots.Keys == Names(Cap(config))
    ensures Polite(rules, s, Ask(0, Named(Cap(config), None)))
    ensures !SameAnswer(config, inst, s, Ask(0, Named(Cap(config), None)))
  {
    hide Q.TryAdmit, Q.Took, R.Acquire, R.Valid, Tidy, Names, Q.Full, Q.IsNext, Q.Registered, R.Stale, Decimal;
    var item := Named(Cap(config), None);
    NamesExactly(Cap(config));
    NothingStale(inst, s.shared);
    LocalOutcome(config, s.local, 0, item);
    NotYetFull(config, s.local);
    SharedFull(config, inst, s.shared, item);
  }

  // ---------------------------------------------------------------- a call without an id

  const Nameless := Item(Some(1), None, None)

  /** All slots are taken; a call without an id is blocked; a slot is given back; an identified caller asks. */
  function NamelessScene(config: QueueConfig): seq<Command>
    requires Capped(config)
  {
    var n := Cap(config);
    Fill(n, None) + [Ask(0, Nameless)] + [Give(Decimal(n - 1))] + [Ask(0, Named(n, None))]
  }

  /** To the script the blocked call goes on waiting, ahead of the other; the controller has forgotten it. */
  lemma NamelessDiverges(config: QueueConfig, inst: R.Instance)
    requires Capped(config) && inst.waiterTtlMs > 0
    ensures WellMannered(AllRules.(identified := false), config, inst, NamelessScene(config))
    ensures !SameAnswers(config, inst, NamelessScene(config))
  {
    hide *;
    LastName(config);
    var n, rules := Cap(config), AllRules.(identified := false);
    var full, item, give := Fill(n, None), Named(n, None), Give(Decimal(n - 1));
    NamelessShape(config);
    NotEmpty(rules, None);
    Filling(rules, config, inst, n, None);
    var s := After(config, inst, full);
    Longer(rules, config, inst, full, Ask(0, Nameless));
    NamelessBlocked(rules, config, inst, s);
    var s1 := After(config, inst, full + [Ask(0, Nameless)]);
    Longer(rules, config, inst, full + [Ask(0, Nameless)], give);
    OneGiven(rules, config, inst, s1, Decimal(n - 1));
    ReleasedOne(s1.local);
    WaitsOn(inst, s1.shared, Decimal(n - 1));
    var s2 := After(config, inst, full + [Ask(0, Nameless)] + [give]);
    Longer(rules, config, inst, full + [Ask(0, Nameless)] + [give], Ask(0, item));
    Overtaken(rules, config, inst, s2);
  }

  lemma NamelessShape(config: QueueConfig)
    requires Capped(config)
    ensures var n := Cap(config);
      NamelessScene(config)
      == Fill(n, None) + [Ask(0, Nameless)] + [Give(Decimal(n - 1))] + [Ask(0, Named(n, None))]
  {
  }

  lemma LastName(config: QueueConfig)
    requires Capped(config)
    ensures Cap(config) >= 1 && Decimal(Cap(config) - 1) in Names(Cap(config))
  {
    hide Decimal;
  }

  /** Under `id`, with score -1, waits someone who has not expired at time 0. */
  predicate WaitsFirst(s: R.Shared, id: string) { id in s.waiters && s.waiters[id] == -1 }

  lemma NamelessBlocked(rules: Rules, config: QueueConfig, inst: R.Instance, s: Pair)
    requires Capped(config) && inst.waiterTtlMs > 0 && !rules.identified
    requires s.local == Q.State(Cap(config), 0, 0, map[], 0, ServedBy(None, Cap(config)), TicksBy(None, Cap(config)))
    requires Tidy(inst, s.shared) && s.shared.slots.Keys == Names(Cap(config))
    ensures Polite(rules, s, Ask(0, Nameless))
    ensures var after := Stepped(config, inst, s, Ask(0, Nameless));
      && after.local == s.local && Tidy(inst, after.shared) && after.shared.slots == s.shared.slots
      && WaitsFirst(after.shared, R.AnonymousId(0))
  {
    hide R.Acquire, R.Valid, Tidy, Names, R.Stale, R.AnonymousId, WaitsFirst;
    NothingStale(inst, s.shared);
    SharedFull(config, inst, s.shared, Nameless);
    FullEnlists(config, inst, s.shared, Nameless);
  }

  /** A caller the script orders, blocked by the cap, waits on with its priority. */
  lemma FullEnlists(config: QueueConfig, inst: R.Instance, s: R.Shared, item: Item)
    requires Capped(config) && Tidy(inst, s) && s.slots.Keys == Names(Cap(config)) && item.priority == Some(1)
    ensures R.Valid(s)
    ensures WaitsFirst(R.Acquire(s, R.ParamsOf(config, inst, 0, item)).0, R.ParamsOf(config, inst, 0, item).waiterId)
  {
    hide R.Cleaned, R.Valid, R.Reclaimed, R.Beaten, R.Meta, R.RightfulNext, R.SlotTaken;
    var p := R.ParamsOf(config, inst, 0, item);
    NamesExactly(Cap(config));
    TidyCleaned(inst, s, p);
    BeatenExpiry(s, inst.id);
    assert |s.slots| == |s.slots.Keys|;
  }

  lemma WaitsOn(inst: R.Instance, s: R.Shared, slotId: string)
    requires WaitsFirst(s, R.AnonymousId(0))
    ensures WaitsFirst(s.(slots := s.slots - {slotId}), R.AnonymousId(0))
  {
  }

  lemma Overtaken(rules: Rules, config: QueueConfig, inst: R.Instance, s: Pair)
    requires Capped(config) && inst.waiterTtlMs > 0
    requires s.local.inFlight == Cap(config) - 1 && s.local.waiters == map[]
    requires Tidy(inst, s.shared) && WaitsFirst(s.shared, R.AnonymousId(0))
    requires s.shared.slots.Keys == Names(Cap(config)) - {Decimal(Cap(config) - 1)}
    ensures Polite(rules, s, Ask(0, Named(Cap(config), None)))
    ensures !SameAnswer(config, inst, s, Ask(0, Named(Cap(config), None)))
  {
    hide Q.TryAdmit, Q.Took, R.Acquire, R.Valid, Tidy, Names, Q.Full, Q.IsNext, Q.Registered, R.Stale, Decimal;
    var item := Named(Cap(config), None);
    NamesExactly(Cap(config));
    NothingStale(inst, s.shared);
    LocalOutcome(config, s.local, 0, item);
    NotYetFull(config, s.local);
    NamelessAhead(config, inst, s.shared);
  }

  lemma NamelessAhead(config: QueueConfig, inst: R.Instance, s: R.Shared)
    requires Capped(config) && Tidy(inst, s) && WaitsFirst(s, R.AnonymousId(0))
    ensures R.Valid(s)
    ensures R.Acquire(s, R.ParamsOf(config, inst, 0, Named(Cap(config), None))).1 != Admitted
  {
    hide R.Acquire, R.Cleaned, R.Valid, R.Full, R.Reclaimed, R.SlotTaken, R.Meta, R.Stale;
    var p := R.ParamsOf(config, inst, 0, Named(Cap(config), None));
    TidyCleaned(inst, s, p);
    R.CleanedValid(s, p);
    R.EnlistedValid(R.Beaten(s, inst.id), p);
    SharedOutcome(s, p);
    NumeralNotAnonymous(Cap(config));
    hide Decimal, R.AnonymousId;
    var enlisted := R.Enlisted(R.Beaten(s, inst.id), p);
    assert R.AnonymousId(0) in enlisted.waiters && enlisted.waiters[R.AnonymousId(0)] == -1;
    assert enlisted.waiters[p.waiterId] == 0;
  }

  lemma NumeralNotAnonymous(n: nat)
    ensures Decimal(n) != R.AnonymousId(0)
  {
    assert IsDigit(Decimal(n)[0]) && R.AnonymousId(0)[0] == 'a';
  }

  // ---------------------------------------------------------------- a place that has expired

  /**
   * All slots are taken; a caller of higher priority waits; a slot is given back; when its place
   * expires, another asks.
   */
  function ExpiredScene(config: QueueConfig, inst: R.Instance): seq<Command>
    requires Capped(config)
  {
    var n := Cap(config);
    Fill(n, None) + [Ask(0, Urgent(n))] + [Give(Decimal(n - 1))] + [Ask(inst.waiterTtlMs, Named(n + 1, None))]
  }

  function Urgent(n: nat): Item { Item(Some(1), None, Some(Decimal(n))) }

  /** The script has dropped the waiter, and admits the other; the controller still keeps its place. */
  lemma ExpiredDiverges(config: QueueConfig, inst: R.Instance)
    requires Capped(config) && inst.waiterTtlMs > 0
    ensures WellMannered(AllRules.(unexpired := false), config, inst, ExpiredScene(config, inst))
    ensures !SameAnswers(config, inst, ExpiredScene(config, inst))
  {
    hide *;
    LastName(config);
    var n, rules, ttl := Cap(config), AllRules.(unexpired := false), inst.waiterTtlMs;
    var full, first, item, give := Fill(n, None), Urgent(n), Named(n + 1, None), Give(Decimal(n - 1));
    ExpiredShape(config, inst);
    NotEmpty(rules, None);
    Filling(rules, config, inst, n, None);
    var s := After(config, inst, full);
    Longer(rules, config, inst, full, Ask(0, first));
    UrgentWaits(rules, config, inst, s);
    var s1 := After(config, inst, full + [Ask(0, first)]);
    Longer(rules, config, inst, full + [Ask(0, first)], give);
    OneGiven(rules, config, inst, s1, Decimal(n - 1));
    ReleasedOne(s1.local);
    OnlyWaiter(s1.shared, Decimal(n - 1), Decimal(n), ttl);
    var s2 := After(config, inst, full + [Ask(0, first)] + [give]);
    Longer(rules, config, inst, full + [Ask(0, first)] + [give], Ask(ttl, item));
    NoLongerWaits(rules, config, inst, s2);
  }

  lemma ExpiredShape(config: QueueConfig, inst: R.Instance)
    requires Capped(config)
    ensures var n := Cap(config);
      ExpiredScene(config, inst) == Fill(n, None) + [Ask(0, Urgent(n))] + [Give(Decimal(n - 1))]
        + [Ask(inst.waiterTtlMs, Named(n + 1, None))]
  {
  }

  /** Only `id` waits, until `expiry`. */
  predicate WaitsUntil(s: R.Shared, id: string, expiry: int) {
    s.waiters.Keys == {id} && s.wexpire == map[id := expiry]
  }

  lemma OnlyWaiter(s: R.Shared, slotId: string, id: string, expiry: int)
    requires WaitsUntil(s, id, expiry)
    ensures WaitsUntil(s.(slots := s.slots - {slotId}), id, expiry)
  {
  }

  lemma ReleasedOne(s: Q.State)
    ensures Q.Release(s).waiters == s.waiters && (s.inFlight > 0 ==> Q.Release(s).inFlight == s.inFlight - 1)
  {
  }

  lemma UrgentWaits(rules: Rules, config: QueueConfig, inst: R.Instance, s: Pair)
    requires Capped(config) && inst.waiterTtlMs > 0
    requires s.local == Q.State(Cap(config), 0, 0, map[], 0, ServedBy(None, Cap(config)), TicksBy(None, Cap(config)))
    requires Tidy(inst, s.shared) && s.shared.waiters == map[] && s.shared.slots.Keys == Names(Cap(config))
    ensures Polite(rules, s, Ask(0, Urgent(Cap(config))))
    ensures var after := Stepped(config, inst, s, Ask(0, Urgent(Cap(config))));
      && after.local.inFlight == Cap(config)
      && after.local.waiters == map[Decimal(Cap(config)) := Q.Waiter(1, None, Some(0))]
      && Tidy(inst, after.shared) && after.shared.slots == s.shared.slots
      && WaitsUntil(after.shared, Decimal(Cap(config)), inst.waiterTtlMs)
  {
    hide Q.TryAdmit, Q.Took, R.Acquire, R.Valid, Tidy, Names, Q.Full, Q.IsNext, R.Stale, Decimal, WaitsUntil;
    var item := Urgent(Cap(config));
    NamesExactly(Cap(config));
    NothingStale(inst, s.shared);
    LocalOutcome(config, s.local, 0, item);
    NotYetFull(config, s.local);
    SharedFull(config, inst, s.shared, item);
    FirstInLine(config, inst, s.shared, item);
  }

  lemma FirstInLine(config: QueueConfig, inst: R.Instance, s: R.Shared, item: Item)
    requires Capped(config) && Tidy(inst, s) && s.slots.Keys == Names(Cap(config)) && s.waiters == map[]
    requires item.waiterId.Some?
    ensures R.Valid(s)
    ensures WaitsUntil(R.Acquire(s, R.ParamsOf(config, inst, 0, item)).0, item.waiterId.value, inst.waiterTtlMs)
  {
    hide R.Cleaned, R.Reclaimed, R.Beaten, R.Meta, R.RightfulNext, R.SlotTaken, R.Numbered;
    var p := R.ParamsOf(config, inst, 0, item);
    NamesExactly(Cap(config));
    TidyCleaned(inst, s, p);
    BeatenExpiry(s, inst.id);
    assert |s.slots| == |s.slots.Keys|;
    assert s.wexpire.Keys == {};
  }

  lemma NoLongerWaits(rules: Rules, config: QueueConfig, inst: R.Instance, s: Pair)
    requires Capped(config) && inst.waiterTtlMs > 0 && !rules.unexpired
    requires s.local.inFlight == Cap(config) - 1
    requires s.local.waiters == map[Decimal(Cap(config)) := Q.Waiter(1, None, Some(0))]
    requires Tidy(inst, s.shared) && WaitsUntil(s.shared, Decimal(Cap(config)), inst.waiterTtlMs)
    requires s.shared.slots.Keys == Names(Cap(config)) - {Decimal(Cap(config) - 1)}
    ensures Polite(rules, s, Ask(inst.waiterTtlMs, Named(Cap(config) + 1, None)))
    ensures !SameAnswer(config, inst, s, Ask(inst.waiterTtlMs, Named(Cap(config) + 1, None)))
  {
    hide Q.TryAdmit, Q.Took, R.Acquire, R.Valid, Tidy, Names, Q.Full, R.Stale, Decimal, WaitsUntil;
    var item := Named(Cap(config) + 1, None);
    NamesExactly(Cap(config));
    NumeralsDiffer(Cap(config), Cap(config) + 1);
    LocalOutcome(config, s.local, inst.waiterTtlMs, item);
    NotYetFull(config, s.local);
    assert !Q.IsNext(config, Q.Registered(s.local, item), item) by {
      assert Decimal(Cap(config)) in Q.Registered(s.local, item).waiters;
    }
    LateAdmitted(config, inst, s.shared, item);
  }

  lemma LateAdmitted(config: QueueConfig, inst: R.Instance, s: R.Shared, item: Item)
    requires Capped(config) && Tidy(inst, s) && WaitsUntil(s, Decimal(Cap(config)), inst.waiterTtlMs)
    requires s.slots.Keys == Names(Cap(config)) - {Decimal(Cap(config) - 1)}
    ensures R.Valid(s)
    ensures R.Acquire(s, R.ParamsOf(config, inst, inst.waiterTtlMs, item)).1 == Admitted
  {
    hide R.Acquire, R.Numbered, Decimal;
    var p := R.ParamsOf(config, inst, inst.waiterTtlMs, item);
    NamesExactly(Cap(config));
    LastName(config);
    assert Names(Cap(config)) == s.slots.Keys + {Decimal(Cap(config) - 1)};
    NothingReclaimed(R.Beaten(s, inst.id), inst.id);
    BeatenExpiry(s, inst.id);
    assert |s.slots| == |s.slots.Keys|;
    assert R.Cleaned(s, p).waiters == map[];
    assert R.Cleaned(s, p).slots == s.slots;
    SoloAdmitted(s, p);
  }

  // ---------------------------------------------------------------- exactly the rules needed

  /** All commands that keep the rules are answered alike. */
  ghost predicate Agree(rules: Rules, config: QueueConfig, inst: R.Instance) {
    forall commands :: WellMannered(rules, config, inst, commands) ==> SameAnswers(config, inst, commands)
  }

  /**
   * Without a rate limit and with the cap unset or positive, the two backends agree on all commands that
   * keep the rules exactly when the rules are enough. Without a cap none is needed. With one, calls carry
   * ids, no place has expired and only held slots are given back; with a cap of two or more, an id that
   * holds a slot does not ask; under fairness, no key is empty and no waiter changes its key.
   */
  lemma RulesExactly(rules: Rules, config: QueueConfig, inst: R.Instance)
    requires Comparable(config) && inst.waiterTtlMs > 0
    ensures Agree(rules, config, inst) <==> Enough(config, rules)
  {
    hide After, WellMannered, SameAnswers;
    if Enough(config, rules) {
      forall commands | WellMannered(rules, config, inst, commands) ensures SameAnswers(config, inst, commands) {
        SameAnswersAlways(rules, config, inst, commands);
      }
    } else if !rules.identified {
      NamelessDiverges(config, inst);
      FewerRules(rules, AllRules.(identified := false), config, inst, NamelessScene(config));
    } else if !rules.unexpired {
      ExpiredDiverges(config, inst);
      FewerRules(rules, AllRules.(unexpired := false), config, inst, ExpiredScene(config, inst));
    } else if !rules.heldGives {
      UnheldGiveDiverges(config, inst);
      FewerRules(rules, AllRules.(heldGives := false), config, inst, UnheldScene(config));
    } else if config.concurrency.value >= 2 && !rules.freeIds {
      HeldIdDiverges(config, inst);
      FewerRules(rules, AllRules.(freeIds := false), config, inst, Again(Cap(config) + 1));
    } else if !rules.namedKeys {
      EmptyKeyDiverges(config, inst, None);
      FewerRules(rules, AllRules.(namedKeys := false), config, inst, EmptyKeyScene(config, None));
    } else {
      ChangedKeyDiverges(config, inst, "x", None);
      FewerRules(rules, AllRules.(keptKeys := false), config, inst, ChangedKeyScene(config, "x", None));
    }
  }

  /** Without a rate limit, the very first call is answered alike exactly when the cap is unset or at least one. */
  lemma CapMustBePositive(config: QueueConfig, inst: R.Instance, now: int, item: Item)
    requires config.rateLimit.None?
    ensures SameAnswer(config, inst, Start, Ask(now, item)) <==> Comparable(config)
  {
    hide R.Acquire, R.Cleaned, R.Valid;
    var p := R.ParamsOf(config, inst, now, item);
    NothingHeld(p);
    NobodyCleaned(R.Empty, p);
    SoloAdmitted(R.Empty, p);
  }

  lemma NothingHeld(p: R.Params)
    ensures R.Valid(R.Empty) && !R.Full(R.Cleaned(R.Empty, p), p)
  {
    assert R.Reclaimed(R.Beaten(R.Empty, p.instanceId)).slots == map[];
  }
}
