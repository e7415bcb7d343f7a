/**
 * Accumulators that coalesce routed events into fewer runs: which events they count, what they
 * remember when they re-arm, and what they fire.
 */
module EventAccumulators {
  import opened Basics

  /** A routed event with an id, or a bare signal. */
  datatype Signal<+P> = Routed(id: string, payload: P) | Bare(payload: P)

  /** What a wait returns. `TimedOut`: a timed wait's window has elapsed. */
  datatype Wake<+P> = Arrived(signal: Signal<P>) | TimedOut

  const SEEN_MAX: nat := 1000

  function Newest(order: seq<string>): seq<string> {
    if |order| > SEEN_MAX then order[|order| - SEEN_MAX..] else order
  }

  predicate IsFresh<P>(order: seq<string>, signal: Signal<P>) { signal.Bare? || signal.id !in order }

  function Recorded<P>(order: seq<string>, signal: Signal<P>): seq<string> {
    if signal.Routed? && signal.id !in order then order + [signal.id] else order
  }

  // ---------------------------------------------------------------- over any number of bursts

  /** The ids remembered, the payloads of the open burst, and those of the bursts fired. */
  datatype State<P> = State(order: seq<string>, open: seq<P>, fired: seq<seq<P>>)

  function Fire<P>(s: State<P>): State<P> { State(Newest(s.order), [], s.fired + [s.open]) }

  /** `maxSize` is a batch's; a debounce has none and fires on a timeout alone. */
  function Step<P>(maxSize: Option<int>, s: State<P>, w: Wake<P>): State<P> {
    if w.TimedOut? then (if s.open == [] then s else Fire(s))
    else if !IsFresh(s.order, w.signal) then s
    else
      var counted := State(Recorded(s.order, w.signal), s.open + [w.signal.payload], s.fired);
      if maxSize.Some? && |counted.open| >= maxSize.value then Fire(counted) else counted
  }

  function Run<P>(maxSize: Option<int>, s: State<P>, wakes: seq<Wake<P>>): State<P> {
    if wakes == [] then s
    else Step(maxSize, Run(maxSize, s, wakes[..|wakes| - 1]), wakes[|wakes| - 1])
  }

  function Born<P>(): State<P> { State([], [], []) }

  /** The ids counted so far, across all bursts. */
  function Counted<P>(maxSize: Option<int>, wakes: seq<Wake<P>>): seq<string> {
    if wakes == [] then []
    else
      var front, w := wakes[..|wakes| - 1], wakes[|wakes| - 1];
      Counted(maxSize, front) +
      if w.Arrived? && w.signal.Routed? && IsFresh(Run(maxSize, Born(), front).order, w.signal)
        then [w.signal.id] else []
  }

  /** The payloads of the events counted so far. */
  function FreshPayloads<P>(maxSize: Option<int>, wakes: seq<Wake<P>>): seq<P> {
    if wakes == [] then []
    else
      var front, w := wakes[..|wakes| - 1], wakes[|wakes| - 1];
      FreshPayloads(maxSize, front) +
      if w.Arrived? && IsFresh(Run(maxSize, Born(), front).order, w.signal) then [w.signal.payload] else []
  }

  /** How many ids had been counted at the last re-arm. */
  function RearmedAt<P>(maxSize: Option<int>, wakes: seq<Wake<P>>): nat {
    if wakes == [] then 0
    else
      var front := wakes[..|wakes| - 1];
      if |Run(maxSize, Born(), wakes).fired| > |Run(maxSize, Born(), front).fired| then |Counted(maxSize, wakes)|
      else RearmedAt(maxSize, front)
  }

  function Forgotten(rearmedAt: nat): nat { if rearmedAt > SEEN_MAX then rearmedAt - SEEN_MAX else 0 }

  /**
   * What is remembered is exactly the ids counted since the last re-arm and the newest thousand of
   * those before it.
   */
  lemma {:induction false} Remembered<P>(maxSize: Option<int>, wakes: seq<Wake<P>>)
    ensures RearmedAt(maxSize, wakes) <= |Counted(maxSize, wakes)|
    ensures Run(maxSize, Born(), wakes).order ==
      Counted(maxSize, wakes)[Forgotten(RearmedAt(maxSize, wakes))..]
  {
    if wakes != [] {
      var front, w := wakes[..|wakes| - 1], wakes[|wakes| - 1];
      Remembered(maxSize, front);
      var s, counted := Run(maxSize, Born<P>(), front), Counted(maxSize, front);
      var cut, all := Forgotten(RearmedAt(maxSize, front)), Counted(maxSize, wakes);
      RecordedSuffix(counted, cut, s.order, w);
      NewestSuffix(all, RearmedAt(maxSize, front));
      hide Newest, Forgotten, IsFresh, Recorded;
    }
  }

  lemma RecordedSuffix<P>(counted: seq<string>, cut: nat, order: seq<string>, w: Wake<P>)
    requires cut <= |counted| && order == counted[cut..]
    ensures counted + [] == counted
    ensures w.Arrived? && IsFresh(order, w.signal) ==>
      Recorded(order, w.signal) == (counted + if w.signal.Routed? then [w.signal.id] else [])[cut..]
  {
  }

  lemma NewestSuffix(all: seq<string>, rearmedAt: nat)
    requires rearmedAt <= |all|
    ensures Forgotten(rearmedAt) <= |all|
    ensures Newest(all[Forgotten(rearmedAt)..]) == all[Forgotten(|all|)..]
  {
  }

  lemma InSuffix(all: seq<string>, cut: nat, i: nat)
    requires cut <= |all| && i < |all|
    ensures cut <= i ==> all[i] in all[cut..]
  {
    if cut <= i { assert all[cut..][i - cut] == all[i]; }
  }

  /** An event whose id is among the last thousand counted is never counted again. */
  lemma {:induction false} NeverRecounted<P>(maxSize: Option<int>, wakes: seq<Wake<P>>)
    ensures var all := Counted(maxSize, wakes);
      forall i, j :: 0 <= i < j < |all| && all[i] == all[j] ==> j - i > 1000
  {
    if wakes != [] {
      var front, w := wakes[..|wakes| - 1], wakes[|wakes| - 1];
      NeverRecounted(maxSize, front);
      Remembered(maxSize, front);
      var counted, all := Counted(maxSize, front), Counted(maxSize, wakes);
      if |all| > |counted| {
        var order := Run(maxSize, Born<P>(), front).order;
        forall i | 0 <= i < |counted| && all[i] == w.signal.id ensures |counted| - i > SEEN_MAX {
          InSuffix(counted, Forgotten(RearmedAt(maxSize, front)), i);
        }
      }
    }
  }

  /** The ids remembered are the newest counted: all of them, or at least a thousand. */
  lemma RemembersEnough<P>(maxSize: Option<int>, wakes: seq<Wake<P>>)
    ensures var order, all := Run(maxSize, Born<P>(), wakes).order, Counted(maxSize, wakes);
      && |order| <= |all| && order == all[|all| - |order|..]
      && |order| >= Min(1000, |all|)
  {
    Remembered(maxSize, wakes);
  }

  /**
   * Exactly when a routed event is counted: its id was never counted, or only before the last re-arm
   * and more than a thousand ids before it.
   */
  lemma CountedAgain<P>(maxSize: Option<int>, wakes: seq<Wake<P>>, id: string, payload: P)
    ensures var all := Counted(maxSize, wakes);
      Counted(maxSize, wakes + [Arrived(Routed(id, payload))]) == all + [id] <==>
      forall i :: 0 <= i < |all| && all[i] == id ==> RearmedAt(maxSize, wakes) - i > 1000
  {
    var more, all := wakes + [Arrived(Routed(id, payload))], Counted(maxSize, wakes);
    var order := Run(maxSize, Born<P>(), wakes).order;
    assert more[..|wakes|] == wakes;
    Remembered(maxSize, wakes);
    var cut := Forgotten(RearmedAt(maxSize, wakes));
    assert all + [] == all && |all + [id]| == |all| + 1;
    if id in order {
      var k :| 0 <= k < |order| && order[k] == id;
      assert all[cut + k] == id;
    } else {
      forall i | 0 <= i < |all| && all[i] == id ensures i < cut {
        InSuffix(all, cut, i);
      }
    }
  }

  // ---------------------------------------------------------------- nothing lost, nothing twice

  function Joined<P>(batches: seq<seq<P>>): seq<P> {
    if batches == [] then [] else Joined(batches[..|batches| - 1]) + batches[|batches| - 1]
  }

  lemma JoinedSnoc<P>(batches: seq<seq<P>>, b: seq<P>)
    ensures Joined(batches + [b]) == Joined(batches) + b
  {
    assert (batches + [b])[..|batches|] == batches;
  }

  /** The batches fired and the open one are exactly the fresh payloads, in order. */
  lemma {:induction false} NothingLost<P>(maxSize: Option<int>, wakes: seq<Wake<P>>)
    ensures var s := Run(maxSize, Born<P>(), wakes); Joined(s.fired) + s.open == FreshPayloads(maxSize, wakes)
  {
    if wakes != [] {
      var front, w := wakes[..|wakes| - 1], wakes[|wakes| - 1];
      NothingLost(maxSize, front);
      var s := Run(maxSize, Born<P>(), front);
      JoinedSnoc(s.fired, s.open);
      assert FreshPayloads(maxSize, front) + [] == FreshPayloads(maxSize, front);
      assert Joined(s.fired) + s.open + [] == Joined(s.fired) + s.open;
      if w.Arrived? {
        var open := s.open + [w.signal.payload];
        JoinedSnoc(s.fired, open);
        assert Joined(s.fired) + open == Joined(s.fired) + s.open + [w.signal.payload];
        assert Joined(s.fired) + open + [] == Joined(s.fired) + open;
      }
    }
  }

  // ---------------------------------------------------------------- what each wake does, signal by signal

  /** The payloads received so far: those fired, then those of the open burst. */
  function Received<P>(maxSize: Option<int>, wakes: seq<Wake<P>>): seq<P> {
    Joined(Run(maxSize, Born<P>(), wakes).fired) + Run(maxSize, Born<P>(), wakes).open
  }

  /** A counted payload joins the open burst, and fires it when that makes a batch of `maxSize`. */
  ghost predicate Takes<P>(maxSize: Option<int>, s: State<P>, payload: P, s2: State<P>) {
    var open := s.open + [payload];
    if maxSize.Some? && |open| >= maxSize.value then s2.fired == s.fired + [open] && s2.open == []
    else s2.fired == s.fired && s2.open == open
  }

  lemma TakesOne<P>(maxSize: Option<int>, s: State<P>, payload: P, s2: State<P>)
    requires Takes(maxSize, s, payload, s2)
    ensures Joined(s2.fired) + s2.open == Joined(s.fired) + s.open + [payload]
  {
    JoinedSnoc(s.fired, s.open + [payload]);
  }

  /** A signal without an id is always taken. */
  lemma BareTaken<P>(maxSize: Option<int>, wakes: seq<Wake<P>>, payload: P)
    ensures var more := wakes + [Arrived(Bare(payload))];
      Takes(maxSize, Run(maxSize, Born(), wakes), payload, Run(maxSize, Born(), more))
    ensures Received(maxSize, wakes + [Arrived(Bare(payload))]) == Received(maxSize, wakes) + [payload]
  {
    var more := wakes + [Arrived(Bare(payload))];
    assert more[..|wakes|] == wakes;
    TakesOne(maxSize, Run(maxSize, Born<P>(), wakes), payload, Run(maxSize, Born<P>(), more));
  }

  /** A routed one is taken exactly when every count of its id lies more than a thousand before the last re-arm. */
  lemma RoutedTaken<P>(maxSize: Option<int>, wakes: seq<Wake<P>>, id: string, payload: P)
    ensures var more, all := wakes + [Arrived(Routed(id, payload))], Counted(maxSize, wakes);
      if forall i :: 0 <= i < |all| && all[i] == id ==> RearmedAt(maxSize, wakes) - i > 1000
      then Takes(maxSize, Run(maxSize, Born(), wakes), payload, Run(maxSize, Born(), more))
        && Received(maxSize, more) == Received(maxSize, wakes) + [payload]
      else Run(maxSize, Born(), more) == Run(maxSize, Born(), wakes)
  {
    var more := wakes + [Arrived(Routed(id, payload))];
    assert more[..|wakes|] == wakes;
    var all := Counted(maxSize, wakes);
    assert all + [] == all && |all + [id]| == |all| + 1;
    CountedAgain(maxSize, wakes, id, payload);
    if Takes(maxSize, Run(maxSize, Born<P>(), wakes), payload, Run(maxSize, Born<P>(), more)) {
      TakesOne(maxSize, Run(maxSize, Born<P>(), wakes), payload, Run(maxSize, Born<P>(), more));
    }
  }

  /** A window that elapses fires the open burst as it stands, when there is one. */
  lemma TimeoutFires<P>(maxSize: Option<int>, wakes: seq<Wake<P>>)
    ensures var s, s2 := Run(maxSize, Born<P>(), wakes), Run(maxSize, Born<P>(), wakes + [TimedOut]);
      if s.open == [] then s2 == s else s2.fired == s.fired + [s.open] && s2.open == []
  {
    assert (wakes + [TimedOut])[..|wakes|] == wakes;
  }

  /** Whatever ids a burst remembers, one that gets a signal without an id before a window elapses fires. */
  lemma {:induction false} BareThenTimeout<P>(maxSize: Option<int>, s: State<P>, wakes: seq<Wake<P>>, i: nat, j: nat)
    requires i < j < |wakes| && wakes[i].Arrived? && wakes[i].signal.Bare? && wakes[j].TimedOut?
    ensures |Run(maxSize, s, wakes).fired| > |s.fired|
  {
    RunFires(maxSize, s, wakes[..i]);
    RunStep(maxSize, s, wakes, i);
    var s1 := Run(maxSize, s, wakes[..i + 1]);
    assert s1.open != [] || |s1.fired| > |s.fired|;
    assert wakes[..j] == wakes[..i + 1] + wakes[i + 1..j];
    RunJoin(maxSize, s, wakes[..i + 1], wakes[i + 1..j]);
    RunFires(maxSize, s1, wakes[i + 1..j]);
    RunStep(maxSize, s, wakes, j);
    assert wakes == wakes[..j + 1] + wakes[j + 1..];
    RunJoin(maxSize, s, wakes[..j + 1], wakes[j + 1..]);
    RunFires(maxSize, Run(maxSize, s, wakes[..j + 1]), wakes[j + 1..]);
  }

  /** Firings are never undone, and an open burst stays open until it fires. */
  lemma {:induction false} RunFires<P>(maxSize: Option<int>, s: State<P>, wakes: seq<Wake<P>>)
    ensures var end := Run(maxSize, s, wakes);
      |end.fired| >= |s.fired| && (s.open != [] ==> end.open != [] || |end.fired| > |s.fired|)
  {
    if wakes != [] { RunFires(maxSize, s, wakes[..|wakes| - 1]); }
  }

  lemma BareStep<P>(maxSize: Option<int>, s: State<P>, payload: P)
    ensures maxSize.None? || |s.open| + 1 < maxSize.value ==>
      Step(maxSize, s, Arrived(Bare(payload))) == s.(open := s.open + [payload])
  {
    hide Newest;
  }

  /** Signals without ids, then a quiet window. */
  function Quiet<P>(payloads: seq<P>): seq<Wake<P>> {
    if payloads == [] then [] else Quiet(payloads[..|payloads| - 1]) + [Arrived(Bare(payloads[|payloads| - 1]))]
  }

  /** While they do not make a batch, such a burst gathers all of them in order, and the timeout fires them. */
  lemma {:induction false} QuietGathers<P>(maxSize: Option<int>, seen: seq<string>, payloads: seq<P>)
    requires maxSize.Some? ==> |payloads| < maxSize.value
    ensures BurstState(maxSize, seen, Quiet(payloads)) == State(seen, payloads, [])
    ensures payloads != [] ==>
      BurstState(maxSize, seen, Quiet(payloads) + [TimedOut]).fired == [payloads]
  {
    hide Newest, IsFresh, Recorded;
    if payloads != [] {
      QuietGathers(maxSize, seen, payloads[..|payloads| - 1]);
      var w: Wake<P> := Arrived(Bare(payloads[|payloads| - 1]));
      var front := Quiet(payloads[..|payloads| - 1]);
      BareStep(maxSize, State(seen, payloads[..|payloads| - 1], []), payloads[|payloads| - 1]);
      assert (front + [w])[..|front|] == front;
      assert (Quiet(payloads) + [TimedOut])[..|Quiet(payloads)|] == Quiet(payloads);
    }
  }

  ghost predicate Sizes<P>(maxSize: Option<int>, s: State<P>) {
    && (forall i :: 0 <= i < |s.fired| ==> |s.fired[i]| >= 1)
    && (maxSize.Some? ==>
          && (forall i :: 0 <= i < |s.fired| ==> |s.fired[i]| <= Max(1, maxSize.value))
          && (s.open != [] ==> |s.open| < maxSize.value))
  }

  /** No batch is empty, and none holds more than `maxSize` (a size below one means one). */
  lemma {:induction false} BatchSizes<P>(maxSize: Option<int>, wakes: seq<Wake<P>>)
    ensures Sizes(maxSize, Run(maxSize, Born<P>(), wakes))
  {
    if wakes != [] {
      BatchSizes(maxSize, wakes[..|wakes| - 1]);
      SizesKept(maxSize, Run(maxSize, Born<P>(), wakes[..|wakes| - 1]), wakes[|wakes| - 1]);
    }
  }

  lemma SizesKept<P>(maxSize: Option<int>, s: State<P>, w: Wake<P>)
    requires Sizes(maxSize, s)
    ensures Sizes(maxSize, Step(maxSize, s, w))
  {
  }

  // ---------------------------------------------------------------- one burst

  class SeenEvents {
    var ids: set<string>
    var order: seq<string>

    ghost predicate Valid()
      reads this
    {
      forall id :: id in ids <==> id in order
    }

    constructor (seen: Option<seq<string>>)
      ensures Valid() && order == SeenOf(seen)
    {
      order := SeenOf(seen);
      ids := set id | id in SeenOf(seen);
    }

    /** Whether a signal is new, recording its id. */
    method Fresh<P>(signal: Signal<P>) returns (isNew: bool)
      requires Valid()
      modifies this
      ensures Valid() && isNew == IsFresh(old(order), signal) && order == Recorded(old(order), signal)
    {
      if signal.Bare? { return true; }
      if signal.id in ids { return false; }
      ids := ids + {signal.id};
      order := order + [signal.id];
      isNew := true;
    }

    /** The ids to re-arm with, when there are any. */
    function Rearm(): (seen: Option<seq<string>>)
      reads this
      ensures SeenOf(seen) == Newest(order)
    {
      if |Newest(order)| > 0 then Some(Newest(order)) else None
    }
  }

  function SeenOf(seen: Option<seq<string>>): seq<string> { if seen.Some? then seen.value else [] }

  /** How a burst ended: with a child started after `used` wakes, or still waiting when they ran out. */
  datatype Burst<C> = Fired(child: C, used: nat, seen: Option<seq<string>>) | Waiting

  /** The run's state once a burst that re-armed with `seen` has seen `wakes`. */
  function BurstState<P>(maxSize: Option<int>, seen: seq<string>, wakes: seq<Wake<P>>): State<P> {
    Run(maxSize, State(seen, [], []), wakes)
  }

  /** The one firing the burst made, and what it re-armed with. */
  predicate FiredOnce<P>(s: State<P>, seen: Option<seq<string>>) {
    s.order == SeenOf(seen) && s.open == [] && |s.fired| == 1 && s.fired[0] != []
  }

  /** What was fired before does not change what comes. */
  lemma {:induction false} EarlierFirings<P>(
      maxSize: Option<int>, s: State<P>, before: seq<seq<P>>, wakes: seq<Wake<P>>)
    ensures var end := Run(maxSize, s, wakes);
      Run(maxSize, s.(fired := before + s.fired), wakes) == end.(fired := before + end.fired)
  {
    if wakes != [] {
      EarlierFirings(maxSize, s, before, wakes[..|wakes| - 1]);
      var mid := Run(maxSize, s, wakes[..|wakes| - 1]);
      hide IsFresh, Recorded, Newest;
      var w := wakes[|wakes| - 1];
      assert before + (mid.fired + [mid.open]) == before + mid.fired + [mid.open];
      if w.Arrived? {
        var open := mid.open + [w.signal.payload];
        assert before + (mid.fired + [open]) == before + mid.fired + [open];
      }
    }
  }

  lemma {:induction false} RunJoin<P>(maxSize: Option<int>, s: State<P>, a: seq<Wake<P>>, b: seq<Wake<P>>)
    ensures Run(maxSize, s, a + b) == Run(maxSize, Run(maxSize, s, a), b)
  {
    if b == [] {
      assert a + b == a;
    } else {
      assert (a + b)[..|a + b| - 1] == a + b[..|b| - 1];
      RunJoin(maxSize, s, a, b[..|b| - 1]);
    }
  }

  /** A burst begun from what the last one re-armed with carries the run on where it was. */
  lemma BurstsChain<P>(maxSize: Option<int>, before: seq<Wake<P>>, wakes: seq<Wake<P>>, seen: Option<seq<string>>)
    requires Run(maxSize, Born<P>(), before).open == []
    requires FiredOnce(BurstState(maxSize, Run(maxSize, Born<P>(), before).order, wakes), seen)
    ensures var s := Run(maxSize, Born<P>(), before);
      Run(maxSize, Born(), before + wakes) ==
        State(SeenOf(seen), [], s.fired + [BurstState(maxSize, s.order, wakes).fired[0]])
  {
    var s := Run(maxSize, Born<P>(), before);
    RunJoin(maxSize, Born(), before, wakes);
    EarlierFirings(maxSize, State(s.order, [], []), s.fired, wakes);
    assert s.fired + [] == s.fired;
    hide Run;
    var fired := BurstState(maxSize, s.order, wakes).fired;
    assert fired == [fired[0]];
  }

  lemma RunStep<P>(maxSize: Option<int>, s: State<P>, wakes: seq<Wake<P>>, n: nat)
    requires n < |wakes|
    ensures Run(maxSize, s, wakes[..n + 1]) == Step(maxSize, Run(maxSize, s, wakes[..n]), wakes[n])
  {
    assert wakes[..n + 1][..n] == wakes[..n];
  }

  /**
   * Park for the first event of a burst: the wakes before it add nothing to the burst, and a timeout
   * never reaches an untimed wait.
   */
  method AwaitFirst<P(0)>(
      maxSize: Option<int>, seen: SeenEvents, wakes: seq<Wake<P>>) returns (first: Option<P>, used: nat)
    requires seen.Valid()
    modifies seen
    ensures seen.Valid() && used <= |wakes|
    ensures first.None? ==> BurstState(maxSize, old(seen.order), wakes) == State(seen.order, [], [])
    ensures first.Some? ==> used > 0
    ensures first.Some? && !(maxSize.Some? && 1 >= maxSize.value) ==>
      BurstState(maxSize, old(seen.order), wakes[..used]) == State(seen.order, [first.value], [])
    ensures first.Some? && maxSize.Some? && 1 >= maxSize.value ==>
      BurstState(maxSize, old(seen.order), wakes[..used]) == State(Newest(seen.order), [], [[first.value]])
  {
    used := 0;
    ghost var start: State<P> := State(seen.order, [], []);
    while used < |wakes|
      invariant seen.Valid() && used <= |wakes|
      invariant Run(maxSize, start, wakes[..used]) == State(seen.order, [], [])
    {
      var w := wakes[used];
      RunStep(maxSize, start, wakes, used);
      used := used + 1;
      if w.Arrived? {
        var isNew := seen.Fresh(w.signal);
        if isNew {
          assert [] + [w.signal.payload] == [w.signal.payload];
          return Some(w.signal.payload), used;
        }
      }
    }
    assert wakes[..|wakes|] == wakes;
    first := None;
  }

  /** A signal without an id comes before a window elapses. */
  predicate BareBefore<P>(wakes: seq<Wake<P>>, i: nat, j: nat) {
    i < j < |wakes| && wakes[i].Arrived? && wakes[i].signal.Bare? && wakes[j].TimedOut?
  }

  lemma BareFires<P>(maxSize: Option<int>, seen: seq<string>, wakes: seq<Wake<P>>)
    ensures (exists i, j :: BareBefore(wakes, i, j)) ==> BurstState(maxSize, seen, wakes).fired != []
  {
    if i, j :| BareBefore(wakes, i, j) { BareThenTimeout(maxSize, State(seen, [], []), wakes, i, j); }
  }

  /** Fire with the last payload once events have been quiet for the window. */
  method Debounce<P(0)>(seen: Option<seq<string>>, wakes: seq<Wake<P>>) returns (b: Burst<P>)
    ensures b.Waiting? ==> BurstState(None, SeenOf(seen), wakes).fired == []
    ensures (exists i, j :: BareBefore(wakes, i, j)) ==> b.Fired?
    ensures b.Fired? ==> b.used <= |wakes|
    ensures b.Fired? ==>
      var end := BurstState(None, SeenOf(seen), wakes[..b.used]);
      FiredOnce(end, b.seen) && b.child == end.fired[0][|end.fired[0]| - 1]
  {
    hide Run, Newest, BareBefore;
    BareFires(None, SeenOf(seen), wakes);
    var events := new SeenEvents(seen);
    ghost var start: State<P> := State(SeenOf(seen), [], []);
    var first, used := AwaitFirst(None, events, wakes);
    if first.None? { return Waiting; }
    var last := first.value;
    ghost var payloads := [last];
    while used < |wakes|
      invariant events.Valid() && 0 < used <= |wakes|
      invariant Run(None, start, wakes[..used]) == State(events.order, payloads, [])
      invariant payloads != [] && last == payloads[|payloads| - 1]
    {
      var w := wakes[used];
      RunStep(None, start, wakes, used);
      used := used + 1;
      if w.TimedOut? {
        assert [] + [payloads] == [payloads];
        return Fired(last, used, events.Rearm());
      }
      var isNew := events.Fresh(w.signal);
      if isNew {
        last := w.signal.payload;
        payloads := payloads + [last];
      }
    }
    assert wakes[..used] == wakes;
    b := Waiting;
  }

  /** Fire with all payloads once there are `maxSize` of them, or the window has elapsed. */
  method Batch<P(0)>(seen: Option<seq<string>>, maxSize: int, wakes: seq<Wake<P>>) returns (b: Burst<seq<P>>)
    ensures b.Waiting? ==> BurstState(Some(maxSize), SeenOf(seen), wakes).fired == []
    ensures (exists i, j :: BareBefore(wakes, i, j)) ==> b.Fired?
    ensures b.Fired? ==> b.used <= |wakes|
    ensures b.Fired? ==>
      var end := BurstState(Some(maxSize), SeenOf(seen), wakes[..b.used]);
      FiredOnce(end, b.seen) && b.child == end.fired[0]
  {
    hide Run, Newest, BareBefore;
    BareFires(Some(maxSize), SeenOf(seen), wakes);
    var seenEvents := new SeenEvents(seen);
    ghost var start: State<P> := State(SeenOf(seen), [], []);
    var first, used := AwaitFirst(Some(maxSize), seenEvents, wakes);
    if first.None? { return Waiting; }
    var events := [first.value];
    while |events| < maxSize
      invariant seenEvents.Valid() && 0 < used <= |wakes| && events != []
      invariant |events| < maxSize ==> Run(Some(maxSize), start, wakes[..used]) == State(seenEvents.order, events, [])
      invariant |events| >= maxSize ==>
        Run(Some(maxSize), start, wakes[..used]) == State(Newest(seenEvents.order), [], [events])
      decreases |wakes| - used
    {
      if used == |wakes| {
        assert wakes[..used] == wakes;
        return Waiting;
      }
      var w := wakes[used];
      RunStep(Some(maxSize), start, wakes, used);
      used := used + 1;
      if w.TimedOut? {
        assert [] + [events] == [events];
        return Fired(events, used, seenEvents.Rearm());
      }
      var isNew := seenEvents.Fresh(w.signal);
      if isNew {
        events := events + [w.signal.payload];
        assert [] + [events] == [events];
      }
    }
    b := Fired(events, used, seenEvents.Rearm());
  }
}
