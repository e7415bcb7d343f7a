/**
 * What one control decision does to the limit, said outright: in terms of the failed samples, the
 * median latency, the baseline, and the readings, without going through the moves the run is defined by.
 */
module AdaptiveMeaning {
  import opened Basics
  import opened Adaptive

  // ---------------------------------------------------------------- errors

  /** How many samples of the window failed. */
  function Failures(window: seq<Sample>): nat { |set i | 0 <= i < |window| && !window[i].ok| }

  lemma {:induction false} ErrorsAreFailures(window: seq<Sample>)
    ensures Errors(window) == Failures(window)
  {
    if window != [] {
      var front, n := window[..|window| - 1], |window| - 1;
      ErrorsAreFailures(front);
      var fewer, all := (set i | 0 <= i < |front| && !front[i].ok), (set i | 0 <= i < |window| && !window[i].ok);
      assert all == fewer + if window[n].ok then {} else {n};
    }
  }

  /** Too many errors: more than one sample in five failed. Or too many stalls: two ticks in a row. */
  predicate Struggling(s: Control) { 5 * Failures(s.window) > |s.window| || s.stallTicks >= 2 }

  lemma PushbackExactly(s: Control)
    ensures Pushback(s) <==> Struggling(s)
  {
    hide Errors, Failures;
    ErrorsAreFailures(s.window);
    NoneFailed(s.window);
    if s.window != [] { FifthFailed(Errors(s.window), |s.window|); }
  }

  lemma NoneFailed(window: seq<Sample>)
    ensures window == [] ==> Failures(window) == 0
  {
  }

  lemma FifthFailed(e: nat, n: nat)
    requires n > 0
    ensures e as real / n as real > 0.2 <==> 5 * e > n
  {
    DivAbove(e as real, n as real, 0.2);
    FiveTimes(e, n);
  }

  lemma DivAbove(x: real, m: real, c: real)
    requires m > 0.0
    ensures x / m > c <==> x > c * m
  {
    assert x / m * m == x;
    if x / m > c { assert (x / m - c) * m > 0.0; } else { assert (c - x / m) * m >= 0.0; }
  }

  lemma FiveTimes(e: nat, n: nat)
    ensures e as real > 0.2 * n as real <==> 5 * e > n
  {
    assert 5.0 * e as real == (5 * e) as real;
  }

  /** A window in which every sample is ok is never the reason to lower the limit. */
  lemma AllOkNoPushback(s: Control)
    requires forall i :: 0 <= i < |s.window| ==> s.window[i].ok
    ensures Pushback(s) <==> s.stallTicks >= 2
  {
    PushbackExactly(s);
    assert (set i | 0 <= i < |s.window| && !s.window[i].ok) == {};
  }

  // ---------------------------------------------------------------- the brakes

  predicate MemoryFull(config: Config, rssPct: Option<real>) {
    rssPct.Some? && rssPct.value >= config.ramCeilingPct
  }

  predicate CpuFull(config: Config, s: Control) {
    config.cpuCeilingPct.Some? && s.cpuPct.Some? && s.cpuPct.value >= config.cpuCeilingPct.value
  }

  /**
   * Full memory gives the whole limit back at once, counts no room and holds new work; a settling task
   * only the latter two.
   */
  lemma MemoryBrake(config: Config, s: Control, rssPct: Option<real>, growOnly: bool, settling: nat, measured: bool)
    requires config.min <= s.limit <= config.max && MemoryFull(config, rssPct)
    ensures Decide(config, s, rssPct, growOnly, settling, measured) ==
      if growOnly then s.(settled := 0, headroomTicks := 0, deferring := true)
      else s.(settled := 0, headroomTicks := 0, deferring := true, limit := config.min,
              backedOff := s.backedOff || config.min < s.limit)
  {
    hide Baseline, Gradient, ErrorRate;
  }

  /**
   * A busy processor, or else errors or stalls, take one off the limit, down to the minimum; a settling
   * task takes none.
   */
  lemma OneOff(config: Config, s: Control, rssPct: Option<real>, growOnly: bool, settling: nat, measured: bool)
    requires config.min <= s.limit <= config.max && !MemoryFull(config, rssPct)
    requires CpuFull(config, s) || Struggling(s)
    ensures Decide(config, s, rssPct, growOnly, settling, measured) ==
      if growOnly then s.(settled := 0)
      else s.(settled := 0, limit := if s.limit > config.min then s.limit - 1 else config.min,
              backedOff := s.backedOff || s.limit > config.min)
  {
    PushbackExactly(s);
    hide Baseline, Gradient, ErrorRate, Errors, Failures;
  }

  /** Without a brake, and with nothing settled since the last look, nothing moves. */
  lemma NothingNew(config: Config, s: Control, rssPct: Option<real>, growOnly: bool, settling: nat)
    requires !MemoryFull(config, rssPct) && !CpuFull(config, s) && !Struggling(s)
    ensures Decide(config, s, rssPct, growOnly, settling, false) == s.(settled := 0)
  {
    PushbackExactly(s);
    hide Baseline, Gradient, ErrorRate, Errors, Failures;
  }

  // ---------------------------------------------------------------- latency

  ghost predicate Ascending(xs: seq<real>) { forall i, k :: 0 <= i < k < |xs| ==> xs[i] <= xs[k] }

  /** The middle of the sorted durations, or the mean of the two in the middle. */
  ghost predicate IsMedian(window: seq<Sample>, m: real) {
    exists xs: seq<real> ::
      && Ascending(xs) && multiset(xs) == multiset(Durations(window)) && |xs| == |window|
      && MiddleOf(xs, m)
  }

  ghost predicate MiddleOf(xs: seq<real>, m: real) {
    xs != [] &&
    2.0 * m == if |xs| % 2 == 1 then 2.0 * xs[(|xs| - 1) / 2] else xs[|xs| / 2 - 1] + xs[|xs| / 2]
  }

  function Durations(window: seq<Sample>): seq<real> {
    seq(|window|, i requires 0 <= i < |window| => window[i].durationMs)
  }

  lemma {:induction false} PlacedSame(x: real, xs: seq<real>)
    ensures multiset(PlacedReal(x, xs)) == multiset(xs) + multiset{x}
  {
    if xs != [] && x > xs[0] {
      PlacedSame(x, xs[1..]);
      assert xs == [xs[0]] + xs[1..];
    }
  }

  lemma {:induction false} PlacedAbove(lo: real, x: real, xs: seq<real>)
    requires lo <= x && forall k :: 0 <= k < |xs| ==> lo <= xs[k]
    ensures forall k :: 0 <= k < |PlacedReal(x, xs)| ==> lo <= PlacedReal(x, xs)[k]
  {
    if xs != [] && x > xs[0] { PlacedAbove(lo, x, xs[1..]); }
  }

  lemma {:induction false} PlacedInOrder(x: real, xs: seq<real>)
    requires Ascending(xs)
    ensures Ascending(PlacedReal(x, xs))
  {
    if xs != [] && x > xs[0] {
      PlacedInOrder(x, xs[1..]);
      PlacedAbove(xs[0], x, xs[1..]);
    }
  }

  lemma {:induction false} DurationsSorted(window: seq<Sample>)
    ensures Ascending(SortedDurations(window)) && multiset(SortedDurations(window)) == multiset(Durations(window))
  {
    if window != [] {
      var front := window[..|window| - 1];
      DurationsSorted(front);
      PlacedInOrder(window[|window| - 1].durationMs, SortedDurations(front));
      PlacedSame(window[|window| - 1].durationMs, SortedDurations(front));
      hide PlacedReal, Ascending;
      assert Durations(window) == Durations(front) + [window[|window| - 1].durationMs];
    }
  }

  lemma MedianRight(window: seq<Sample>)
    requires window != []
    ensures IsMedian(window, Median(SortedDurations(window)))
  {
    hide SortedDurations, Durations, Ascending;
    DurationsSorted(window);
    assert MiddleOf(SortedDurations(window), Median(SortedDurations(window)));
  }

  /**
   * The baseline after a look at a window of this median: the median itself at first; then, when it is
   * refreshed, half the way down to it or a tenth of the way up.
   */
  predicate BaselineIs(was: Option<real>, median: real, refresh: bool, now: real) {
    match was
    case None => now == median
    case Some(b) =>
      if !refresh then now == b
      else if median < b then 2.0 * now == b + median
      else 10.0 * now == 9.0 * b + median
  }

  /** Latency well over twice the baseline: the work is queuing. */
  predicate Queuing(median: real, baseline: real) { median > 0.0 && 2.0 * baseline + 5.0 < 0.7 * median }

  /** Latency close enough to the baseline for more work. */
  predicate Fast(median: real, baseline: real) { median <= 0.0 || 2.0 * baseline + 5.0 >= 0.9 * median }

  lemma GradientMeans(window: seq<Sample>, baseline: real)
    requires window != []
    ensures var median, g := Median(SortedDurations(window)), Gradient(window, Some(baseline));
      g.Some? && (g.value < 0.7 <==> Queuing(median, baseline)) && (g.value >= 0.9 <==> Fast(median, baseline))
  {
    var median := Median(SortedDurations(window));
    if median > 0.0 {
      var x := 2.0 * baseline + 5.0;
      DivBound(x, median, 0.7);
      DivBound(x, median, 0.9);
    }
  }

  lemma DivBound(x: real, m: real, c: real)
    requires m > 0.0
    ensures x / m < c <==> x < c * m
  {
    assert x / m * m == x;
    if x / m < c { assert (c - x / m) * m > 0.0; } else { assert (x / m - c) * m >= 0.0; }
  }

  /** Enough tasks in flight, counting the one that settles, and enough ticks with room, to grow. */
  predicate MayGrow(config: Config, s: Control, settling: nat) {
    10 * (s.inFlight + settling) >= 8 * s.limit && s.headroomTicks >= config.growHeadroomTicks
  }

  /**
   * Without a brake, a look at fresh samples brings the baseline up to date. Queuing then takes a quarter
   * off the limit, rounded half up, and at least one; with latency close to the baseline, and enough work
   * and room, the limit doubles, or grows by its square root once it has backed off. A settling task
   * never lowers it.
   */
  lemma LookAtSamples(config: Config, s: Control, rssPct: Option<real>, growOnly: bool, settling: nat)
    returns (median: real, baseline: real)
    requires config.min <= s.limit <= config.max && s.limit >= 1 && s.window != []
    requires !MemoryFull(config, rssPct) && !CpuFull(config, s) && !Struggling(s)
    ensures IsMedian(s.window, median)
    ensures BaselineIs(s.rttLong, median, !growOnly || s.rttLong.None?, baseline)
    ensures var s2 := Decide(config, s, rssPct, growOnly, settling, true);
      var step := if s.backedOff then Isqrt(s.limit) else s.limit;
      var limit :=
        if Queuing(median, baseline) then
          (if growOnly then s.limit else Max(config.min, Min(s.limit - 1, (3 * s.limit + 2) / 4)))
        else if Fast(median, baseline) && MayGrow(config, s, settling) then Min(config.max, s.limit + step)
        else s.limit;
      s2 == s.(settled := 0, rttLong := Some(baseline), limit := limit, backedOff := s.backedOff || limit < s.limit)
  {
    hide *;
    median, baseline := BaselineSeen(s, growOnly);
    MoveSeen(config, s, rssPct, growOnly, settling, median, baseline);
    MoveMade(config, s, rssPct, growOnly, settling, median, baseline);
  }

  lemma BaselineSeen(s: Control, growOnly: bool) returns (median: real, baseline: real)
    requires s.window != []
    ensures median == Median(SortedDurations(s.window)) && IsMedian(s.window, median)
    ensures Baseline(s, !growOnly || s.rttLong.None?) == Some(baseline)
    ensures BaselineIs(s.rttLong, median, !growOnly || s.rttLong.None?, baseline)
  {
    hide Median, SortedDurations, IsMedian;
    median := Median(SortedDurations(s.window));
    MedianRight(s.window);
    baseline := Baseline(s, !growOnly || s.rttLong.None?).value;
  }

  function MoveFor(config: Config, s: Control, settling: nat, median: real, baseline: real): Move {
    if Queuing(median, baseline) then Shrink
    else if Fast(median, baseline) && MayGrow(config, s, settling) then Grow
    else Stay
  }

  lemma MoveSeen(
      config: Config, s: Control, rssPct: Option<real>, growOnly: bool, settling: nat, median: real, baseline: real)
    requires s.window != [] && median == Median(SortedDurations(s.window))
    requires Baseline(s, !growOnly || s.rttLong.None?) == Some(baseline)
    requires !MemoryFull(config, rssPct) && !CpuFull(config, s) && !Struggling(s)
    ensures MoveOf(config, s, rssPct, growOnly, settling, true) == MoveFor(config, s, settling, median, baseline)
  {
    hide Baseline, Gradient, Pushback, Struggling, Median, SortedDurations, Queuing, Fast;
    PushbackExactly(s);
    GradientMeans(s.window, baseline);
    LoadEnough(s, settling);
  }

  lemma MoveMade(
      config: Config, s: Control, rssPct: Option<real>, growOnly: bool, settling: nat, median: real, baseline: real)
    requires config.min <= s.limit <= config.max && s.limit >= 1
    requires Baseline(s, !growOnly || s.rttLong.None?) == Some(baseline)
    requires MoveOf(config, s, rssPct, growOnly, settling, true) == MoveFor(config, s, settling, median, baseline)
    ensures var step := if s.backedOff then Isqrt(s.limit) else s.limit;
      var limit :=
        if Queuing(median, baseline) then
          (if growOnly then s.limit else Max(config.min, Min(s.limit - 1, (3 * s.limit + 2) / 4)))
        else if Fast(median, baseline) && MayGrow(config, s, settling) then Min(config.max, s.limit + step)
        else s.limit;
      Decide(config, s, rssPct, growOnly, settling, true) ==
        s.(settled := 0, rttLong := Some(baseline), limit := limit, backedOff := s.backedOff || limit < s.limit)
  {
    hide MoveOf, Queuing, Fast, MayGrow, RoundHalfUp, Isqrt, Median, SortedDurations, Shrunk, Grown;
    SameBaseline(s, !growOnly || s.rttLong.None?);
    ShrunkIs(config, s.limit);
    GrownIs(config, s.limit, s.backedOff);
  }

  lemma SameBaseline(s: Control, refresh: bool)
    ensures Baseline(s.(settled := 0), refresh) == Baseline(s, refresh)
  {
  }

  lemma ShrunkIs(config: Config, limit: int)
    ensures Shrunk(config, limit) == Max(config.min, Min(limit - 1, (3 * limit + 2) / 4))
  {
    ShrunkWhole(config, limit);
    hide RoundHalfUp;
  }

  lemma GrownIs(config: Config, limit: int, backedOff: bool)
    requires limit >= 1
    ensures Isqrt(limit) >= 1
    ensures Grown(config, limit, backedOff) == Min(config.max, limit + if backedOff then Isqrt(limit) else limit)
  {
    assert Isqrt(limit) != 0;
  }

  lemma LoadEnough(s: Control, settling: nat)
    ensures (s.inFlight + settling) as real >= s.limit as real * 0.8 <==> 10 * (s.inFlight + settling) >= 8 * s.limit
  {
    var a, b := (s.inFlight + settling) as real, s.limit as real;
    assert 10.0 * a == (10 * (s.inFlight + settling)) as real && 10.0 * (b * 0.8) == (8 * s.limit) as real;
  }

  // ---------------------------------------------------------------- when decisions are made

  /** A tick counts first: room or none, a stall or none, the processor as read. Then, if adaptive, it decides. */
  lemma TickMeans(config: Config, s: Control, cpuPct: Option<real>, usagePct: Option<real>, again: Option<real>)
    ensures var room := usagePct.None? || usagePct.value <= config.ramResumePct;
      var counted := s.(
        cpuPct := cpuPct, completions := 0, deferring := s.deferring && !room,
        headroomTicks := if room then s.headroomTicks + 1 else 0,
        stallTicks := if s.completions == 0 && s.inFlight > 0 then s.stallTicks + 1 else 0);
      Step(config, s, Tick(cpuPct, usagePct, again)) ==
        if config.adaptive
        then Decide(config, counted, if usagePct.Some? then usagePct else again, false, 0, s.completions > 0)
        else counted
  {
    hide Decide;
  }

  /** The newest hundred samples. */
  predicate NewestHundred(window: seq<Sample>, x: Sample, after: seq<Sample>) {
    var all := window + [x];
    if |all| <= 100 then after == all else after == all[1..]
  }

  /**
   * A settled task leaves; a step is also measured. Until the limit first backs off, a limit's worth of
   * steps makes a decision, which counts the settling task as still there and can only grow the limit.
   */
  lemma SettleMeans(config: Config, s: Control, isStep: bool, x: Sample, rssPct: Option<real>)
    returns (window: seq<Sample>)
    requires |s.window| <= 100
    ensures NewestHundred(s.window, x, window)
    ensures var left := s.(inFlight := if s.inFlight > 0 then s.inFlight - 1 else 0);
      var measured := left.(window := window, completions := s.completions + 1, settled := s.settled + 1);
      Step(config, s, Settle(isStep, x, rssPct)) ==
        if !isStep then left
        else if config.adaptive && !s.backedOff && s.settled + 1 >= s.limit
        then Decide(config, measured, rssPct, true, 1, true)
        else measured
  {
    hide Decide;
    window := Pushed(s.window, x);
  }

  /** A tick over a window without failures, with no brake and no second stall, lowers no limit for errors. */
  lemma HealthyTick(config: Config, s: Control, cpuPct: Option<real>, usagePct: Option<real>)
    requires config.adaptive && config.min <= s.limit <= config.max && usagePct.Some? && s.completions > 0
    requires !MemoryFull(config, usagePct) && !CpuFull(config, s.(cpuPct := cpuPct))
    requires forall i :: 0 <= i < |s.window| ==> s.window[i].ok
    ensures MoveAt(config, s, Tick(cpuPct, usagePct, None)) != Some(Backpressure)
  {
    var counted := TickCounted(config, s, cpuPct, usagePct);
    AllOkNoPushback(counted);
    hide Gradient, Baseline, ErrorRate;
  }

  /** One with more than a failure in five takes one off. */
  lemma FailingTick(config: Config, s: Control, cpuPct: Option<real>, usagePct: Option<real>)
    requires config.adaptive && config.min <= s.limit <= config.max && usagePct.Some?
    requires !MemoryFull(config, usagePct) && 5 * Failures(s.window) > |s.window|
    ensures Step(config, s, Tick(cpuPct, usagePct, None)).limit
         == if s.limit > config.min then s.limit - 1 else config.min
  {
    OneOff(config, TickCounted(config, s, cpuPct, usagePct), usagePct, false, 0, s.completions > 0);
    hide Decide, Failures;
  }

  /** A controller starts with nothing in flight, seen, counted or held. */
  lemma StartsIdle(config: Config)
    ensures Run(config, []) == Control(
      limit := config.limit, inFlight := 0, window := [], rttLong := None, headroomTicks := 0, stallTicks := 0,
      completions := 0, settled := 0, backedOff := false, deferring := false, cpuPct := None)
  {
  }

  /** The limit moves only where a decision is made, and then as its move says: up only to grow. */
  lemma MovesSeen(config: Config, s: Control, e: Event)
    requires config.min <= s.limit <= config.max
    ensures MoveAt(config, s, e) == None ==> Step(config, s, e).limit == s.limit
    ensures Step(config, s, e).limit > s.limit ==> GrowsAt(config, s, e)
    ensures e.Settle? && Step(config, s, e).limit != s.limit ==> GrowsAt(config, s, e)
  {
    hide MoveOf, Baseline, RoundHalfUp, Isqrt, Headroom, Pushed;
  }

  // ---------------------------------------------------------------- the configuration

  /** A fixed worker runs as many as it was given, one by default and at least one; nothing is adapted. */
  lemma FixedAsGiven(given: Given)
    requires given.Unset? || given.Flag? || given.Count?
    ensures var n := if given.Count? && given.n > 1 then given.n else 1;
      ResolveConcurrency(given) == Ok(Config(
        adaptive := false, limit := n, min := n, max := n, ramCeilingPct := 85.0, cpuCeilingPct := None,
        tickMs := 2000, ramAdmission := true, ramAdmitPct := 75.0, ramResumePct := 65.0, admissionPollMs := 250,
        admissionMaxWaitMs := 0, growHeadroomTicks := 3, stepCostTracking := true))
  {
  }

  /** Only the word "adaptive" is known; anything but a number, a word or overrides is an error. */
  lemma WordAsGiven(given: Given)
    ensures given == Word(true) ==> ResolveConcurrency(given) == ResolveConcurrency(Adapt(NoOverrides))
    ensures given == Word(false) ==> ResolveConcurrency(given) == UnknownWord
    ensures given == Unsupported ==> ResolveConcurrency(given) == BadType
  {
  }

  /** An adaptive worker without overrides. */
  lemma AdaptiveByDefault()
    ensures ResolveConcurrency(Adapt(NoOverrides)) == Ok(Config(
      adaptive := true, limit := 1, min := 1, max := 32, ramCeilingPct := 85.0, cpuCeilingPct := None,
      tickMs := 2000, ramAdmission := true, ramAdmitPct := 75.0, ramResumePct := 65.0, admissionPollMs := 250,
      admissionMaxWaitMs := 0, growHeadroomTicks := 3, stepCostTracking := true))
  {
  }

  /** Every override is taken as given, within the order the numbers must keep. */
  lemma AdaptiveAsGiven(o: Overrides)
    ensures ResolveConcurrency(Adapt(o)).Ok?
    ensures var c := ResolveConcurrency(Adapt(o)).config;
      && c.adaptive
      && (o.min.Some? && o.min.value != 0 ==> c.min == o.min.value)
      && (o.min.None? || o.min.value == 0 ==> c.min == 1)
      && (o.max.Some? && o.max.value != 0 ==> c.max == if o.max.value < c.min then c.min else o.max.value)
      && (o.max.None? || o.max.value == 0 ==> c.max == if 32 < c.min then c.min else 32)
      && (o.start.None? ==> c.limit == c.min)
      && (o.start.Some? ==>
            c.limit == if o.start.value < c.min then c.min else if o.start.value > c.max then c.max else o.start.value)
    ensures var c := ResolveConcurrency(Adapt(o)).config;
      && (o.ramCeilingPct.Some? ==> c.ramCeilingPct == o.ramCeilingPct.value) && c.cpuCeilingPct == o.cpuCeilingPct
      && (o.ramAdmitPct.Some? && o.ramAdmitPct.value <= c.ramCeilingPct ==> c.ramAdmitPct == o.ramAdmitPct.value)
      && (o.ramResumePct.Some? && o.ramResumePct.value <= c.ramAdmitPct ==> c.ramResumePct == o.ramResumePct.value)
      && (o.tickMs.Some? ==> c.tickMs == o.tickMs.value)
      && (o.ramAdmission.Some? ==> c.ramAdmission == o.ramAdmission.value)
      && (o.stepCostTracking.Some? ==> c.stepCostTracking == o.stepCostTracking.value)
    ensures var c := ResolveConcurrency(Adapt(o)).config;
      && (o.admissionPollMs.Some? ==>
            c.admissionPollMs == if o.admissionPollMs.value < 1 then 1 else o.admissionPollMs.value)
      && (o.admissionMaxWaitMs.Some? ==>
            c.admissionMaxWaitMs == if o.admissionMaxWaitMs.value < 0 then 0 else o.admissionMaxWaitMs.value)
      && (o.growHeadroomTicks.Some? ==>
            c.growHeadroomTicks == if o.growHeadroomTicks.value < 1 then 1 else o.growHeadroomTicks.value)
  {
  }
}
