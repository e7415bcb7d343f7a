/**
 * A worker's adaptive concurrency: the configuration it accepts, how each control decision moves the
 * limit, and the memory gate in front of new work.
 */
module Adaptive {
  import opened Basics

  // ---------------------------------------------------------------- configuration

  datatype Config = Config(
    adaptive: bool, limit: int, min: int, max: int, ramCeilingPct: real, cpuCeilingPct: Option<real>, tickMs: int,
    ramAdmission: bool, ramAdmitPct: real, ramResumePct: real, admissionPollMs: int, admissionMaxWaitMs: int,
    growHeadroomTicks: int, stepCostTracking: bool)

  datatype Overrides = Overrides(
    min: Option<int>, max: Option<int>, start: Option<int>, ramCeilingPct: Option<real>, cpuCeilingPct: Option<real>,
    tickMs: Option<int>, ramAdmission: Option<bool>, ramAdmitPct: Option<real>, ramResumePct: Option<real>,
    admissionPollMs: Option<int>, admissionMaxWaitMs: Option<int>, growHeadroomTicks: Option<int>,
    stepCostTracking: Option<bool>)

  /** What a worker may be given; a word counts as adaptive once trimmed and lower-cased. */
  datatype Given = Unset | Flag(b: bool) | Count(n: int) | Word(isAdaptive: bool) | Adapt(o: Overrides) | Unsupported

  datatype Resolved = Ok(config: Config) | UnknownWord | BadType

  const NoOverrides := Overrides(None, None, None, None, None, None, None, None, None, None, None, None, None)

  function Or<T>(given: Option<T>, default_: T): T { if given.Some? then given.value else default_ }

  /** Absent and zero both mean the default. */
  function OrZero(given: Option<int>, default_: int): int {
    if given.None? || given.value == 0 then default_ else given.value
  }

  function MinReal(a: real, b: real): real { if a <= b then a else b }

  function FixedAt(n: int): Config {
    Config(false, n, n, n, 85.0, None, 2000, true, 75.0, 65.0, 250, 0, 3, true)
  }

  function AdaptiveFrom(o: Overrides): Config {
    var low := OrZero(o.min, 1);
    var high := Max(low, OrZero(o.max, 32));
    var ceiling := Or(o.ramCeilingPct, 85.0);
    var admit := MinReal(ceiling, Or(o.ramAdmitPct, 75.0));
    Config(true, Max(low, Min(high, Or(o.start, low))), low, high, ceiling, o.cpuCeilingPct, Or(o.tickMs, 2000),
           Or(o.ramAdmission, true), admit, MinReal(admit, Or(o.ramResumePct, 65.0)),
           if o.admissionPollMs.Some? then Max(1, o.admissionPollMs.value) else 250,
           if o.admissionMaxWaitMs.Some? then Max(0, o.admissionMaxWaitMs.value) else 0,
           if o.growHeadroomTicks.Some? then Max(1, o.growHeadroomTicks.value) else 3,
           Or(o.stepCostTracking, true))
  }

  /** Whatever is given, the start value and the marks of the gate come out in order. */
  function ResolveConcurrency(given: Given): (r: Resolved)
    ensures r.Ok? ==> r.config.min <= r.config.limit <= r.config.max
    ensures r.Ok? && !r.config.adaptive ==> r.config.min == r.config.max >= 1
    ensures r.Ok? && r.config.adaptive ==> r.config.ramResumePct <= r.config.ramAdmitPct <= r.config.ramCeilingPct
    ensures r.Ok? ==> r.config.growHeadroomTicks >= 1
    ensures given.Adapt? && given.o.start.Some? && r.Ok? && r.config.min <= given.o.start.value <= r.config.max ==>
      r.config.limit == given.o.start.value
    ensures given.Count? && given.n >= 1 ==> r.Ok? && r.config.limit == given.n
  {
    match given
    case Unset => Ok(FixedAt(1))
    case Flag(_) => Ok(FixedAt(1))
    case Count(n) => Ok(FixedAt(Max(1, n)))
    case Word(isAdaptive) => if isAdaptive then Ok(AdaptiveFrom(NoOverrides)) else UnknownWord
    case Adapt(o) => Ok(AdaptiveFrom(o))
    case Unsupported => BadType
  }

  // ---------------------------------------------------------------- the numbers a decision reads

  datatype Sample = Sample(durationMs: real, ok: bool)

  const WINDOW: nat := 100

  /** What the control loop keeps. */
  datatype Control = Control(
    limit: int, inFlight: nat, window: seq<Sample>, rttLong: Option<real>, headroomTicks: nat, stallTicks: nat,
    completions: nat, settled: nat, backedOff: bool, deferring: bool, cpuPct: Option<real>)

  function RoundHalfUp(x: real): int { (x + 0.5).Floor }

  /** The integer square root. */
  function Isqrt(n: nat): (r: nat)
    ensures r * r <= n < (r + 1) * (r + 1)
  {
    if n == 0 then 0
    else
      var r := Isqrt(n - 1);
      if (r + 1) * (r + 1) <= n then r + 1 else r
  }

  function Errors(window: seq<Sample>): nat {
    if window == [] then 0 else Errors(window[..|window| - 1]) + if window[|window| - 1].ok then 0 else 1
  }

  function ErrorRate(window: seq<Sample>): real {
    if window == [] then 0.0 else Errors(window) as real / |window| as real
  }

  function PlacedReal(x: real, xs: seq<real>): seq<real> {
    if xs == [] || x <= xs[0] then [x] + xs else [xs[0]] + PlacedReal(x, xs[1..])
  }

  function SortedDurations(window: seq<Sample>): (xs: seq<real>)
    ensures |xs| == |window|
  {
    if window == [] then []
    else
      var rest := SortedDurations(window[..|window| - 1]);
      PlacedLength(window[|window| - 1].durationMs, rest);
      PlacedReal(window[|window| - 1].durationMs, rest)
  }

  lemma {:induction false} PlacedLength(x: real, xs: seq<real>)
    ensures |PlacedReal(x, xs)| == |xs| + 1
  {
    if xs != [] { PlacedLength(x, xs[1..]); }
  }

  function Median(sorted: seq<real>): real {
    var mid := |sorted| / 2;
    if sorted == [] then 0.0
    else if |sorted| % 2 == 1 then sorted[mid]
    else (sorted[mid - 1] + sorted[mid]) / 2.0
  }

  /** The smoothed no-queuing baseline after a look at the window: quick to fall, slow to rise. */
  function Baseline(s: Control, refresh: bool): Option<real> {
    if s.window == [] then s.rttLong
    else
      var short := Median(SortedDurations(s.window));
      if s.rttLong.None? then Some(short)
      else if refresh then
        var alpha := if short < s.rttLong.value then 0.5 else 0.1;
        Some(alpha * short + (1.0 - alpha) * s.rttLong.value)
      else s.rttLong
  }

  /** How far latency is from queuing, at most one; nothing without samples. */
  function Gradient(window: seq<Sample>, rttLong: Option<real>): (g: Option<real>)
    ensures g.Some? ==> g.value <= 1.0
    ensures g.None? <==> window == [] || rttLong.None?
  {
    if window == [] || rttLong.None? then None
    else
      var short := Median(SortedDurations(window));
      Some(if short <= 0.0 then 1.0 else MinReal(1.0, (2.0 * rttLong.value + 5.0) / short))
  }

  // ---------------------------------------------------------------- one decision

  /** Three quarters of the limit, and at least one less. */
  function Shrunk(config: Config, limit: int): int {
    Max(config.min, Min(limit - 1, RoundHalfUp(limit as real * 0.75)))
  }

  /** Twice the limit until it first backs off, its square root more after that. */
  function Grown(config: Config, limit: int, backedOff: bool): int {
    var step := if backedOff then Max(1, if limit >= 0 then Isqrt(limit) else 0) else limit;
    Min(config.max, limit + step)
  }

  function Moved(config: Config, s: Control, target: int): Control {
    var next := Max(config.min, Min(config.max, target));
    s.(limit := next, backedOff := s.backedOff || next < s.limit)
  }

  predicate RamBrake(config: Config, rssPct: Option<real>) {
    rssPct.Some? && rssPct.value >= config.ramCeilingPct
  }

  predicate CpuBrake(config: Config, s: Control) {
    config.cpuCeilingPct.Some? && s.cpuPct.Some? && s.cpuPct.value >= config.cpuCeilingPct.value
  }

  predicate Pushback(s: Control) { ErrorRate(s.window) > 0.2 || s.stallTicks >= 2 }

  /** Which of its moves a decision makes. */
  datatype Move = RamCeiling | CpuCeiling | Backpressure | Shrink | Grow | Stay

  function MoveOf(
      config: Config, s: Control, rssPct: Option<real>, growOnly: bool, settling: nat, measured: bool): Move {
    if RamBrake(config, rssPct) then RamCeiling
    else if CpuBrake(config, s) then CpuCeiling
    else if Pushback(s) then Backpressure
    else if !measured then Stay
    else
      var gradient := Gradient(s.window, Baseline(s, !growOnly || s.rttLong.None?));
      if gradient.Some? && gradient.value < 0.7 then Shrink
      else if gradient.Some? && gradient.value >= 0.9 && (s.inFlight + settling) as real >= s.limit as real * 0.8
              && s.headroomTicks >= config.growHeadroomTicks then Grow
      else Stay
  }

  function Decide(
      config: Config, s: Control, rssPct: Option<real>, growOnly: bool, settling: nat, measured: bool): Control {
    var move := MoveOf(config, s, rssPct, growOnly, settling, measured);
    var s1 := s.(settled := 0);
    match move
    case RamCeiling =>
      var braked := s1.(headroomTicks := 0, deferring := true);
      if growOnly then braked else Moved(config, braked, config.min)
    case CpuCeiling => if growOnly then s1 else Moved(config, s1, Max(config.min, s.limit - 1))
    case Backpressure => if growOnly then s1 else Moved(config, s1, Max(config.min, s.limit - 1))
    case _ =>
      var looked := s1.(rttLong := if measured then Baseline(s1, !growOnly || s.rttLong.None?) else s.rttLong);
      if move == Grow then Moved(config, looked, Grown(config, s.limit, s.backedOff))
      else if move == Shrink && !growOnly then Moved(config, looked, Shrunk(config, s.limit))
      else looked
  }

  // ---------------------------------------------------------------- what happens to a worker

  function Begun(s: Control): Control { s.(inFlight := s.inFlight + 1) }

  function Pushed(window: seq<Sample>, x: Sample): seq<Sample> {
    if |window| < WINDOW then window + [x] else window[1..] + [x]
  }

  /** The counters once a step has settled. */
  function StepCounted(s: Control, x: Sample): Control {
    s.(inFlight := if s.inFlight > 0 then s.inFlight - 1 else 0, window := Pushed(s.window, x),
       completions := s.completions + 1, settled := s.settled + 1)
  }

  /** A task settled; a step is measured, and until the first back-off a limit's worth of steps may grow. */
  function SettledOne(config: Config, s: Control, isStep: bool, x: Sample, rssPct: Option<real>): Control {
    if !isStep then s.(inFlight := if s.inFlight > 0 then s.inFlight - 1 else 0)
    else
      var s1 := StepCounted(s, x);
      if config.adaptive && !s1.backedOff && s1.settled >= s1.limit
        then Decide(config, s1, rssPct, true, 1, true) else s1
  }

  /** Room is credited only under the resume mark; an unreadable usage counts as room. */
  predicate Headroom(config: Config, usagePct: Option<real>) {
    usagePct.None? || usagePct.value <= config.ramResumePct
  }

  /** The counters at the start of a control iteration. */
  function TickCounted(config: Config, s: Control, cpuPct: Option<real>, usagePct: Option<real>): Control {
    s.(cpuPct := cpuPct,
       headroomTicks := if Headroom(config, usagePct) then s.headroomTicks + 1 else 0,
       deferring := s.deferring && !Headroom(config, usagePct),
       completions := 0,
       stallTicks := if s.completions == 0 && s.inFlight > 0 then s.stallTicks + 1 else 0)
  }

  /** One control iteration. `again` is a second look at memory, taken only when the first read nothing. */
  function Ticked(
      config: Config, s: Control, cpuPct: Option<real>, usagePct: Option<real>, again: Option<real>): Control {
    var s1 := TickCounted(config, s, cpuPct, usagePct);
    if !config.adaptive then s1
    else Decide(config, s1, if usagePct.Some? then usagePct else again, false, 0, s.completions > 0)
  }

  datatype Event =
    | Start
    | Settle(isStep: bool, sample: Sample, rssPct: Option<real>)
    | Tick(cpuPct: Option<real>, usagePct: Option<real>, again: Option<real>)
    | Gate(deferring: bool)

  function Step(config: Config, s: Control, e: Event): Control {
    match e
    case Start => Begun(s)
    case Settle(isStep, sample, rssPct) => SettledOne(config, s, isStep, sample, rssPct)
    case Tick(cpuPct, usagePct, again) => Ticked(config, s, cpuPct, usagePct, again)
    case Gate(deferring) => s.(deferring := deferring)
  }

  function Born(config: Config): Control { Control(config.limit, 0, [], None, 0, 0, 0, 0, false, false, None) }

  function Run(config: Config, events: seq<Event>): Control {
    if events == [] then Born(config) else Step(config, Run(config, events[..|events| - 1]), events[|events| - 1])
  }

  // ---------------------------------------------------------------- the limit stays in bounds

  predicate Bounds(config: Config) { config.min <= config.limit <= config.max }

  lemma DecideBounded(config: Config, s: Control, rssPct: Option<real>, growOnly: bool, settling: nat, measured: bool)
    requires config.min <= config.max && config.min <= s.limit <= config.max
    ensures config.min <= Decide(config, s, rssPct, growOnly, settling, measured).limit <= config.max
  {
    hide MoveOf, Shrunk, Grown, Baseline;
  }

  /** On every run the limit stays between the configured minimum and maximum. */
  lemma {:induction false} LimitBounded(config: Config, events: seq<Event>)
    requires Bounds(config)
    ensures config.min <= Run(config, events).limit <= config.max
  {
    if events != [] {
      hide Step;
      LimitBounded(config, events[..|events| - 1]);
      StepBounded(config, Run(config, events[..|events| - 1]), events[|events| - 1]);
    }
  }

  lemma StepBounded(config: Config, s: Control, e: Event)
    requires config.min <= config.max && config.min <= s.limit <= config.max
    ensures config.min <= Step(config, s, e).limit <= config.max
  {
    hide Decide, Headroom, Pushed;
    match e {
      case Settle(isStep, sample, rssPct) => DecideBounded(config, StepCounted(s, sample), rssPct, true, 1, true);
      case Tick(cpuPct, usagePct, again) =>
        DecideBounded(config, TickCounted(config, s, cpuPct, usagePct), if usagePct.Some? then usagePct else again,
                      false, 0, s.completions > 0);
      case _ =>
    }
  }

  // ---------------------------------------------------------------- growing takes sustained room

  /** Whether this event's decision pulls the memory brake. */
  predicate Brakes(config: Config, s: Control, e: Event) {
    match e
    case Settle(isStep, _, rssPct) =>
      isStep && config.adaptive && !s.backedOff && s.settled + 1 >= s.limit && RamBrake(config, rssPct)
    case Tick(_, usagePct, again) => config.adaptive && RamBrake(config, if usagePct.Some? then usagePct else again)
    case _ => false
  }

  /** How many ticks in a row, up to now, saw room, counted from the last one that did not and the last brake. */
  function RoomSince(config: Config, events: seq<Event>): nat {
    if events == [] then 0
    else
      var front, e := events[..|events| - 1], events[|events| - 1];
      var before := RoomSince(config, front);
      var counted := if !e.Tick? then before else if Headroom(config, e.usagePct) then before + 1 else 0;
      if Brakes(config, Run(config, front), e) then 0 else counted
  }

  lemma DecideHeadroom(config: Config, s: Control, rssPct: Option<real>, growOnly: bool, settling: nat, measured: bool)
    ensures Decide(config, s, rssPct, growOnly, settling, measured).headroomTicks ==
      if RamBrake(config, rssPct) then 0 else s.headroomTicks
    ensures config.min <= s.limit < Decide(config, s, rssPct, growOnly, settling, measured).limit &&
            s.limit <= config.max ==>
      s.headroomTicks >= config.growHeadroomTicks && !RamBrake(config, rssPct)
  {
    hide Baseline, Gradient, ErrorRate, RoundHalfUp, Isqrt;
  }

  /** The counter is that count. */
  lemma {:induction false} HeadroomCounted(config: Config, events: seq<Event>)
    ensures Run(config, events).headroomTicks == RoomSince(config, events)
  {
    if events != [] {
      var front, e := events[..|events| - 1], events[|events| - 1];
      HeadroomCounted(config, front);
      EventHeadroom(config, Run(config, front), e);
      hide Step, Brakes, Headroom;
    }
  }

  lemma EventHeadroom(config: Config, s: Control, e: Event)
    ensures Step(config, s, e).headroomTicks ==
      if Brakes(config, s, e) then 0
      else if !e.Tick? then s.headroomTicks else if Headroom(config, e.usagePct) then s.headroomTicks + 1 else 0
    ensures Step(config, s, e).limit > s.limit && config.min <= s.limit <= config.max ==>
      !Brakes(config, s, e) && Step(config, s, e).headroomTicks >= config.growHeadroomTicks
  {
    hide Decide, Headroom, RamBrake, Pushed;
    match e {
      case Settle(isStep, sample, rssPct) => DecideHeadroom(config, StepCounted(s, sample), rssPct, true, 1, true);
      case Tick(cpuPct, usagePct, again) =>
        DecideHeadroom(config, TickCounted(config, s, cpuPct, usagePct), if usagePct.Some? then usagePct else again,
                       false, 0, s.completions > 0);
      case _ =>
    }
  }

  lemma {:induction false} RoomMeansTicks(config: Config, events: seq<Event>, k: nat)
    requires RoomSince(config, events) >= k
    ensures exists from :: 0 <= from <= |events| && RoomFrom(config, events, from, k)
  {
    if k == 0 {
      assert RoomFrom(config, events, |events|, 0);
    } else {
      var front, e := events[..|events| - 1], events[|events| - 1];
      var j := if e.Tick? then k - 1 else k;
      RoomMeansTicks(config, front, j);
      var from :| 0 <= from <= |front| && RoomFrom(config, front, from, j);
      RoomExtends(config, events, from, j);
    }
  }

  function TickCount(events: seq<Event>): nat {
    if events == [] then 0 else TickCount(events[..|events| - 1]) + if events[|events| - 1].Tick? then 1 else 0
  }

  /** From `from` on there are at least `k` ticks, each with room, and no brake. */
  ghost predicate RoomFrom(config: Config, events: seq<Event>, from: nat, k: nat)
    requires from <= |events|
  {
    && TickCount(events[from..]) >= k
    && (forall i :: from <= i < |events| && events[i].Tick? ==> Headroom(config, events[i].usagePct))
    && (forall i :: from <= i < |events| ==> !Brakes(config, Run(config, events[..i]), events[i]))
  }

  lemma RoomExtends(config: Config, events: seq<Event>, from: nat, j: nat)
    requires events != [] && from <= |events| - 1 && RoomFrom(config, events[..|events| - 1], from, j)
    requires var e := events[|events| - 1];
      (e.Tick? ==> Headroom(config, e.usagePct)) && !Brakes(config, Run(config, events[..|events| - 1]), e)
    ensures RoomFrom(config, events, from, if events[|events| - 1].Tick? then j + 1 else j)
  {
    hide Run, Brakes, Headroom;
    var front, e := events[..|events| - 1], events[|events| - 1];
    assert events[from..][..|events[from..]| - 1] == front[from..];
    forall i | from <= i < |events| ensures !Brakes(config, Run(config, events[..i]), events[i]) {
      if i < |front| { assert front[..i] == events[..i] && front[i] == events[i]; }
    }
    assert forall i :: from <= i < |front| ==> front[i] == events[i];
  }

  /**
   * The limit grows only after `growHeadroomTicks` ticks that all had room, with no memory brake since
   * the first of them.
   */
  lemma GrowsOnlyWithRoom(config: Config, events: seq<Event>, e: Event)
    requires Bounds(config) && config.growHeadroomTicks >= 0
    requires Run(config, events + [e]).limit > Run(config, events).limit
    ensures exists from :: 0 <= from <= |events + [e]| && RoomFrom(config, events + [e], from, config.growHeadroomTicks)
  {
    hide Step, RoomSince, RoomFrom;
    assert (events + [e])[..|events|] == events;
    LimitBounded(config, events);
    HeadroomCounted(config, events + [e]);
    EventHeadroom(config, Run(config, events), e);
    RoomMeansTicks(config, events + [e], config.growHeadroomTicks);
  }

  // ---------------------------------------------------------------- how fast it shrinks

  lemma ShrunkWhole(config: Config, limit: int)
    ensures RoundHalfUp(limit as real * 0.75) == (3 * limit + 2) / 4
  {
    var n := (3 * limit + 2) / 4;
    var x := limit as real * 0.75 + 0.5;
    assert 4.0 * x == (3 * limit + 2) as real;
    assert 4 * n <= 3 * limit + 2 < 4 * n + 4;
    assert n as real <= x < n as real + 1.0;
  }

  /** Three shrinks in a row at least halve the limit, down to the minimum. */
  lemma ThreeShrinksHalve(config: Config, limit: int)
    requires config.min <= limit
    ensures var l3 := Shrunk(config, Shrunk(config, Shrunk(config, limit)));
      l3 <= config.min || 2 * l3 <= limit
  {
    var l1 := Shrunk(config, limit);
    var l2 := Shrunk(config, l1);
    ShrunkWhole(config, limit);
    ShrunkWhole(config, l1);
    ShrunkWhole(config, l2);
    hide RoundHalfUp;
  }

  // ---------------------------------------------------------------- how fast it recovers

  function GrownTimes(config: Config, limit: int, n: nat): int
    decreases n
  {
    if n == 0 then limit else GrownTimes(config, Grown(config, limit, true), n - 1)
  }

  lemma SquareOf(s: nat)
    ensures (s + 1) * (s + 1) == s * s + 2 * s + 1
  {
  }

  /** Between two squares, three steps reach the next one, or the maximum. */
  lemma ThreeGrows(config: Config, limit: int, root: nat)
    requires 1 <= root && root * root <= limit <= config.max
    ensures var l3 := GrownTimes(config, limit, 3);
      limit <= l3 <= config.max && (l3 == config.max || l3 >= (root + 1) * (root + 1))
  {
    SquareOf(root);
    var l1 := Grown(config, limit, true);
    GrowsByRoot(config, limit, root);
    var l2 := Grown(config, l1, true);
    GrowsByRoot(config, l1, root);
    GrowsByRoot(config, l2, root);
    hide Grown;
    assert GrownTimes(config, limit, 3) == GrownTimes(config, l1, 2) == GrownTimes(config, l2, 1);
    assert GrownTimes(config, l2, 1) == Grown(config, l2, true);
  }

  lemma GrowsByRoot(config: Config, limit: int, root: nat)
    requires 1 <= root && root * root <= limit <= config.max
    ensures limit <= Grown(config, limit, true) <= config.max
    ensures Grown(config, limit, true) == config.max || Grown(config, limit, true) >= limit + root
  {
    if Isqrt(limit) < root { SquareMonotone(Isqrt(limit) + 1, root); }
  }

  lemma GrowsAtLeastOne(config: Config, limit: int)
    requires 0 <= limit <= config.max
    ensures limit <= Grown(config, limit, true) <= config.max
    ensures Grown(config, limit, true) == config.max || Grown(config, limit, true) >= limit + 1
  {
  }

  lemma SquareMonotone(a: nat, b: nat)
    requires a <= b
    ensures a * a <= b * b
  {
    assert b * b == a * a + (b - a) * (a + b);
  }

  lemma {:induction false} GrownJoin(config: Config, limit: int, m: nat, n: nat)
    ensures GrownTimes(config, limit, m + n) == GrownTimes(config, GrownTimes(config, limit, m), n)
    decreases m
  {
    if m > 0 { GrownJoin(config, Grown(config, limit, true), m - 1, n); }
  }

  lemma {:induction false} GrownMonotone(config: Config, limit: int, n: nat)
    requires 0 <= limit <= config.max
    ensures limit <= GrownTimes(config, limit, n) <= config.max
    ensures limit == config.max ==> GrownTimes(config, limit, n) == config.max
    decreases n
  {
    if n > 0 {
      GrowsAtLeastOne(config, limit);
      GrownMonotone(config, Grown(config, limit, true), n - 1);
    }
  }

  /** After three grows per square passed, the limit is past that square, or at the maximum. */
  lemma {:induction false} GrowsPastSquares(config: Config, limit: int, k: nat)
    requires 1 <= limit <= config.max
    ensures var l := GrownTimes(config, limit, 3 * k); l == config.max || l >= (k + 1) * (k + 1)
  {
    if k > 0 {
      GrowsPastSquares(config, limit, k - 1);
      GrownMonotone(config, limit, 3 * (k - 1));
      var l := GrownTimes(config, limit, 3 * (k - 1));
      GrownJoin(config, limit, 3 * (k - 1), 3);
      if l == config.max { GrownMonotone(config, l, 3); } else { ThreeGrows(config, l, k); }
    }
  }

  /** From one, one grow fewer than three per unit of the maximum's square root reaches the maximum. */
  lemma RecoversFromOne(config: Config, limit: int)
    requires 1 <= limit <= config.max
    ensures GrownTimes(config, limit, 3 * Isqrt(config.max) - 1) == config.max
  {
    hide Grown;
    var root := Isqrt(config.max);
    assert root >= 1;
    GrowsPastSquares(config, limit, root - 1);
    GrownJoin(config, limit, 3 * (root - 1), 2);
    GrownMonotone(config, limit, 3 * (root - 1));
    var l := GrownTimes(config, limit, 3 * (root - 1));
    if l == config.max { GrownMonotone(config, l, 2); } else { TwoGrowsEnd(config, l, root); }
  }

  /** From the maximum's root squared, two grows reach the maximum. */
  lemma TwoGrowsEnd(config: Config, limit: int, root: nat)
    requires 1 <= root && root * root <= limit <= config.max < (root + 1) * (root + 1)
    ensures GrownTimes(config, limit, 2) == config.max
  {
    SquareOf(root);
    GrowsByRoot(config, limit, root);
    var l1 := Grown(config, limit, true);
    GrowsByRoot(config, l1, root);
    hide Grown;
    assert GrownTimes(config, limit, 2) == GrownTimes(config, l1, 1);
    GrownOnce(config, l1);
  }

  lemma GrownOnce(config: Config, limit: int)
    ensures GrownTimes(config, limit, 1) == Grown(config, limit, true)
  {
    hide Grown;
    assert GrownTimes(config, limit, 1) == GrownTimes(config, Grown(config, limit, true), 0);
  }

  /** After a back-off, three grows per unit of the maximum's square root are enough to be back at it. */
  lemma RecoversInRootSteps(config: Config, limit: int)
    requires 0 <= limit <= config.max
    ensures GrownTimes(config, limit, 3 * Isqrt(config.max)) == config.max
  {
    hide Grown;
    var enough := 3 * Isqrt(config.max);
    if limit == config.max {
      GrownMonotone(config, limit, enough);
    } else {
      GrowsAtLeastOne(config, limit);
      assert Isqrt(config.max) >= 1;
      RecoversFromOne(config, Grown(config, limit, true));
      assert GrownTimes(config, limit, enough) == GrownTimes(config, Grown(config, limit, true), enough - 1);
    }
  }

  // ---------------------------------------------------------------- shrinking and growing in a run

  /** The move the event's decision makes, and nothing when it makes none. */
  function MoveAt(config: Config, s: Control, e: Event): Option<Move> {
    match e
    case Settle(isStep, sample, rssPct) =>
      if isStep && config.adaptive && !s.backedOff && s.settled + 1 >= s.limit
      then Some(MoveOf(config, StepCounted(s, sample), rssPct, true, 1, true)) else None
    case Tick(cpuPct, usagePct, again) =>
      if config.adaptive
      then Some(MoveOf(config, TickCounted(config, s, cpuPct, usagePct), if usagePct.Some? then usagePct else again,
                       false, 0, s.completions > 0))
      else None
    case _ => None
  }

  /** Only ticks act on a decision to shrink. */
  predicate ShrinksAt(config: Config, s: Control, e: Event) { e.Tick? && MoveAt(config, s, e) == Some(Shrink) }

  predicate GrowsAt(config: Config, s: Control, e: Event) { MoveAt(config, s, e) == Some(Grow) }

  lemma DecisionMoves(config: Config, s: Control, rssPct: Option<real>, growOnly: bool, settling: nat, measured: bool)
    requires config.min <= s.limit <= config.max
    ensures MoveOf(config, s, rssPct, growOnly, settling, measured) == Grow && s.backedOff && s.limit >= 0 ==>
      Decide(config, s, rssPct, growOnly, settling, measured).limit == Grown(config, s.limit, true)
    ensures MoveOf(config, s, rssPct, growOnly, settling, measured) == Shrink && !growOnly ==>
      Decide(config, s, rssPct, growOnly, settling, measured).limit == Shrunk(config, s.limit)
    ensures s.backedOff ==> Decide(config, s, rssPct, growOnly, settling, measured).backedOff
  {
    if s.limit >= 0 { GrowsAtLeastOne(config, s.limit); }
    ShrunkWhole(config, s.limit);
    hide MoveOf, Grown, Baseline, RoundHalfUp;
  }

  lemma EventMoves(config: Config, s: Control, e: Event)
    requires config.min <= s.limit <= config.max
    ensures GrowsAt(config, s, e) && s.backedOff && s.limit >= 0 ==>
      Step(config, s, e).limit == Grown(config, s.limit, true)
    ensures ShrinksAt(config, s, e) ==> Step(config, s, e).limit == Shrunk(config, s.limit)
    ensures s.backedOff ==> Step(config, s, e).backedOff
  {
    hide Decide, MoveOf, Headroom, Pushed, Grown, Shrunk;
    match e {
      case Settle(isStep, sample, rssPct) => DecisionMoves(config, StepCounted(s, sample), rssPct, true, 1, true);
      case Tick(cpuPct, usagePct, again) =>
        DecisionMoves(config, TickCounted(config, s, cpuPct, usagePct), if usagePct.Some? then usagePct else again,
                      false, 0, s.completions > 0);
      case _ =>
    }
  }

  /** The run continued. */
  function RunOn(config: Config, s: Control, events: seq<Event>): Control {
    if events == [] then s else Step(config, RunOn(config, s, events[..|events| - 1]), events[|events| - 1])
  }

  lemma {:induction false} RunJoin(config: Config, before: seq<Event>, after: seq<Event>)
    ensures Run(config, before + after) == RunOn(config, Run(config, before), after)
  {
    hide Step;
    if after == [] {
      assert before + [] == before;
    } else {
      assert (before + after)[..|before + after| - 1] == before + after[..|after| - 1];
      RunJoin(config, before, after[..|after| - 1]);
    }
  }

  lemma {:induction false} RunOnBounded(config: Config, s: Control, events: seq<Event>)
    requires config.min <= s.limit <= config.max
    ensures config.min <= RunOn(config, s, events).limit <= config.max
  {
    hide Step;
    if events != [] {
      RunOnBounded(config, s, events[..|events| - 1]);
      StepBounded(config, RunOn(config, s, events[..|events| - 1]), events[|events| - 1]);
    }
  }

  /** How many decisions of the stretch shrank, and how many grew. */
  function Shrinks(config: Config, s: Control, events: seq<Event>): nat {
    if events == [] then 0
    else
      Shrinks(config, s, events[..|events| - 1]) +
      if ShrinksAt(config, RunOn(config, s, events[..|events| - 1]), events[|events| - 1]) then 1 else 0
  }

  function Grows(config: Config, s: Control, events: seq<Event>): nat {
    if events == [] then 0
    else
      Grows(config, s, events[..|events| - 1]) +
      if GrowsAt(config, RunOn(config, s, events[..|events| - 1]), events[|events| - 1]) then 1 else 0
  }

  /** No event of the stretch raises the limit; or none lowers it. */
  ghost predicate NeverRaises(config: Config, s: Control, events: seq<Event>) {
    events == [] ||
    (NeverRaises(config, s, events[..|events| - 1]) &&
     RunOn(config, s, events).limit <= RunOn(config, s, events[..|events| - 1]).limit)
  }

  ghost predicate NeverLowers(config: Config, s: Control, events: seq<Event>) {
    events == [] ||
    (NeverLowers(config, s, events[..|events| - 1]) &&
     RunOn(config, s, events).limit >= RunOn(config, s, events[..|events| - 1]).limit)
  }

  function ShrunkTimes(config: Config, limit: int, n: nat): int {
    if n == 0 then limit else Shrunk(config, ShrunkTimes(config, limit, n - 1))
  }

  lemma ShrunkMonotone(config: Config, a: int, b: int)
    requires a <= b && config.min <= b
    ensures Shrunk(config, a) <= Shrunk(config, b) <= b
  {
    ShrunkWhole(config, a);
    ShrunkWhole(config, b);
    hide RoundHalfUp;
  }

  lemma {:induction false} ShrunkBounds(config: Config, limit: int, n: nat)
    requires config.min <= limit
    ensures config.min <= ShrunkTimes(config, limit, n) <= limit
  {
    if n > 0 {
      ShrunkBounds(config, limit, n - 1);
      ShrunkMonotone(config, ShrunkTimes(config, limit, n - 1), ShrunkTimes(config, limit, n - 1));
    }
  }

  lemma {:induction false} ShrunkAlong(config: Config, s: Control, events: seq<Event>)
    requires config.min <= s.limit <= config.max && NeverRaises(config, s, events)
    ensures RunOn(config, s, events).limit <= ShrunkTimes(config, s.limit, Shrinks(config, s, events))
  {
    hide Step, Shrunk, ShrinksAt;
    if events != [] {
      var front, e := events[..|events| - 1], events[|events| - 1];
      ShrunkAlong(config, s, front);
      RunOnBounded(config, s, front);
      ShrunkBounds(config, s.limit, Shrinks(config, s, front));
      EventMoves(config, RunOn(config, s, front), e);
      ShrunkMonotone(config, RunOn(config, s, front).limit, ShrunkTimes(config, s.limit, Shrinks(config, s, front)));
    }
  }

  /** Three shrinks in a row at least halve a limit, down to the minimum, and more shrink it no less. */
  lemma {:induction false} ShrunkHalf(config: Config, limit: int, n: nat)
    requires config.min <= limit && n >= 3
    ensures ShrunkTimes(config, limit, n) <= config.min || 2 * ShrunkTimes(config, limit, n) <= limit
  {
    hide Shrunk;
    if n > 3 {
      ShrunkHalf(config, limit, n - 1);
      ShrunkBounds(config, limit, n - 1);
      ShrunkMonotone(config, ShrunkTimes(config, limit, n - 1), ShrunkTimes(config, limit, n - 1));
    } else {
      ThreeShrinksHalve(config, limit);
      assert ShrunkTimes(config, limit, 1) == Shrunk(config, ShrunkTimes(config, limit, 0));
      assert ShrunkTimes(config, limit, 2) == Shrunk(config, ShrunkTimes(config, limit, 1));
    }
  }

  /**
   * Anywhere in a run, a stretch that never raises the limit and decides to shrink three times leaves it
   * at half or less, or at the minimum, whatever brakes and other events come between.
   */
  lemma RunHalves(config: Config, before: seq<Event>, after: seq<Event>)
    requires Bounds(config)
    requires NeverRaises(config, Run(config, before), after) && Shrinks(config, Run(config, before), after) >= 3
    ensures var was, now := Run(config, before).limit, Run(config, before + after).limit;
      now <= config.min || 2 * now <= was
  {
    hide Run, RunOn, NeverRaises, Shrinks, ShrunkTimes;
    LimitBounded(config, before);
    RunJoin(config, before, after);
    ShrunkAlong(config, Run(config, before), after);
    ShrunkHalf(config, Run(config, before).limit, Shrinks(config, Run(config, before), after));
  }

  lemma IsqrtMonotone(a: nat, b: nat)
    requires a <= b
    ensures Isqrt(a) <= Isqrt(b)
  {
    SquareOrder(Isqrt(a), Isqrt(b) + 1);
  }

  lemma SquareOrder(a: nat, b: nat)
    ensures a * a < b * b ==> a < b
  {
    if a >= b { assert a * a == b * b + (a - b) * (a + b); }
  }

  lemma GrownOrder(config: Config, a: int, b: int)
    requires 0 <= a <= b <= config.max
    ensures Grown(config, a, true) <= Grown(config, b, true)
  {
    IsqrtMonotone(a, b);
  }

  lemma {:induction false} GrownAlong(config: Config, s: Control, events: seq<Event>)
    requires config.min <= s.limit <= config.max && s.limit >= 0 && s.backedOff && NeverLowers(config, s, events)
    ensures RunOn(config, s, events).limit >= GrownTimes(config, s.limit, Grows(config, s, events))
    ensures RunOn(config, s, events).backedOff
  {
    hide Step, Grown, GrowsAt, GrownTimes;
    if events != [] {
      var front, e := events[..|events| - 1], events[|events| - 1];
      GrownAlong(config, s, front);
      GrownMonotone(config, s.limit, Grows(config, s, front));
      RunOnBounded(config, s, front);
      EventMoves(config, RunOn(config, s, front), e);
      GrownStep(config, s.limit, Grows(config, s, front), RunOn(config, s, front).limit);
    } else {
      NoGrowth(config, s.limit);
    }
  }

  lemma NoGrowth(config: Config, limit: int)
    ensures GrownTimes(config, limit, 0) == limit
  {
  }

  lemma GrownStep(config: Config, limit: int, n: nat, reached: int)
    requires 0 <= limit <= config.max && GrownTimes(config, limit, n) <= reached <= config.max
    ensures GrownTimes(config, limit, n + 1) <= Grown(config, reached, true)
  {
    hide Grown, GrownTimes;
    GrownMonotone(config, limit, n);
    GrownJoin(config, limit, n, 1);
    GrownOnce(config, GrownTimes(config, limit, n));
    GrownOrder(config, GrownTimes(config, limit, n), reached);
  }

  /**
   * Anywhere in a run after a back-off, a stretch that never lowers the limit and decides to grow three
   * times per unit of the maximum's square root ends at the maximum, whatever comes between.
   */
  lemma RunRecovers(config: Config, before: seq<Event>, after: seq<Event>)
    requires Bounds(config) && Run(config, before).backedOff && Run(config, before).limit >= 0
    requires NeverLowers(config, Run(config, before), after)
    requires config.max >= 0 && Grows(config, Run(config, before), after) >= 3 * Isqrt(config.max)
    ensures Run(config, before + after).limit == config.max
  {
    hide Run, RunOn, NeverLowers, Grows, GrownTimes, Grown;
    var s := Run(config, before);
    var n, enough := Grows(config, s, after), 3 * Isqrt(config.max);
    LimitBounded(config, before);
    RunJoin(config, before, after);
    RunOnBounded(config, s, after);
    GrownAlong(config, s, after);
    RecoversInRootSteps(config, s.limit);
    GrownJoin(config, s.limit, enough, n - enough);
    GrownMonotone(config, config.max, n - enough);
  }
}
