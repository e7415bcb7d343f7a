/** The controller itself: its hooks around each task, the control tick and the memory gate. */
module AdaptiveController {
  import opened Basics
  import opened Adaptive

  /** A task admitted and not yet settled. */
  datatype Flight = Flight(
    token: nat, name: Option<string>, usageAtStart: Option<int>, peakAtStart: Option<int>, growth: int, solo: bool)

  /** Per step name, the costs its latest solo runs showed, in bytes. */
  type Costs = map<string, seq<int>>

  const COST_SAMPLES: nat := 5

  // ---------------------------------------------------------------- what a step costs

  predicate Sampled(costs: Costs, c: int) { exists name :: name in costs && c in costs[name] }

  /** The largest cost any name has shown; zero when none has. */
  ghost predicate IsWorst(costs: Costs, c: int) {
    if forall name :: name in costs ==> costs[name] == [] then c == 0
    else Sampled(costs, c) && forall x :: Sampled(costs, x) ==> x <= c
  }

  function MaxOf(xs: seq<int>): (m: int)
    requires xs != []
    ensures m in xs && forall x :: x in xs ==> x <= m
  {
    assert xs == [xs[0]] + xs[1..];
    if |xs| == 1 then xs[0] else Max(xs[0], MaxOf(xs[1..]))
  }

  /** A named step costs the most its own runs have shown, or the most any has; an unnamed one nothing. */
  ghost predicate CostIs(costs: Costs, tracking: bool, name: Option<string>, c: int) {
    if !tracking || name.None? || name.value == "" then c == 0
    else if name.value in costs && costs[name.value] != [] then c == MaxOf(costs[name.value])
    else IsWorst(costs, c)
  }

  lemma WorstExists(costs: Costs) returns (c: int)
    ensures IsWorst(costs, c)
  {
    c := WorstAmong(costs, costs.Keys);
  }

  lemma {:induction false} WorstAmong(costs: Costs, names: set<string>) returns (c: int)
    requires names <= costs.Keys
    ensures if forall name :: name in names ==> costs[name] == [] then c == 0
      else
        && (exists name :: name in names && c in costs[name])
        && forall name, x :: name in names && x in costs[name] ==> x <= c
  {
    c := 0;
    if names != {} {
      var name :| name in names;
      var rest := WorstAmong(costs, names - {name});
      assert forall n :: n in names ==> n == name || n in names - {name};
      if costs[name] == [] {
        c := rest;
      } else if forall n :: n in names - {name} ==> costs[n] == [] {
        c := MaxOf(costs[name]);
      } else {
        c := Max(MaxOf(costs[name]), rest);
      }
    }
  }

  ghost function CostOf(costs: Costs, tracking: bool, name: Option<string>): (c: int)
    ensures CostIs(costs, tracking, name, c)
  {
    var worst := Worst(costs);
    if !tracking || name.None? || name.value == "" then 0
    else if name.value in costs && costs[name.value] != [] then MaxOf(costs[name.value])
    else worst
  }

  ghost function Worst(costs: Costs): (c: int)
    ensures IsWorst(costs, c)
  {
    assert exists c :: IsWorst(costs, c) by { var c := WorstExists(costs); }
    var c :| IsWorst(costs, c);
    c
  }

  lemma CostUnique(costs: Costs, tracking: bool, name: Option<string>, a: int, b: int)
    requires CostIs(costs, tracking, name, a) && CostIs(costs, tracking, name, b)
    ensures a == b
  {
  }

  ghost function Reserved(costs: Costs, tracking: bool, inflight: seq<Flight>): int {
    if inflight == [] then 0
    else
      Reserved(costs, tracking, inflight[..|inflight| - 1]) + CostOf(costs, tracking, inflight[|inflight| - 1].name)
  }

  // ---------------------------------------------------------------- the gate

  datatype Memory = Memory(usage: Option<int>, limitBytes: Option<int>)

  function Pct(m: Memory): Option<real> {
    if m.usage.None? || m.limitBytes.None? || m.limitBytes.value <= 0 then None
    else Some(100.0 * m.usage.value as real / m.limitBytes.value as real)
  }

  /** What the gate looks at. */
  datatype GateState = GateState(
    config: Config, limit: int, inflight: seq<Flight>, costs: Costs, idleUsage: Option<int>, probePending: bool,
    deferring: bool)

  predicate Open(g: GateState) { !g.config.adaptive || !g.config.ramAdmission }

  predicate Readable(m: Memory) { m.usage.Some? && m.limitBytes.Some? && m.limitBytes.value > 0 }

  predicate Probing(g: GateState) { g.config.stepCostTracking && g.probePending && g.costs == map[] }

  /** The usage to expect once the new task and those already admitted have allocated. */
  ghost function Projected(g: GateState, name: Option<string>, usage: int): int {
    var newCost := CostOf(g.costs, g.config.stepCostTracking, name);
    var reserved := Reserved(g.costs, g.config.stepCostTracking, g.inflight) + newCost;
    if g.idleUsage.None? then usage + newCost else Max(usage + newCost, g.idleUsage.value + reserved)
  }

  function Mark(g: GateState): real { if g.deferring then g.config.ramResumePct else g.config.ramAdmitPct }

  ghost predicate FitsUnder(g: GateState, name: Option<string>, m: Memory)
    requires Readable(m)
  {
    100.0 * Projected(g, name, m.usage.value) as real / m.limitBytes.value as real <= Mark(g)
  }

  /** Whether one more task may start now. */
  ghost predicate Admits(g: GateState, name: Option<string>, m: Memory) {
    || Open(g) || g.inflight == []
    || (|g.inflight| < g.limit && (!Readable(m) || (!Probing(g) && FitsUnder(g, name, m))))
  }

  /** Less memory in use never closes the gate, and having deferred never opens it. */
  lemma GateMonotone(g: GateState, name: Option<string>, m: Memory, lower: int, h: GateState)
    requires Readable(m) && lower <= m.usage.value && g.config.ramResumePct <= g.config.ramAdmitPct
    requires Admits(g, name, m) && h == g.(deferring := false)
    ensures Admits(g, name, m.(usage := Some(lower)))
    ensures Admits(h, name, m)
  {
    if !Open(g) && g.inflight != [] {
      var cap := m.limitBytes.value as real;
      var a, b := Projected(g, name, m.usage.value), Projected(g, name, lower);
      assert b <= a;
      DivMonotone(100.0 * b as real, 100.0 * a as real, cap);
      assert Projected(h, name, m.usage.value) == a;
    }
  }

  lemma DivMonotone(a: real, b: real, c: real)
    requires a <= b && c > 0.0
    ensures a / c <= b / c
  {
  }

  // ---------------------------------------------------------------- runs behind the gate

  /** A worker, as the control loop and as the gate see it. */
  datatype Worker = Worker(control: Control, gate: GateState)

  predicate Consistent(config: Config, w: Worker) {
    && w.gate.config == config && w.gate.limit == w.control.limit && w.gate.deferring == w.control.deferring
    && |w.gate.inflight| == w.control.inFlight
  }

  /**
   * `Turn`: a task starts without passing the gate, a workflow turn or one whose wait was given up. A
   * settling task says whether it was one of those.
   */
  datatype Happening =
    | Request(name: Option<string>, m: Memory)
    | Turn
    | Settling(ungated: bool, isStep: bool, sample: Sample, rssPct: Option<real>)
    | Ticking(cpuPct: Option<real>, usagePct: Option<real>, again: Option<real>)

  /** One thing happens to a worker. A requested task starts if the gate admits it, and only then. */
  ghost predicate Happens(config: Config, w: Worker, h: Happening, w2: Worker) {
    && Consistent(config, w2)
    && match h
       case Request(name, m) =>
         var gated := w.control.(deferring := w2.control.deferring);
         w2.control == if Admits(w.gate, name, m) then Begun(gated) else gated
       case Turn => w2.control == Begun(w.control)
       case Settling(_, isStep, sample, rssPct) => w2.control == SettledOne(config, w.control, isStep, sample, rssPct)
       case Ticking(cpuPct, usagePct, again) => w2.control == Ticked(config, w.control, cpuPct, usagePct, again)
  }

  /** A stretch of a run: the worker before and after each thing that happened. */
  ghost predicate Stretch(config: Config, ws: seq<Worker>, hs: seq<Happening>) {
    && |ws| == |hs| + 1 && Consistent(config, ws[0])
    && forall i :: 0 <= i < |hs| ==> Happens(config, ws[i], hs[i], ws[i + 1])
  }

  /** How many tasks that did not pass the gate are in flight. */
  function Ungated(hs: seq<Happening>): nat {
    if hs == [] then 0
    else
      var before, h := Ungated(hs[..|hs| - 1]), hs[|hs| - 1];
      if h.Turn? then before + 1 else if h.Settling? && h.ungated && before > 0 then before - 1 else before
  }

  function Settles(hs: seq<Happening>): nat {
    if hs == [] then 0 else Settles(hs[..|hs| - 1]) + if hs[|hs| - 1].Settling? then 1 else 0
  }

  /** The greatest limit so far. */
  function PeakLimit(ws: seq<Worker>): int
    requires ws != []
  {
    if |ws| == 1 then ws[0].control.limit else Max(PeakLimit(ws[..|ws| - 1]), ws[|ws| - 1].control.limit)
  }

  lemma StretchFront(config: Config, ws: seq<Worker>, hs: seq<Happening>)
    requires hs != [] && Stretch(config, ws, hs)
    ensures Stretch(config, ws[..|ws| - 1], hs[..|hs| - 1])
    ensures Happens(config, ws[|ws| - 2], hs[|hs| - 1], ws[|ws| - 1])
  {
    hide Happens;
  }

  lemma InFlightMoves(config: Config, w: Worker, h: Happening, w2: Worker)
    requires Consistent(config, w) && Happens(config, w, h, w2)
    ensures h.Turn? ==> w2.control.inFlight == w.control.inFlight + 1
    ensures h.Request? && Admits(w.gate, h.name, h.m) ==> w2.control.inFlight == w.control.inFlight + 1
    ensures h.Request? && !Admits(w.gate, h.name, h.m) ==> w2.control.inFlight == w.control.inFlight
    ensures h.Request? ==> w2.control.limit == w.control.limit
    ensures h.Settling? ==> w2.control.inFlight == if w.control.inFlight > 0 then w.control.inFlight - 1 else 0
    ensures h.Ticking? ==> w2.control.inFlight == w.control.inFlight
  {
    hide Admits;
    match h {
      case Settling(_, isStep, sample, rssPct) =>
        DecideKeepsLoad(config, StepCounted(w.control, sample), rssPct, true, 1, true);
      case Ticking(cpuPct, usagePct, again) =>
        DecideKeepsLoad(config, TickCounted(config, w.control, cpuPct, usagePct),
                        if usagePct.Some? then usagePct else again, false, 0, w.control.completions > 0);
      case _ =>
    }
    hide Decide;
  }

  lemma DecideKeepsLoad(config: Config, s: Control, rssPct: Option<real>, growOnly: bool, settling: nat, measured: bool)
    ensures Decide(config, s, rssPct, growOnly, settling, measured).inFlight == s.inFlight
  {
    hide MoveOf, Baseline, Grown, Shrunk;
  }

  /** Of the tasks in flight, those that passed the gate never outnumber the greatest limit so far, or one. */
  lemma {:induction false} LoadBounded(config: Config, ws: seq<Worker>, hs: seq<Happening>)
    requires Stretch(config, ws, hs) && ws[0].control.inFlight == 0
    requires config.adaptive && config.ramAdmission
    ensures ws[|hs|].control.inFlight <= Max(1, PeakLimit(ws)) + Ungated(hs)
  {
    if hs != [] {
      hide Stretch, Happens;
      StretchFront(config, ws, hs);
      LoadBounded(config, ws[..|ws| - 1], hs[..|hs| - 1]);
      StretchConsistent(config, ws, hs);
      InFlightMoves(config, ws[|ws| - 2], hs[|hs| - 1], ws[|ws| - 1]);
    }
  }

  lemma StretchConsistent(config: Config, ws: seq<Worker>, hs: seq<Happening>)
    requires Stretch(config, ws, hs)
    ensures |ws| == |hs| + 1 && forall i :: 0 <= i < |ws| ==> Consistent(config, ws[i])
  {
    forall i | 0 <= i < |ws| ensures Consistent(config, ws[i]) {
      if i > 0 { assert Happens(config, ws[i - 1], hs[i - 1], ws[i]); }
    }
  }

  /** No task starts in the stretch. */
  ghost predicate NoneStarts(ws: seq<Worker>, hs: seq<Happening>)
    requires |ws| == |hs| + 1
  {
    forall i :: 0 <= i < |hs| ==> !hs[i].Turn? && (hs[i].Request? ==> !Admits(ws[i].gate, hs[i].name, hs[i].m))
  }

  lemma {:induction false} LoadFalls(config: Config, ws: seq<Worker>, hs: seq<Happening>)
    requires Stretch(config, ws, hs) && NoneStarts(ws, hs)
    ensures ws[|hs|].control.inFlight ==
      if Settles(hs) < ws[0].control.inFlight then ws[0].control.inFlight - Settles(hs) else 0
  {
    if hs != [] {
      hide Stretch, Happens;
      StretchFront(config, ws, hs);
      LoadFalls(config, ws[..|ws| - 1], hs[..|hs| - 1]);
      StretchConsistent(config, ws, hs);
      InFlightMoves(config, ws[|ws| - 2], hs[|hs| - 1], ws[|ws| - 1]);
    }
  }

  /**
   * The gate never deadlocks: whatever was in flight, and whatever memory looks like, once that many
   * tasks have settled and none has started, the next request is admitted.
   */
  lemma NeverDeadlocked(config: Config, ws: seq<Worker>, hs: seq<Happening>, name: Option<string>, m: Memory)
    requires Stretch(config, ws, hs) && NoneStarts(ws, hs) && Settles(hs) >= ws[0].control.inFlight
    ensures Admits(ws[|hs|].gate, name, m)
  {
    LoadFalls(config, ws, hs);
    StretchConsistent(config, ws, hs);
    hide Stretch;
  }

  // ---------------------------------------------------------------- learning a cost

  /** Nothing already running is alone any more. */
  function Shared(inflight: seq<Flight>): (r: seq<Flight>)
    ensures |r| == |inflight| && forall i :: 0 <= i < |r| ==> r[i] == inflight[i].(solo := false)
  {
    seq(|inflight|, i requires 0 <= i < |inflight| => inflight[i].(solo := false))
  }

  /** The last few costs, the newest last. */
  function Remember(costs: Costs, name: string, cost: int): Costs {
    var before := if name in costs then costs[name] else [];
    var all := before + [cost];
    costs[name := if |all| > COST_SAMPLES then all[1..] else all]
  }

  /** What a run that was alone from start to finish showed: the most its usage, or the peak, moved. */
  function Observed(f: Flight, usage: Option<int>, peak: Option<int>): int {
    var a := f.growth;
    var b := if usage.Some? && f.usageAtStart.Some? then Max(a, usage.value - f.usageAtStart.value) else a;
    if peak.Some? && f.peakAtStart.Some? then Max(b, peak.value - f.peakAtStart.value) else b
  }

  predicate Teaches(tracking: bool, f: Flight) {
    tracking && f.solo && f.name.Some? && f.name.value != "" && f.usageAtStart.Some?
  }

  function Learned(costs: Costs, tracking: bool, f: Flight, usage: Option<int>, peak: Option<int>): Costs {
    if Teaches(tracking, f) then Remember(costs, f.name.value, Max(0, Observed(f, usage, peak))) else costs
  }

  /** Where the settling task is: under its token, or else the oldest. */
  function IndexOf(inflight: seq<Flight>, token: Option<nat>): (i: nat)
    ensures inflight != [] ==> i < |inflight|
    ensures inflight == [] ==> i == 0
  {
    if token.Some? && exists i :: 0 <= i < |inflight| && inflight[i].token == token.value
    then Position(inflight, token.value) else 0
  }

  function Position(inflight: seq<Flight>, token: nat): (i: nat)
    requires exists i :: 0 <= i < |inflight| && inflight[i].token == token
    ensures i < |inflight| && inflight[i].token == token
  {
    if inflight[0].token == token then 0
    else
      assert exists i :: 0 <= i < |inflight[1..]| && inflight[1..][i].token == token by {
        var i :| 0 <= i < |inflight| && inflight[i].token == token;
        assert inflight[1..][i - 1].token == token;
      }
      1 + Position(inflight[1..], token)
  }

  /** The most a lone task's usage has grown since it started, as far as it was looked at. */
  function GrownBy(f: Flight, tracking: bool, usage: Option<int>): int {
    if tracking && f.solo && usage.Some? && f.usageAtStart.Some? then Max(f.growth, usage.value - f.usageAtStart.value)
    else f.growth
  }

  function Without(inflight: seq<Flight>, i: nat): seq<Flight>
    requires i < |inflight|
  {
    inflight[..i] + inflight[i + 1..]
  }

  class Controller {
    const config: Config
    var limit: int
    var inflight: seq<Flight>
    var tokenSeq: nat
    var window: seq<Sample>
    var rttLong: Option<real>
    var headroomTicks: nat
    var stallTicks: nat
    var completions: nat
    var settled: nat
    var backedOff: bool
    var deferring: bool
    var cpuPct: Option<real>
    var costs: Costs
    var idleUsage: Option<int>
    var probePending: bool

    constructor (config: Config)
      ensures this.config == config && AsControl() == Born(config) && inflight == [] && costs == map[] && probePending
    {
      this.config, limit := config, config.limit;
      inflight, tokenSeq, window, rttLong := [], 0, [], None;
      headroomTicks, stallTicks, completions, settled := 0, 0, 0, 0;
      backedOff, deferring, cpuPct := false, false, None;
      costs, idleUsage, probePending := map[], None, true;
    }

    function AsControl(): Control
      reads this
    {
      Control(limit, |inflight|, window, rttLong, headroomTicks, stallTicks, completions, settled, backedOff,
        deferring, cpuPct)
    }

    function AsGate(): GateState
      reads this
    {
      GateState(config, limit, inflight, costs, idleUsage, probePending, deferring)
    }

    /** A task has started. Only one that starts alone can teach what it costs. */
    method OnStart(name: Option<string>, usage: Option<int>, peak: Option<int>) returns (token: nat)
      modifies this`inflight, this`tokenSeq
      ensures AsControl() == Begun(old(AsControl()))
      ensures token == old(tokenSeq) + 1 == tokenSeq
      ensures |inflight| == |old(inflight)| + 1
      ensures forall i :: 0 <= i < |old(inflight)| ==> inflight[i] == old(inflight)[i].(solo := false)
      ensures var f := inflight[|inflight| - 1];
        f == Flight(token, name,
                    if old(inflight) == [] && config.stepCostTracking then usage else None,
                    if old(inflight) == [] && config.stepCostTracking then peak else None,
                    0, old(inflight) == [])
    {
      var solo := inflight == [];
      tokenSeq := tokenSeq + 1;
      token := tokenSeq;
      var tracked := solo && config.stepCostTracking;
      inflight := Shared(inflight) +
        [Flight(token, name, if tracked then usage else None, if tracked then peak else None, 0, solo)];
    }

    /** A task has settled: a step is measured and may teach its cost. */
    method OnSettle(
        sample: Sample, isStep: bool, token: Option<nat>, usage: Option<int>, peak: Option<int>,
        rssPct: Option<real>)
      modifies this
      ensures AsControl() == SettledOne(config, old(AsControl()), isStep, sample, rssPct)
      ensures old(inflight) != [] ==> inflight == Without(old(inflight), IndexOf(old(inflight), token))
      ensures costs == if isStep && old(inflight) != []
        then Learned(old(costs), config.stepCostTracking, old(inflight)[IndexOf(old(inflight), token)], usage, peak)
        else old(costs)
      ensures probePending == (old(probePending) && !isStep)
      ensures idleUsage == if inflight == [] && usage.Some? then usage else old(idleUsage)
    {
      hide Decide, Learned, Pushed, IndexOf, Without;
      Leave(isStep, token, usage, peak);
      if !isStep { return; }
      window := Pushed(window, sample);
      completions := completions + 1;
      settled := settled + 1;
      assert AsControl() == StepCounted(old(AsControl()), sample);
      if config.adaptive && !backedOff && settled >= limit { DecideNow(rssPct, true, 1, true); }
    }

    /** The settling task leaves the line; a step may teach its cost, and a first settle ends the probe. */
    method Leave(isStep: bool, token: Option<nat>, usage: Option<int>, peak: Option<int>)
      modifies this`inflight, this`costs, this`probePending, this`idleUsage
      ensures |inflight| == if old(inflight) != [] then |old(inflight)| - 1 else 0
      ensures old(inflight) != [] ==> inflight == Without(old(inflight), IndexOf(old(inflight), token))
      ensures costs == if isStep && old(inflight) != []
        then Learned(old(costs), config.stepCostTracking, old(inflight)[IndexOf(old(inflight), token)], usage, peak)
        else old(costs)
      ensures probePending == (old(probePending) && !isStep)
      ensures idleUsage == if inflight == [] && usage.Some? then usage else old(idleUsage)
    {
      hide Learned;
      if isStep { probePending := false; }
      if inflight != [] {
        var i := IndexOf(inflight, token);
        var record := inflight[i];
        inflight := Without(inflight, i);
        if isStep { costs := Learned(costs, config.stepCostTracking, record, usage, peak); }
      }
      if inflight == [] && usage.Some? { idleUsage := usage; }
    }

    /** What one more task of this name would cost. */
    method StepCost(name: Option<string>) returns (c: int)
      ensures c == CostOf(costs, config.stepCostTracking, name)
    {
      ghost var right := CostOf(costs, config.stepCostTracking, name);
      if !config.stepCostTracking || name.None? || name.value == "" { return 0; }
      if name.value in costs && costs[name.value] != [] { return MaxOf(costs[name.value]); }
      var rest := costs.Keys;
      c := 0;
      var any := false;
      while rest != {}
        invariant rest <= costs.Keys
        invariant any <==> exists n :: n in costs && n !in rest && costs[n] != []
        invariant !any ==> c == 0
        invariant any ==> exists n :: n in costs && n !in rest && c in costs[n]
        invariant any ==> forall n, x :: n in costs && n !in rest && x in costs[n] ==> x <= c
        decreases rest
      {
        var n :| n in rest;
        rest := rest - {n};
        if costs[n] != [] {
          var m := MaxOf(costs[n]);
          assert m in costs[n];
          if !any || m > c { c := m; }
          any := true;
        }
      }
      CostUnique(costs, config.stepCostTracking, name, c, right);
    }

    /** Is there room to start one more task right now? */
    method TryAdmit(name: Option<string>, m: Memory) returns (admitted: bool)
      modifies this`idleUsage, this`deferring
      ensures admitted == Admits(old(AsGate()), name, m)
      ensures AsControl() == old(AsControl()).(deferring := deferring)
      ensures deferring ==
        if old(Open(AsGate())) then old(deferring)
        else if inflight == [] then false
        else if |inflight| >= limit || !Readable(m) || old(Probing(AsGate())) then old(deferring)
        else !admitted
      ensures idleUsage ==
        if !old(Open(AsGate())) && inflight == [] && m.usage.Some? then m.usage else old(idleUsage)
    {
      if !config.adaptive || !config.ramAdmission { return true; }
      if inflight == [] {
        if m.usage.Some? { idleUsage := m.usage; }
        deferring := false;
        return true;
      }
      if |inflight| >= limit { return false; }
      if !Readable(m) { return true; }
      if config.stepCostTracking && probePending && costs == map[] { return false; }
      var newCost := StepCost(name);
      var projected := m.usage.value + newCost;
      if idleUsage.Some? {
        var reserved := ReservedNow();
        projected := Max(projected, idleUsage.value + (reserved + newCost));
      }
      admitted := 100.0 * projected as real / m.limitBytes.value as real <= Mark(AsGate());
      deferring := !admitted;
    }

    /** How the task runner uses the gate: ask it, and start the task if it says yes. */
    method RequestTask(
        name: Option<string>, m: Memory, usage: Option<int>, peak: Option<int>) returns (token: Option<nat>)
      modifies this`idleUsage, this`deferring, this`inflight, this`tokenSeq
      ensures token.Some? <==> Admits(old(AsGate()), name, m)
      ensures Happens(config, Worker(old(AsControl()), old(AsGate())), Request(name, m), Worker(AsControl(), AsGate()))
    {
      hide Admits;
      var admitted := TryAdmit(name, m);
      token := None;
      if admitted {
        var t := OnStart(name, usage, peak);
        token := Some(t);
      }
    }

    method ReservedNow() returns (total: int)
      ensures total == Reserved(costs, config.stepCostTracking, inflight)
    {
      total := 0;
      for i := 0 to |inflight|
        invariant total == Reserved(costs, config.stepCostTracking, inflight[..i])
      {
        assert inflight[..i + 1][..i] == inflight[..i];
        var c := StepCost(inflight[i].name);
        total := total + c;
      }
      assert inflight[..|inflight|] == inflight;
    }

    /** One control iteration. */
    method OnTick(cpu: Option<real>, m: Memory, again: Option<real>)
      modifies this
      ensures AsControl() == Ticked(config, old(AsControl()), cpu, Pct(m), again)
      ensures costs == old(costs) && probePending == old(probePending)
      ensures idleUsage == if inflight == [] && m.usage.Some? then m.usage else old(idleUsage)
    {
      hide Decide, Pct, TickCounted;
      var measured := completions > 0;
      RefreshCounters(cpu, m.usage, Pct(m));
      if !config.adaptive { return; }
      DecideNow(if Pct(m).Some? then Pct(m) else again, false, 0, measured);
    }

    /** Count the tick: processor, room and stalls, and the growth of lone tasks. */
    method RefreshCounters(cpu: Option<real>, usage: Option<int>, usagePct: Option<real>)
      modifies this`cpuPct, this`inflight, this`idleUsage, this`headroomTicks, this`deferring, this`stallTicks,
        this`completions
      ensures AsControl() == TickCounted(config, old(AsControl()), cpu, usagePct)
      ensures idleUsage == if inflight == [] && usage.Some? then usage else old(idleUsage)
      ensures |inflight| == |old(inflight)|
      ensures forall i :: 0 <= i < |inflight| ==>
        inflight[i] == old(inflight)[i].(growth := GrownBy(old(inflight)[i], config.stepCostTracking, usage))
    {
      hide Headroom;
      cpuPct := cpu;
      SampleGrowth(usage);
      if usage.Some? && inflight == [] { idleUsage := usage; }
      if Headroom(config, usagePct) {
        headroomTicks := headroomTicks + 1;
        deferring := false;
      } else {
        headroomTicks := 0;
      }
      stallTicks := if completions == 0 && |inflight| > 0 then stallTicks + 1 else 0;
      completions := 0;
    }

    /** How far usage has grown since each lone task started. */
    method SampleGrowth(usage: Option<int>)
      modifies this`inflight
      ensures |inflight| == |old(inflight)|
      ensures forall i :: 0 <= i < |inflight| ==>
        inflight[i] == old(inflight)[i].(growth := GrownBy(old(inflight)[i], config.stepCostTracking, usage))
    {
      if usage.None? || !config.stepCostTracking { return; }
      inflight := seq(|inflight|, i requires 0 <= i < |inflight| reads this =>
        if inflight[i].solo && inflight[i].usageAtStart.Some?
        then inflight[i].(growth := Max(inflight[i].growth, usage.value - inflight[i].usageAtStart.value))
        else inflight[i]);
    }

    method DecideNow(rssPct: Option<real>, growOnly: bool, settling: nat, measured: bool)
      modifies this`limit, this`settled, this`headroomTicks, this`deferring, this`rttLong, this`backedOff
      ensures AsControl() == Decide(config, old(AsControl()), rssPct, growOnly, settling, measured)
    {
      hide MoveOf, Baseline, Grown, Shrunk, Moved;
      var move := MoveOf(config, AsControl(), rssPct, growOnly, settling, measured);
      settled := 0;
      ghost var s := AsControl();
      assert s == old(AsControl()).(settled := 0);
      match move {
        case RamCeiling =>
          headroomTicks := 0;
          deferring := true;
          assert AsControl() == s.(headroomTicks := 0, deferring := true);
          if !growOnly { Apply(config.min); }
        case CpuCeiling =>
          if !growOnly { Apply(Max(config.min, limit - 1)); }
        case Backpressure =>
          if !growOnly { Apply(Max(config.min, limit - 1)); }
        case Shrink =>
          LookAtLatency(growOnly, measured);
          if !growOnly { Apply(Shrunk(config, limit)); }
        case Grow =>
          LookAtLatency(growOnly, measured);
          Apply(Grown(config, limit, backedOff));
        case Stay =>
          LookAtLatency(growOnly, measured);
      }
    }

    /** Bring the latency baseline up to date, when there is something new to look at. */
    method LookAtLatency(growOnly: bool, measured: bool)
      modifies this`rttLong
      ensures AsControl() == old(AsControl()).(
        rttLong := if measured then Baseline(old(AsControl()), !growOnly || old(rttLong).None?) else old(rttLong))
    {
      if measured { rttLong := Baseline(AsControl(), !growOnly || rttLong.None?); }
    }

    /** Move the limit, clamped; the first time it goes down ends slow start. */
    method Apply(target: int)
      modifies this`limit, this`backedOff
      ensures AsControl() == Moved(config, old(AsControl()), target)
    {
      var next := Max(config.min, Min(config.max, target));
      if next < limit { backedOff := true; }
      limit := next;
    }
  }
}
