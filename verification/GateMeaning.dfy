/**
 * When the memory gate lets a task start, and what settling teaches it, said outright: in bytes and
 * percent, in terms of the costs seen and the tasks in flight.
 */
module GateMeaning {
  import opened Basics
  import opened Adaptive
  import opened AdaptiveController

  // ---------------------------------------------------------------- what a step is taken to cost

  /** `c` is the greatest of them. */
  predicate IsGreatest(xs: seq<int>, c: int) { c in xs && forall x :: x in xs ==> x <= c }

  predicate Tracked(tracking: bool, name: Option<string>) { tracking && name.Some? && name.value != "" }

  /** A task without a name, or any task while costs are not tracked, is taken to cost nothing. */
  lemma CostsNothing(costs: Costs, tracking: bool, name: Option<string>)
    requires !Tracked(tracking, name)
    ensures CostOf(costs, tracking, name) == 0
  {
  }

  /** A name with samples of its own costs the greatest of them. */
  lemma CostsItsOwn(costs: Costs, tracking: bool, name: Option<string>)
    requires Tracked(tracking, name) && name.value in costs && costs[name.value] != []
    ensures IsGreatest(costs[name.value], CostOf(costs, tracking, name))
  {
  }

  /** One without costs the greatest of any name's, and nothing when there are none at all. */
  lemma CostsTheWorst(costs: Costs, tracking: bool, name: Option<string>)
    requires Tracked(tracking, name) && (name.value !in costs || costs[name.value] == [])
    ensures var c := CostOf(costs, tracking, name);
      if forall n :: n in costs ==> costs[n] == [] then c == 0
      else (exists n :: n in costs && c in costs[n]) && forall n, x :: n in costs && x in costs[n] ==> x <= c
  {
    var c := CostOf(costs, tracking, name);
    assert IsWorst(costs, c);
    if n :| n in costs && costs[n] != [] {
      assert Sampled(costs, c);
      forall k, x | k in costs && x in costs[k] ensures x <= c { assert Sampled(costs, x); }
    }
  }

  /** What is in flight is taken to need the sum of its costs. */
  lemma ReservedSums(costs: Costs, tracking: bool, inflight: seq<Flight>, f: Flight)
    ensures Reserved(costs, tracking, []) == 0
    ensures Reserved(costs, tracking, inflight + [f]) ==
      Reserved(costs, tracking, inflight) + CostOf(costs, tracking, f.name)
  {
    assert (inflight + [f])[..|inflight|] == inflight;
  }

  // ---------------------------------------------------------------- the gate

  /** This many bytes are no more than this much percent of the limit. */
  predicate Within(bytes: int, limitBytes: int, pct: real) { 100.0 * bytes as real <= pct * limitBytes as real }

  /** Usage as a percentage of the limit: none when either cannot be read or the limit is not positive. */
  lemma PctMeans(m: Memory)
    ensures Pct(m).Some? <==> m.usage.Some? && m.limitBytes.Some? && m.limitBytes.value > 0
    ensures Pct(m).Some? ==> Pct(m).value * m.limitBytes.value as real == 100.0 * m.usage.value as real
  {
  }

  /**
   * A task may start when there is no gate, or nothing else runs. Otherwise not while the limit is
   * reached; then, if memory cannot be read, it may; not while the first task has yet to show its cost;
   * and else exactly when both what is in use with it, and the idle usage with it and all that is in
   * flight, stay within the mark: the lower one once it has been turned away.
   */
  lemma AdmitsExactly(g: GateState, name: Option<string>, m: Memory)
    ensures var c := CostOf(g.costs, g.config.stepCostTracking, name);
      var all := Reserved(g.costs, g.config.stepCostTracking, g.inflight) + c;
      var mark := if g.deferring then g.config.ramResumePct else g.config.ramAdmitPct;
      Admits(g, name, m) <==>
        if !g.config.adaptive || !g.config.ramAdmission || g.inflight == [] then true
        else if |g.inflight| >= g.limit then false
        else if m.usage.None? || m.limitBytes.None? || m.limitBytes.value <= 0 then true
        else if g.config.stepCostTracking && g.probePending && g.costs == map[] then false
        else
          Within(m.usage.value + c, m.limitBytes.value, mark)
          && (g.idleUsage.Some? ==> Within(g.idleUsage.value + all, m.limitBytes.value, mark))
  {
    if Readable(m) { ProjectedWithin(g, name, m); }
    hide Projected, CostOf, Reserved, FitsUnder, Within;
  }

  lemma ProjectedWithin(g: GateState, name: Option<string>, m: Memory)
    requires Readable(m)
    ensures var c := CostOf(g.costs, g.config.stepCostTracking, name);
      var all := Reserved(g.costs, g.config.stepCostTracking, g.inflight) + c;
      var mark := if g.deferring then g.config.ramResumePct else g.config.ramAdmitPct;
      FitsUnder(g, name, m) <==>
        Within(m.usage.value + c, m.limitBytes.value, mark)
        && (g.idleUsage.Some? ==> Within(g.idleUsage.value + all, m.limitBytes.value, mark))
  {
    hide CostOf, Reserved;
    var p, cap := Projected(g, name, m.usage.value), m.limitBytes.value;
    DivWithin(100.0 * p as real, cap as real, Mark(g));
    var c := CostOf(g.costs, g.config.stepCostTracking, name);
    var a := m.usage.value + c;
    if g.idleUsage.Some? {
      var b := g.idleUsage.value + (Reserved(g.costs, g.config.stepCostTracking, g.inflight) + c);
      assert p == Max(a, b);
      assert p as real == if a >= b then a as real else b as real;
    }
  }

  lemma DivWithin(x: real, m: real, c: real)
    requires m > 0.0
    ensures x / m <= c <==> x <= c * m
  {
    assert x / m * m == x;
    if x / m <= c { assert (c - x / m) * m >= 0.0; } else { assert (x / m - c) * m > 0.0; }
  }

  // ---------------------------------------------------------------- learning

  /**
   * A named task that ran alone from start to finish, its usage read at the start, teaches its cost: the
   * most it was seen to grow, or its usage or the peak has moved by the end, and never less than nothing.
   * A name keeps its latest five. Any other task teaches nothing.
   */
  lemma LearnsExactly(costs: Costs, tracking: bool, f: Flight, usage: Option<int>, peak: Option<int>)
    requires forall n :: n in costs ==> |costs[n]| <= 5
    ensures var learned := Learned(costs, tracking, f, usage, peak);
      if !(Tracked(tracking, f.name) && f.solo && f.usageAtStart.Some?) then learned == costs
      else
        var name := f.name.value;
        var seen := [0, f.growth]
          + (if usage.Some? then [usage.value - f.usageAtStart.value] else [])
          + (if peak.Some? && f.peakAtStart.Some? then [peak.value - f.peakAtStart.value] else []);
        var before := if name in costs then costs[name] else [];
        && learned.Keys == costs.Keys + {name}
        && (forall n :: n in costs && n != name ==> learned[n] == costs[n])
        && 1 <= |learned[name]| <= 5
        && IsGreatest(seen, learned[name][|learned[name]| - 1])
        && learned[name][..|learned[name]| - 1] == (if |before| < 5 then before else before[1..])
  {
  }

  /** A lone task's growth, looked at on a tick, is the most its usage has risen since it started. */
  lemma GrowthSeen(f: Flight, tracking: bool, usage: Option<int>)
    ensures GrownBy(f, tracking, usage) >= f.growth
    ensures tracking && f.solo && usage.Some? && f.usageAtStart.Some? ==>
      GrownBy(f, tracking, usage) >= usage.value - f.usageAtStart.value
      && GrownBy(f, tracking, usage) in [f.growth, usage.value - f.usageAtStart.value]
    ensures !(tracking && f.solo && usage.Some? && f.usageAtStart.Some?) ==> GrownBy(f, tracking, usage) == f.growth
  {
  }

  /** The settling task is the one under the token; an unknown token, or none, means the oldest. */
  lemma RetiresRight(inflight: seq<Flight>, token: Option<nat>)
    requires inflight != []
    ensures var i := IndexOf(inflight, token);
      && i < |inflight|
      && ((exists k :: 0 <= k < |inflight| && token == Some(inflight[k].token)) ==> token == Some(inflight[i].token))
      && (!(exists k :: 0 <= k < |inflight| && token == Some(inflight[k].token)) ==> i == 0)
  {
    if k :| 0 <= k < |inflight| && token == Some(inflight[k].token) {
      assert inflight[k].token == token.value;
    }
  }

  // ---------------------------------------------------------------- what a run's bound is made of

  /** How many tasks have started without passing the gate. */
  function Turns(hs: seq<Happening>): nat { |set i | 0 <= i < |hs| && hs[i].Turn?| }

  /** How many of those have settled. */
  function TurnsOver(hs: seq<Happening>): nat { |set i | 0 <= i < |hs| && hs[i].Settling? && hs[i].ungated| }

  /** As long as none settles that has not started, those in flight are those started and not settled. */
  lemma {:induction false} UngatedExactly(hs: seq<Happening>)
    requires forall k :: 0 <= k <= |hs| ==> TurnsOver(hs[..k]) <= Turns(hs[..k])
    ensures Ungated(hs) + TurnsOver(hs) == Turns(hs)
  {
    assert hs[..|hs|] == hs;
    if hs != [] {
      var front, h := hs[..|hs| - 1], hs[|hs| - 1];
      forall k | 0 <= k <= |front| ensures TurnsOver(front[..k]) <= Turns(front[..k]) { assert front[..k] == hs[..k]; }
      UngatedExactly(front);
      TurnsAdd(front, h);
      assert front + [h] == hs;
      hide Turns, TurnsOver;
    }
  }

  lemma TurnsAdd(hs: seq<Happening>, h: Happening)
    ensures Turns(hs + [h]) == Turns(hs) + if h.Turn? then 1 else 0
    ensures TurnsOver(hs + [h]) == TurnsOver(hs) + if h.Settling? && h.ungated then 1 else 0
  {
    var all := hs + [h];
    assert (set i | 0 <= i < |all| && all[i].Turn?)
        == (set i | 0 <= i < |hs| && hs[i].Turn?) + if h.Turn? then {|hs|} else {};
    assert (set i | 0 <= i < |all| && all[i].Settling? && all[i].ungated)
        == (set i | 0 <= i < |hs| && hs[i].Settling? && hs[i].ungated)
         + if h.Settling? && h.ungated then {|hs|} else {};
  }

  /** The peak is a limit some worker of the run had, and none had a greater one. */
  lemma {:induction false} PeakReached(ws: seq<Worker>)
    requires ws != []
    ensures forall i :: 0 <= i < |ws| ==> ws[i].control.limit <= PeakLimit(ws)
    ensures exists i :: 0 <= i < |ws| && ws[i].control.limit == PeakLimit(ws)
  {
    if |ws| == 1 {
      assert ws[0].control.limit == PeakLimit(ws);
    } else {
      var front, last := ws[..|ws| - 1], |ws| - 1;
      PeakReached(front);
      var i :| 0 <= i < |front| && front[i].control.limit == PeakLimit(front);
      assert ws[i] == front[i];
      assert PeakLimit(ws) == Max(PeakLimit(front), ws[last].control.limit);
      forall j | 0 <= j < |ws| ensures ws[j].control.limit <= PeakLimit(ws) {
        if j < last { assert ws[j] == front[j]; }
      }
      assert ws[if PeakLimit(front) > ws[last].control.limit then i else last].control.limit == PeakLimit(ws);
    }
  }
}
