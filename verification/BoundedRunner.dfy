/** Keyed tasks run at most `limit` at a time; the rest wait their turn. */
module BoundedRunner {
  import opened Basics

  /** A task waiting for a slot. The caller of a `run` is told when its task is dropped. */
  datatype Waiting = Waiting(key: string, task: nat, tellDropped: bool)

  /**
   * `started` are the tasks given a slot, in that order; `dropped` those forgotten by a clear; `lost`
   * those whose place another task took.
   */
  datatype State = State(
    active: nat, waiting: seq<Waiting>, seqNo: nat, started: seq<nat>, dropped: seq<nat>, lost: seq<nat>)

  const Idle := State(0, [], 0, [], [], [])

  datatype Event = Submit(key: string, task: nat) | RunTask(task: nat) | Settle | Clear

  /** The key a `run` waits under. */
  function RunKey(n: nat): string { "\0run:" + Decimal(n) }

  predicate HasKey(waiting: seq<Waiting>, key: string) {
    exists i :: 0 <= i < |waiting| && waiting[i].key == key
  }

  /** Where `key` waits, or the end. */
  function IndexOf(waiting: seq<Waiting>, key: string): (at: nat)
    ensures at <= |waiting| && (at < |waiting| ==> waiting[at].key == key)
    ensures at == |waiting| <==> !HasKey(waiting, key)
  {
    if waiting == [] then 0
    else if waiting[0].key == key then 0
    else
      var at := IndexOf(waiting[1..], key);
      assert at < |waiting[1..]| ==> waiting[at + 1].key == key;
      assert HasKey(waiting, key) ==> HasKey(waiting[1..], key) by {
        if i :| 0 <= i < |waiting| && waiting[i].key == key { assert waiting[1..][i - 1].key == key; }
      }
      1 + at
  }

  /** An entry under a key already waiting takes over that key's place. */
  function Put(waiting: seq<Waiting>, w: Waiting): seq<Waiting> {
    var at := IndexOf(waiting, w.key);
    if at < |waiting| then waiting[at := w] else waiting + [w]
  }

  function Displaced(waiting: seq<Waiting>, key: string): seq<nat> {
    var at := IndexOf(waiting, key);
    if at < |waiting| then [waiting[at].task] else []
  }

  function TasksOf(waiting: seq<Waiting>): seq<nat> {
    if waiting == [] then [] else TasksOf(waiting[..|waiting| - 1]) + [waiting[|waiting| - 1].task]
  }

  function Started(s: State, task: nat): State { s.(active := s.active + 1, started := s.started + [task]) }

  function Step(limit: int, s: State, e: Event): State {
    match e
    case Submit(key, task) =>
      if s.active < limit then Started(s, task)
      else if HasKey(s.waiting, key) then s
      else s.(waiting := s.waiting + [Waiting(key, task, false)])
    case RunTask(task) =>
      if s.active < limit then Started(s, task)
      else
        var key := RunKey(s.seqNo + 1);
        s.(seqNo := s.seqNo + 1, waiting := Put(s.waiting, Waiting(key, task, true)),
           lost := s.lost + Displaced(s.waiting, key))
    case Settle =>
      if s.active == 0 then s
      else if s.waiting == [] then s.(active := s.active - 1)
      else s.(waiting := s.waiting[1..], started := s.started + [s.waiting[0].task])
    case Clear => s.(waiting := [], dropped := s.dropped + TasksOf(s.waiting))
  }

  /** The task an event brings that is not a duplicate of a waiting key. */
  function Accepts(limit: int, s: State, e: Event): seq<nat> {
    match e
    case Submit(key, task) => if s.active < limit || !HasKey(s.waiting, key) then [task] else []
    case RunTask(task) => [task]
    case _ => []
  }

  function Run(limit: int, events: seq<Event>): State {
    if events == [] then Idle else Step(limit, Run(limit, events[..|events| - 1]), events[|events| - 1])
  }

  function Accepted(limit: int, events: seq<Event>): seq<nat> {
    if events == [] then []
    else
      Accepted(limit, events[..|events| - 1]) +
      Accepts(limit, Run(limit, events[..|events| - 1]), events[|events| - 1])
  }

  // ---------------------------------------------------------------- the bound

  predicate Bounded(limit: int, s: State) {
    s.active <= Max(0, limit) && (s.waiting != [] ==> s.active == Max(0, limit))
  }

  /** Never more than `limit` at once, and no one waits while there is a free slot. */
  lemma {:induction false} AlwaysBounded(limit: int, events: seq<Event>)
    ensures Bounded(limit, Run(limit, events))
  {
    if events != [] { AlwaysBounded(limit, events[..|events| - 1]); }
  }

  /** How many of the started tasks have settled. */
  function Finished(limit: int, events: seq<Event>): nat {
    if events == [] then 0
    else
      Finished(limit, events[..|events| - 1]) +
      if events[|events| - 1].Settle? && Run(limit, events[..|events| - 1]).active > 0 then 1 else 0
  }

  /** The slots in use are those of the tasks started and not settled: none is kept, and none is given twice. */
  lemma {:induction false} SlotsAreRunning(limit: int, events: seq<Event>)
    ensures Run(limit, events).active + Finished(limit, events) == |Run(limit, events).started|
  {
    if events != [] { SlotsAreRunning(limit, events[..|events| - 1]); }
  }

  // ---------------------------------------------------------------- every task accounted for

  lemma TasksSnoc(waiting: seq<Waiting>, w: Waiting)
    ensures TasksOf(waiting + [w]) == TasksOf(waiting) + [w.task]
  {
    assert (waiting + [w])[..|waiting|] == waiting;
  }

  lemma {:induction false} TasksHead(waiting: seq<Waiting>)
    requires waiting != []
    ensures TasksOf(waiting) == [waiting[0].task] + TasksOf(waiting[1..])
  {
    var front, last := waiting[..|waiting| - 1], waiting[|waiting| - 1];
    if |waiting| == 1 {
      assert waiting == [] + [last];
      TasksSnoc([], last);
    } else {
      TasksHead(front);
      assert waiting[1..] == front[1..] + [last];
      TasksSnoc(front[1..], last);
    }
  }

  /** How often a task occurs. */
  function Times(tasks: seq<nat>, task: nat): nat { multiset(tasks)[task] }

  lemma TimesJoin(a: seq<nat>, b: seq<nat>, task: nat)
    ensures Times(a + b, task) == Times(a, task) + Times(b, task)
    ensures Times([], task) == 0
  {
  }

  lemma {:induction false} TasksReplace(waiting: seq<Waiting>, at: nat, w: Waiting, task: nat)
    requires at < |waiting|
    ensures Times(TasksOf(waiting[at := w]), task) + Times([waiting[at].task], task) ==
      Times(TasksOf(waiting), task) + Times([w.task], task)
  {
    hide Times;
    var front, last := waiting[..|waiting| - 1], waiting[|waiting| - 1];
    assert waiting == front + [last];
    TasksSnoc(front, last);
    TimesJoin(TasksOf(front), [last.task], task);
    if at == |front| {
      assert waiting[at := w] == front + [w];
      TasksSnoc(front, w);
      TimesJoin(TasksOf(front), [w.task], task);
    } else {
      assert waiting[at := w] == front[at := w] + [last];
      TasksSnoc(front[at := w], last);
      TimesJoin(TasksOf(front[at := w]), [last.task], task);
      TasksReplace(front, at, w, task);
    }
  }

  lemma PutTasks(waiting: seq<Waiting>, w: Waiting, task: nat)
    ensures Times(TasksOf(Put(waiting, w)), task) + Times(Displaced(waiting, w.key), task) ==
      Times(TasksOf(waiting), task) + Times([w.task], task)
  {
    hide Times, HasKey;
    var at := IndexOf(waiting, w.key);
    TimesJoin([], [], task);
    if at < |waiting| {
      TasksReplace(waiting, at, w, task);
    } else {
      TasksSnoc(waiting, w);
      TimesJoin(TasksOf(waiting), [w.task], task);
    }
  }

  /** How often a task has been started, waits, was dropped or lost its place. */
  function Places(s: State, task: nat): nat {
    Times(s.started, task) + Times(TasksOf(s.waiting), task) + Times(s.dropped, task) + Times(s.lost, task)
  }

  lemma StepKeepsTasks(limit: int, s: State, e: Event, task: nat)
    ensures Places(Step(limit, s, e), task) == Places(s, task) + Times(Accepts(limit, s, e), task)
  {
    hide HasKey, IndexOf, TasksOf, Put, Displaced, Times;
    NoTasks();
    TimesJoin([], [], task);
    match e {
      case Submit(key, brought) =>
        TasksSnoc(s.waiting, Waiting(key, brought, false));
        TimesJoin(s.started, [brought], task);
        TimesJoin(TasksOf(s.waiting), [brought], task);
      case RunTask(brought) =>
        var w := Waiting(RunKey(s.seqNo + 1), brought, true);
        PutTasks(s.waiting, w, task);
        TimesJoin(s.started, [brought], task);
        TimesJoin(s.lost, Displaced(s.waiting, w.key), task);
        hide RunKey;
      case Settle =>
        if s.waiting != [] {
          TasksHead(s.waiting);
          TimesJoin(s.started, [s.waiting[0].task], task);
          TimesJoin([s.waiting[0].task], TasksOf(s.waiting[1..]), task);
        }
      case Clear =>
        TimesJoin(s.dropped, TasksOf(s.waiting), task);
    }
  }

  lemma NoTasks()
    ensures TasksOf([]) == []
  {
  }

  /**
   * Each accepted task has been started, still waits, was dropped by a clear or lost its place: one of
   * these, as often as it was accepted.
   */
  lemma {:induction false} EveryTaskOnce(limit: int, events: seq<Event>, task: nat)
    ensures Places(Run(limit, events), task) == Times(Accepted(limit, events), task)
  {
    if events != [] {
      hide Step, Accepts, Places, Times;
      var front, e := events[..|events| - 1], events[|events| - 1];
      EveryTaskOnce(limit, front, task);
      StepKeepsTasks(limit, Run(limit, front), e, task);
      TimesJoin(Accepted(limit, front), Accepts(limit, Run(limit, front), e), task);
    }
  }

  // ---------------------------------------------------------------- when a place is lost

  /** Exactly when a `run` takes over a waiting task's place. */
  lemma LosesExactly(limit: int, s: State, task: nat)
    ensures Step(limit, s, RunTask(task)).lost != s.lost <==>
      s.active >= limit && HasKey(s.waiting, RunKey(s.seqNo + 1))
  {
    var lost := Displaced(s.waiting, RunKey(s.seqNo + 1));
    assert |s.lost + lost| == |s.lost| + |lost|;
  }

  /** No submitted key looks like the ones `run` makes for itself. */
  ghost predicate OwnKeys(events: seq<Event>) {
    forall i, n: nat :: 0 <= i < |events| && events[i].Submit? ==> events[i].key != RunKey(n)
  }

  /** The keys of the form `run` uses were all made by it, and are used up. */
  ghost predicate KeysUsed(s: State) {
    forall i, n: nat :: 0 <= i < |s.waiting| && s.waiting[i].key == RunKey(n) ==> n <= s.seqNo
  }

  lemma StepKeysUsed(limit: int, s: State, e: Event)
    requires KeysUsed(s) && (e.Submit? ==> forall n: nat :: e.key != RunKey(n))
    ensures KeysUsed(Step(limit, s, e)) && (s.lost == [] ==> Step(limit, s, e).lost == [])
  {
    if e.RunTask? {
      var key := RunKey(s.seqNo + 1);
      forall n: nat | key == RunKey(n) ensures n == s.seqNo + 1 { RunKeyInjective(s.seqNo + 1, n); }
      hide RunKey;
      assert !HasKey(s.waiting, key);
    }
  }

  lemma RunKeyInjective(m: nat, n: nat)
    requires RunKey(m) == RunKey(n)
    ensures m == n
  {
    assert RunKey(m)[5..] == Decimal(m) && RunKey(n)[5..] == Decimal(n);
    DecimalInjective(m, n);
  }

  /** As long as callers keep off those keys, no task ever loses its place. */
  lemma {:induction false} NothingLost(limit: int, events: seq<Event>)
    requires OwnKeys(events)
    ensures Run(limit, events).lost == [] && KeysUsed(Run(limit, events))
  {
    if events != [] {
      hide Step, KeysUsed, RunKey;
      var front, e := events[..|events| - 1], events[|events| - 1];
      assert OwnKeys(front);
      NothingLost(limit, front);
      StepKeysUsed(limit, Run(limit, front), e);
    } else {
      assert KeysUsed(Idle);
    }
  }

  /** Otherwise one can: a submitted task under such a key is displaced, unrun, by the next `run`. */
  lemma ForgedKeyLosesTask(a: nat, b: nat, c: nat)
    ensures var end := Run(1, [Submit("k", a), Submit(RunKey(1), b), RunTask(c)]);
      end.started == [a] && TasksOf(end.waiting) == [c] && end.lost == [b]
  {
    var events := [Submit("k", a), Submit(RunKey(1), b), RunTask(c)];
    assert events[..2] == [Submit("k", a), Submit(RunKey(1), b)];
    assert events[..2][..1] == [Submit("k", a)] && [Submit("k", a)][..0] == [];
    assert Run(1, events[..2][..1]) == State(1, [], 0, [a], [], []) by {
      assert Run(1, [Submit("k", a)]) == Step(1, Run(1, []), Submit("k", a));
      assert [] + [a] == [a];
    }
    var waiting := [Waiting(RunKey(1), b, false)];
    assert Run(1, events[..2]) == State(1, waiting, 0, [a], [], []);
    assert waiting[0].key == RunKey(1);
    assert IndexOf(waiting, RunKey(1)) == 0;
    TasksSnoc([], Waiting(RunKey(1), c, true));
    assert waiting[0 := Waiting(RunKey(1), c, true)] == [] + [Waiting(RunKey(1), c, true)];
  }

  // ---------------------------------------------------------------- arrival order

  /** Tasks are numbered as they arrive. */
  ghost predicate Arriving(events: seq<Event>) {
    forall i, k ::
      0 <= i < k < |events| && !events[i].Settle? && !events[i].Clear? && !events[k].Settle? && !events[k].Clear? ==>
      events[i].task < events[k].task
  }

  ghost predicate Increasing(tasks: seq<nat>) {
    forall i, k :: 0 <= i < k < |tasks| ==> tasks[i] < tasks[k]
  }

  /** Started tasks and waiting ones, in order, all brought before `next`. */
  ghost predicate InOrder(s: State, next: nat) {
    Increasing(s.started + TasksOf(s.waiting)) && forall t :: t in s.started + TasksOf(s.waiting) ==> t < next
  }

  lemma StepInOrder(limit: int, s: State, e: Event, next: nat, after: nat)
    requires InOrder(s, next) && Bounded(limit, s) && next <= after
    requires e.Submit? || e.RunTask? ==> next <= e.task < after
    requires e.RunTask? ==> !HasKey(s.waiting, RunKey(s.seqNo + 1))
    ensures InOrder(Step(limit, s, e), after)
  {
    hide HasKey, RunKey, Increasing, TasksOf;
    var line := s.started + TasksOf(s.waiting);
    NoTasks();
    match e {
      case Submit(key, task) =>
        TasksSnoc(s.waiting, Waiting(key, task, false));
        LineGrows(s.started, TasksOf(s.waiting), task);
      case RunTask(task) =>
        TasksSnoc(s.waiting, Waiting(RunKey(s.seqNo + 1), task, true));
        LineGrows(s.started, TasksOf(s.waiting), task);
        assert Put(s.waiting, Waiting(RunKey(s.seqNo + 1), task, true)) ==
               s.waiting + [Waiting(RunKey(s.seqNo + 1), task, true)];
      case Settle =>
        if s.waiting != [] {
          TasksHead(s.waiting);
          assert s.started + [s.waiting[0].task] + TasksOf(s.waiting[1..]) == line;
        }
      case Clear =>
        LineCut(s.started, TasksOf(s.waiting));
    }
  }

  lemma LineGrows(started: seq<nat>, line: seq<nat>, task: nat)
    requires Increasing(started + line) && forall t :: t in started + line ==> t < task
    ensures Increasing(started + (line + [task]))
    ensures line == [] ==> Increasing(started + [task] + [])
    ensures forall t :: t in started + (line + [task]) <==> t in started + line || t == task
    ensures line == [] ==> forall t :: t in started + [task] + [] <==> t in started + line || t == task
  {
    var all := started + (line + [task]);
    assert all == started + line + [task];
    forall i | 0 <= i < |all| - 1 ensures all[i] == (started + line)[i] && all[i] < task {
      assert (started + line)[i] in started + line;
    }
    if line == [] { assert started + [task] + [] == all; }
  }

  lemma LineCut(started: seq<nat>, line: seq<nat>)
    requires Increasing(started + line)
    ensures Increasing(started + [])
    ensures forall t :: t in started + [] ==> t in started + line
  {
    assert started + [] == started;
    assert forall i :: 0 <= i < |started| ==> (started + line)[i] == started[i];
  }

  /** The number the next task will be at least. */
  function NextTask(events: seq<Event>): nat {
    if events == [] then 0
    else
      var last := events[|events| - 1];
      if last.Submit? || last.RunTask? then last.task + 1 else NextTask(events[..|events| - 1])
  }

  lemma {:induction false} NextTaskBound(events: seq<Event>, task: nat)
    requires forall i :: 0 <= i < |events| && !events[i].Settle? && !events[i].Clear? ==> events[i].task < task
    ensures NextTask(events) <= task
  {
    if events != [] { NextTaskBound(events[..|events| - 1], task); }
  }

  /** Slots are given out in the order the tasks came. */
  lemma {:induction false} ArrivalOrder(limit: int, events: seq<Event>)
    requires OwnKeys(events) && Arriving(events)
    ensures Increasing(Run(limit, events).started)
    ensures InOrder(Run(limit, events), NextTask(events))
  {
    if events != [] {
      hide Step, InOrder, Increasing, Bounded, KeysUsed, RunKey;
      var front, e := events[..|events| - 1], events[|events| - 1];
      assert OwnKeys(front) && Arriving(front);
      ArrivalOrder(limit, front);
      AlwaysBounded(limit, front);
      NothingLost(limit, front);
      if e.Submit? || e.RunTask? { NextTaskBound(front, e.task); }
      NextKeyFree(Run(limit, front));
      StepInOrder(limit, Run(limit, front), e, NextTask(front), NextTask(events));
    } else {
      assert InOrder(Idle, 0);
    }
    StartedInOrder(Run(limit, events), NextTask(events));
  }

  lemma NextKeyFree(s: State)
    requires KeysUsed(s)
    ensures !HasKey(s.waiting, RunKey(s.seqNo + 1))
  {
    hide RunKey;
  }

  lemma StartedInOrder(s: State, next: nat)
    requires InOrder(s, next)
    ensures Increasing(s.started)
  {
    var line := s.started + TasksOf(s.waiting);
    assert forall i :: 0 <= i < |s.started| ==> line[i] == s.started[i];
  }

  // ---------------------------------------------------------------- the runner

  class Runner {
    const limit: int
    var active: nat
    var waiting: seq<Waiting>
    var seqNo: nat
    var started: seq<nat>
    var dropped: seq<nat>
    ghost var lost: seq<nat>

    constructor (limit: int)
      ensures this.limit == limit && AsState() == Idle
    {
      this.limit := limit;
      active, waiting, seqNo, started, dropped, lost := 0, [], 0, [], [], [];
    }

    ghost function AsState(): State
      reads this
    {
      State(active, waiting, seqNo, started, dropped, lost)
    }

    method SubmitTask(key: string, task: nat)
      modifies this
      ensures AsState() == Step(limit, old(AsState()), Submit(key, task))
    {
      if active < limit {
        active := active + 1;
        started := started + [task];
        return;
      }
      var at := IndexOf(waiting, key);
      if at == |waiting| { waiting := waiting + [Waiting(key, task, false)]; }
    }

    /** Never deduplicated. */
    method RunUnderBound(task: nat)
      modifies this
      ensures AsState() == Step(limit, old(AsState()), RunTask(task))
    {
      if active < limit {
        active := active + 1;
        started := started + [task];
        return;
      }
      seqNo := seqNo + 1;
      lost := lost + Displaced(waiting, RunKey(seqNo));
      waiting := Put(waiting, Waiting(RunKey(seqNo), task, true));
    }

    /** Forget every task still waiting, telling the callers that asked to know. */
    method ClearWaiting() returns (told: seq<nat>)
      modifies this`waiting, this`dropped
      ensures AsState() == Step(limit, old(AsState()), Clear)
      ensures forall t :: t in told <==>
        exists i :: 0 <= i < |old(waiting)| && old(waiting)[i].tellDropped && old(waiting)[i].task == t
    {
      told := [];
      for i := 0 to |waiting|
        invariant waiting == old(waiting) && dropped == old(dropped) + TasksOf(waiting[..i])
        invariant forall t :: t in told <==> exists k :: 0 <= k < i && waiting[k].tellDropped && waiting[k].task == t
      {
        TasksSnoc(waiting[..i], waiting[i]);
        assert waiting[..i + 1] == waiting[..i] + [waiting[i]];
        if waiting[i].tellDropped { told := told + [waiting[i].task]; }
        dropped := dropped + [waiting[i].task];
      }
      assert waiting[..|waiting|] == waiting;
      waiting := [];
    }

    /** A task settled: its slot goes to the first in line, or is free. */
    method Settled()
      requires active > 0
      modifies this`active, this`waiting, this`started
      ensures AsState() == Step(limit, old(AsState()), Settle)
    {
      if waiting == [] {
        active := active - 1;
        return;
      }
      started := started + [waiting[0].task];
      waiting := waiting[1..];
    }
  }
}
