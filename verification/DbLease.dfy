/**
 * The SQL task tables workers share: a claim leases the oldest tasks, completing one writes its result
 * and then deletes it, and a worker may die between any two statements.
 */
module DbLease {
  import opened Basics

  datatype Task = Task(group: string, createdAt: int, claimedBy: Option<string>, claimedAt: Option<int>)

  datatype Tables = Tables(tasks: map<string, Task>, results: map<string, string>)

  // ---------------------------------------------------------------- the statements

  /** What the claim's `WHERE` selects: never claimed, or claimed before `staleBefore`. */
  predicate Claimable(t: Task, group: string, staleBefore: int) {
    t.group == group && (t.claimedAt.None? || t.claimedAt.value < staleBefore)
  }

  /** The rows a claim may lock: those another claim has locked are skipped. */
  function Candidates(tasks: map<string, Task>, group: string, staleBefore: int, locked: set<string>): set<string> {
    set id | id in tasks && id !in locked && Claimable(tasks[id], group, staleBefore)
  }

  /** `ids` are the oldest `limit` of the candidates. */
  ghost predicate Oldest(tasks: map<string, Task>, candidates: set<string>, limit: nat, ids: set<string>)
    requires candidates <= tasks.Keys
  {
    && ids <= candidates
    && |ids| == (if |candidates| < limit then |candidates| else limit)
    && (forall a, b :: a in ids && b in candidates - ids ==> tasks[a].createdAt <= tasks[b].createdAt)
  }

  function Leased(tasks: map<string, Task>, ids: set<string>, worker: string, at: int): map<string, Task> {
    map id | id in tasks ::
      if id in ids then tasks[id].(claimedBy := Some(worker), claimedAt := Some(at)) else tasks[id]
  }

  /** A result row, unless the step already has one. */
  function WithResult(results: map<string, string>, id: string, result: string): map<string, string> {
    if id in results then results else results[id := result]
  }

  lemma CandidatesKnown(tasks: map<string, Task>, group: string, staleBefore: int, locked: set<string>)
    ensures Candidates(tasks, group, staleBefore, locked) <= tasks.Keys
  {
  }

  /** A lease stamps its worker and time on the leased rows, changes nothing else of them, and leaves the rest alone. */
  lemma LeaseMeans(tasks: map<string, Task>, ids: set<string>, worker: string, at: int, id: string)
    requires id in tasks
    ensures Leased(tasks, ids, worker, at).Keys == tasks.Keys
    ensures Leased(tasks, ids, worker, at)[id] ==
      if id in ids then Task(tasks[id].group, tasks[id].createdAt, Some(worker), Some(at)) else tasks[id]
  {
  }

  /** The first result of a step is the one that stays. */
  lemma ResultMeans(results: map<string, string>, id: string, result: string)
    ensures var after := WithResult(results, id, result);
      && after.Keys == results.Keys + {id}
      && after[id] == (if id in results then results[id] else result)
      && forall other :: other in results && other != id ==> after[other] == results[other]
  {
  }

  /** A lease changes the leased rows alone. */
  lemma UnleasedSame(tasks: map<string, Task>, ids: set<string>, worker: string, at: int)
    ensures Leased(tasks, ids, worker, at) - ids == tasks - ids
  {
  }

  class TaskTables {
    var tasks: map<string, Task>
    var results: map<string, string>

    constructor (tasks: map<string, Task>, results: map<string, string>)
      ensures this.tasks == tasks && this.results == results
    {
      this.tasks, this.results := tasks, results;
    }

    /** Lease up to `limit` claimable tasks of the group, oldest first, in one transaction. */
    method Claim(group: string, staleBefore: int, worker: string, stampAt: int, limit: nat, locked: set<string>)
      returns (ids: set<string>)
      modifies this`tasks
      ensures Oldest(old(tasks), Candidates(old(tasks), group, staleBefore, locked), limit, ids)
      ensures tasks == Leased(old(tasks), ids, worker, stampAt)
    {
      var candidates := Candidates(tasks, group, staleBefore, locked);
      CandidatesKnown(tasks, group, staleBefore, locked);
      hide Candidates, Claimable, Leased;
      var rest := candidates;
      ids := {};
      while rest != {} && |ids| < limit
        invariant tasks == old(tasks)
        invariant ids <= candidates <= tasks.Keys && rest == candidates - ids && |ids| <= limit
        invariant forall a, b :: a in ids && b in rest ==> tasks[a].createdAt <= tasks[b].createdAt
        decreases rest
      {
        var id := OldestOf(rest);
        ids, rest := ids + {id}, rest - {id};
      }
      if rest == {} { assert ids == candidates; } else { SubsetSize(ids, candidates); }
      tasks := Leased(tasks, ids, worker, stampAt);
    }

    method OldestOf(ids: set<string>) returns (oldest: string)
      requires ids != {} && ids <= tasks.Keys
      ensures oldest in ids && forall id :: id in ids ==> tasks[oldest].createdAt <= tasks[id].createdAt
    {
      oldest :| oldest in ids;
      var rest := ids - {oldest};
      while rest != {}
        invariant rest <= ids && oldest in ids
        invariant forall id :: id in ids - rest ==> tasks[oldest].createdAt <= tasks[id].createdAt
        decreases rest
      {
        var id :| id in rest;
        rest := rest - {id};
        if tasks[id].createdAt < tasks[oldest].createdAt { oldest := id; }
      }
    }

    method InsertResult(id: string, result: string)
      modifies this`results
      ensures results == WithResult(old(results), id, result)
    {
      if id !in results { results := results[id := result]; }
    }

    method DeleteTask(id: string)
      modifies this`tasks
      ensures tasks == old(tasks) - {id}
    {
      tasks := tasks - {id};
    }

    /** One turn of a worker that does not die: claim, run each task, write its result, delete it. */
    method Poll(
        group: string, readAt: int, leaseMs: int, worker: string, stampAt: int, limit: nat,
        outcome: string -> string)
      returns (ids: set<string>)
      modifies this
      ensures Oldest(old(tasks), Candidates(old(tasks), group, readAt - leaseMs, {}), limit, ids)
      ensures tasks == old(tasks) - ids
      ensures forall id :: id in ids ==> id in results
      ensures forall id :: id in old(results) ==> id in results && results[id] == old(results)[id]
      ensures forall id :: id in results ==> id in old(results) || (id in ids && results[id] == outcome(id))
    {
      hide Candidates, Claimable, Leased;
      CandidatesKnown(tasks, group, readAt - leaseMs, {});
      ids := Claim(group, readAt - leaseMs, worker, stampAt, limit, {});
      Complete(ids, outcome);
      UnleasedSame(old(tasks), ids, worker, stampAt);
    }

    /** Write each task's result, then delete the task. */
    method Complete(ids: set<string>, outcome: string -> string)
      modifies this
      ensures tasks == old(tasks) - ids
      ensures forall id :: id in ids ==> id in results
      ensures forall id :: id in old(results) ==> id in results && results[id] == old(results)[id]
      ensures forall id :: id in results ==> id in old(results) || (id in ids && results[id] == outcome(id))
    {
      var rest := ids;
      assert ids - rest == {} && tasks - {} == tasks;
      while rest != {}
        invariant rest <= ids
        invariant tasks == old(tasks) - (ids - rest)
        invariant forall id :: id in ids - rest ==> id in results
        invariant forall id :: id in old(results) ==> id in results && results[id] == old(results)[id]
        invariant forall id :: id in results ==> id in old(results) || (id in ids && results[id] == outcome(id))
        decreases rest
      {
        var id :| id in rest;
        InsertResult(id, outcome(id));
        DeleteTask(id);
        assert old(tasks) - (ids - rest) - {id} == old(tasks) - (ids - (rest - {id}));
        rest := rest - {id};
      }
      assert ids - rest == ids;
    }
  }

  // ---------------------------------------------------------------- any interleaving

  /** What a live worker knows: the tasks its claims returned, and those it has written but not yet deleted. */
  datatype Worker = Worker(claimed: set<string>, written: multiset<string>)

  datatype State = State(tables: Tables, workers: map<string, Worker>)

  const Empty := State(Tables(map[], map[]), map[])

  /**
   * A claim reads the clock for the staleness bound and again for the stamp. `Consume`: the engine has
   * taken a result and removed its row.
   */
  datatype Event =
    | Enqueue(id: string, group: string, createdAt: int)
    | Claim(worker: string, group: string, readAt: int, stampAt: int, limit: nat, locked: set<string>, ids: set<string>)
    | Write(worker: string, id: string, result: string)
    | Delete(worker: string, id: string)
    | Crash(worker: string)
    | Consume(id: string)

  function WorkerOf(s: State, w: string): Worker {
    if w in s.workers then s.workers[w] else Worker({}, multiset{})
  }

  /** What can happen next. A worker deletes a task only once it has written its result. */
  ghost predicate Can(leaseMs: int, s: State, e: Event) {
    match e
    case Enqueue(id, _, _) => true
    case Claim(_, group, readAt, stampAt, limit, locked, ids) =>
      && readAt <= stampAt
      && Oldest(s.tables.tasks, Candidates(s.tables.tasks, group, readAt - leaseMs, locked), limit, ids)
    case Write(w, id, _) => id in WorkerOf(s, w).claimed
    case Delete(w, id) => id in WorkerOf(s, w).written
    case Crash(_) => true
    case Consume(id) => id in s.tables.results
  }

  function Step(s: State, e: Event): State {
    var tables := s.tables;
    match e
    case Enqueue(id, group, createdAt) =>
      if id in tables.tasks then s
      else s.(tables := tables.(tasks := tables.tasks[id := Task(group, createdAt, None, None)]))
    case Claim(w, _, _, stampAt, _, _, ids) =>
      var worker := WorkerOf(s, w);
      State(tables.(tasks := Leased(tables.tasks, ids, w, stampAt)),
            s.workers[w := worker.(claimed := worker.claimed + ids)])
    case Write(w, id, result) =>
      var worker := WorkerOf(s, w);
      State(tables.(results := WithResult(tables.results, id, result)),
            s.workers[w := worker.(written := worker.written + multiset{id})])
    case Delete(w, id) =>
      var worker := WorkerOf(s, w);
      State(tables.(tasks := tables.tasks - {id}),
            s.workers[w := worker.(written := worker.written - multiset{id})])
    case Crash(w) => s.(workers := s.workers - {w})
    case Consume(id) => s.(tables := tables.(results := tables.results - {id}))
  }

  function Run(s: State, events: seq<Event>): State {
    if events == [] then s else Step(Run(s, events[..|events| - 1]), events[|events| - 1])
  }

  ghost predicate Possible(leaseMs: int, s: State, events: seq<Event>) {
    forall i :: 0 <= i < |events| ==> Can(leaseMs, Run(s, events[..i]), events[i])
  }

  /** One clock, which never runs backwards. */
  ghost predicate Monotone(events: seq<Event>) {
    forall i, k :: 0 <= i < k < |events| && events[i].Claim? && events[k].Claim? ==>
      events[i].stampAt <= events[k].readAt
  }

  lemma PossiblePrefix(leaseMs: int, s: State, events: seq<Event>)
    requires events != [] && Possible(leaseMs, s, events)
    ensures Possible(leaseMs, s, events[..|events| - 1])
    ensures Can(leaseMs, Run(s, events[..|events| - 1]), events[|events| - 1])
  {
    var front := events[..|events| - 1];
    forall i | 0 <= i < |front| ensures Can(leaseMs, Run(s, front[..i]), front[i]) {
      assert front[..i] == events[..i];
    }
  }

  // ---------------------------------------------------------------- no step is lost

  /** The steps handed out whose result the engine has not taken yet. */
  function Outstanding(events: seq<Event>): set<string> {
    if events == [] then {} else OutstandingAfter(Outstanding(events[..|events| - 1]), events[|events| - 1])
  }

  function Consumed(events: seq<Event>): set<string> {
    if events == [] then {}
    else
      var before, e := Consumed(events[..|events| - 1]), events[|events| - 1];
      if e.Consume? then before + {e.id} else before
  }

  /** Some live worker has still to delete the step. */
  predicate Owed(s: State, id: string) { exists w :: w in s.workers && id in s.workers[w].written }

  predicate Safe(s: State, id: string) { id in s.tables.tasks || id in s.tables.results }

  /** Handing the step out now is at risk: a delete of it is still to come, and no result row covers it. */
  predicate Hazard(s: State, id: string) { Owed(s, id) && id !in s.tables.results }

  /** A step is lost by the next delete exactly when it was handed out at risk. */
  lemma LostExactly(leaseMs: int, s: State, e: Event)
    requires e.Enqueue?
    ensures Safe(Step(s, e), e.id)
    ensures Hazard(s, e.id) <==>
      exists w :: Can(leaseMs, Step(s, e), Delete(w, e.id)) && !Safe(Step(Step(s, e), Delete(w, e.id)), e.id)
  {
    var s1 := Step(s, e);
    if Hazard(s, e.id) {
      var w :| w in s.workers && e.id in s.workers[w].written;
      assert Can(leaseMs, s1, Delete(w, e.id)) && !Safe(Step(s1, Delete(w, e.id)), e.id);
    }
  }

  /** No step is handed out at risk. */
  ghost predicate HandedOutSafely(events: seq<Event>) {
    forall i :: 0 <= i < |events| && events[i].Enqueue? ==> !Hazard(Run(Empty, events[..i]), events[i].id)
  }

  /** Every outstanding step is in the table or has a result, and has one while a delete is still to come. */
  ghost predicate Kept(s: State, outstanding: set<string>) {
    forall id :: id in outstanding ==> Safe(s, id) && !Hazard(s, id)
  }

  function OutstandingAfter(outstanding: set<string>, e: Event): set<string> {
    if e.Enqueue? then outstanding + {e.id} else if e.Consume? then outstanding - {e.id} else outstanding
  }

  /** One event touches what is owed only where a worker writes or deletes. */
  lemma StepOwed(s: State, e: Event, id: string)
    requires Owed(Step(s, e), id)
    ensures Owed(s, id) || (e.Write? && e.id == id)
  {
    var w :| w in Step(s, e).workers && id in Step(s, e).workers[w].written;
    assert id in WorkerOf(s, w).written || (e.Write? && e.id == id);
  }

  lemma StepKept(leaseMs: int, s: State, e: Event, outstanding: set<string>)
    requires Kept(s, outstanding) && Can(leaseMs, s, e) && (e.Enqueue? ==> !Hazard(s, e.id))
    ensures Kept(Step(s, e), OutstandingAfter(outstanding, e))
  {
    hide Oldest, Candidates, Owed;
    forall id | id in OutstandingAfter(outstanding, e) ensures Safe(Step(s, e), id) && !Hazard(Step(s, e), id) {
      if Owed(Step(s, e), id) { StepOwed(s, e, id); }
      if e.Delete? && e.id == id { WrittenOwed(s, e.worker, id); }
    }
  }

  lemma WrittenOwed(s: State, w: string, id: string)
    requires id in WorkerOf(s, w).written
    ensures Owed(s, id)
  {
  }

  /** Over any interleaving and any crashes, every outstanding step is in the table or has a result. */
  lemma {:induction false} NoStepLost(leaseMs: int, events: seq<Event>)
    requires Possible(leaseMs, Empty, events) && HandedOutSafely(events)
    ensures forall id :: id in Outstanding(events) ==> Safe(Run(Empty, events), id)
    ensures Kept(Run(Empty, events), Outstanding(events))
  {
    hide Can, Step, Hazard;
    if events != [] {
      var front, e := events[..|events| - 1], events[|events| - 1];
      PossiblePrefix(leaseMs, Empty, events);
      HandedOutPrefix(events);
      NoStepLost(leaseMs, front);
      StepKept(leaseMs, Run(Empty, front), e, Outstanding(front));
    }
  }

  lemma HandedOutPrefix(events: seq<Event>)
    requires events != [] && HandedOutSafely(events)
    ensures HandedOutSafely(events[..|events| - 1])
  {
    hide Hazard, Run;
    var front := events[..|events| - 1];
    forall i | 0 <= i < |front| && front[i].Enqueue? ensures !Hazard(Run(Empty, front[..i]), front[i].id) {
      assert front[..i] == events[..i];
    }
  }

  /** Only a step whose result was taken can be at risk: an id never handed out again is always safe. */
  lemma {:induction false} AtRiskWasTaken(leaseMs: int, events: seq<Event>, id: string)
    requires Possible(leaseMs, Empty, events) && Hazard(Run(Empty, events), id)
    ensures id in Consumed(events)
  {
    hide Can;
    if events != [] {
      var front, e := events[..|events| - 1], events[|events| - 1];
      PossiblePrefix(leaseMs, Empty, events);
      StepOwed(Run(Empty, front), e, id);
      if !(e.Consume? && e.id == id) { AtRiskWasTaken(leaseMs, front, id); }
    }
  }

  lemma PossibleUpTo(leaseMs: int, s: State, events: seq<Event>, n: nat)
    requires Possible(leaseMs, s, events) && n <= |events|
    ensures Possible(leaseMs, s, events[..n])
  {
    hide Can, Run;
    forall i | 0 <= i < n ensures Can(leaseMs, Run(s, events[..n][..i]), events[..n][i]) {
      assert events[..n][..i] == events[..i];
    }
  }

  /**
   * What an operator can see to: as long as no id is handed out again once its result was taken, every
   * outstanding step is in the table or has a result.
   */
  lemma NoStepLostOnce(leaseMs: int, events: seq<Event>)
    requires Possible(leaseMs, Empty, events)
    requires forall i :: 0 <= i < |events| && events[i].Enqueue? ==> events[i].id !in Consumed(events[..i])
    ensures forall id :: id in Outstanding(events) ==> Safe(Run(Empty, events), id)
  {
    hide Possible, Run, Hazard;
    forall i | 0 <= i < |events| && events[i].Enqueue? ensures !Hazard(Run(Empty, events[..i]), events[i].id) {
      PossibleUpTo(leaseMs, Empty, events, i);
      if Hazard(Run(Empty, events[..i]), events[i].id) { AtRiskWasTaken(leaseMs, events[..i], events[i].id); }
    }
    NoStepLost(leaseMs, events);
  }

  /**
   * Handed out again, a step can be lost: a first worker outlived its lease, the step was finished by a
   * second and its result taken, and the first worker's late delete removes the new task.
   */
  lemma LateDeleteLosesRetry(id: string, first: string, second: string)
    requires first != second
    ensures var claim1, claim2 := Claim(first, "g", 1, 1, 1, {}, {id}), Claim(second, "g", 100, 100, 1, {}, {id});
      var s1 := Step(Empty, Enqueue(id, "g", 0));
      var s2 := Step(s1, claim1);
      var s3 := Step(s2, claim2);
      var s4 := Step(Step(s3, Write(second, id, "r")), Delete(second, id));
      var s5 := Step(Step(s4, Write(first, id, "s")), Consume(id));
      var s6 := Step(s5, Enqueue(id, "g", 101));
      var s7 := Step(s6, Delete(first, id));
      && Can(10, Empty, Enqueue(id, "g", 0)) && Can(10, s1, claim1) && Can(10, s2, claim2)
      && Can(10, s3, Write(second, id, "r")) && Can(10, Step(s3, Write(second, id, "r")), Delete(second, id))
      && Can(10, s4, Write(first, id, "s")) && Can(10, Step(s4, Write(first, id, "s")), Consume(id))
      && Can(10, s5, Enqueue(id, "g", 101)) && Can(10, s6, Delete(first, id))
      && id in s6.tables.tasks && id !in s7.tables.tasks && id !in s7.tables.results
  {
    hide Oldest, Candidates;
    var s1 := Step(Empty, Enqueue(id, "g", 0));
    OnlyCandidate(s1.tables.tasks, "g", 1 - 10, id);
    var s2 := Step(s1, Claim(first, "g", 1, 1, 1, {}, {id}));
    OnlyCandidate(s2.tables.tasks, "g", 100 - 10, id);
  }

  lemma OnlyCandidate(tasks: map<string, Task>, group: string, staleBefore: int, id: string)
    requires tasks.Keys == {id} && Claimable(tasks[id], group, staleBefore)
    ensures Oldest(tasks, Candidates(tasks, group, staleBefore, {}), 1, {id})
  {
    assert Candidates(tasks, group, staleBefore, {}) == {id};
  }

  /** A result row, once written, never changes, however many workers finish the step again. */
  lemma {:induction false} ResultsFixed(s: State, events: seq<Event>, id: string)
    requires id in s.tables.results
    requires forall i :: 0 <= i < |events| ==> !(events[i].Consume? && events[i].id == id)
    ensures id in Run(s, events).tables.results && Run(s, events).tables.results[id] == s.tables.results[id]
  {
    if events != [] { ResultsFixed(s, events[..|events| - 1], id); }
  }

  // ---------------------------------------------------------------- the lease

  /** The task, while it is there, was last claimed at `at` or later. */
  predicate StampedSince(s: State, id: string, at: int) {
    id in s.tables.tasks ==> s.tables.tasks[id].claimedAt.Some? && s.tables.tasks[id].claimedAt.value >= at
  }

  lemma {:induction false} StampHolds(leaseMs: int, s: State, events: seq<Event>, id: string, at: int)
    requires StampedSince(s, id, at) && Possible(leaseMs, s, events)
    requires forall i :: 0 <= i < |events| ==> !(events[i].Enqueue? && events[i].id == id)
    requires forall i :: 0 <= i < |events| && events[i].Claim? ==> at <= events[i].readAt
    ensures StampedSince(Run(s, events), id, at)
  {
    if events != [] {
      PossiblePrefix(leaseMs, s, events);
      StampHolds(leaseMs, s, events[..|events| - 1], id, at);
    }
  }

  /**
   * Between a claim of a task and the next claim of it, more than the lease passes: no second worker
   * holds it within `leaseMs` of its claim.
   */
  lemma LeaseRespected(leaseMs: int, s: State, first: Event, between: seq<Event>, second: Event, id: string)
    requires first.Claim? && second.Claim? && id in first.ids && id in second.ids
    requires Possible(leaseMs, s, [first] + between + [second]) && Monotone([first] + between + [second])
    requires forall i :: 0 <= i < |between| ==> !(between[i].Enqueue? && between[i].id == id)
    ensures second.readAt > first.stampAt + leaseMs
  {
    hide Step, Can, Run, Possible;
    var all := [first] + between + [second];
    assert all[0] == first && all[|between| + 1] == second;
    assert forall i :: 0 <= i < |between| ==> all[i + 1] == between[i];
    FirstThenBetween(leaseMs, s, first, between, second);
    ClaimStamps(s, first, id);
    StampHolds(leaseMs, Step(s, first), between, id, first.stampAt);
    ClaimNeedsStale(leaseMs, Run(Step(s, first), between), second, id);
  }

  lemma ClaimStamps(s: State, claim: Event, id: string)
    requires claim.Claim? && id in claim.ids
    ensures StampedSince(Step(s, claim), id, claim.stampAt)
  {
  }

  lemma ClaimNeedsStale(leaseMs: int, s: State, claim: Event, id: string)
    requires claim.Claim? && id in claim.ids && Can(leaseMs, s, claim)
    ensures id in s.tables.tasks
    ensures s.tables.tasks[id].claimedAt.Some? ==> s.tables.tasks[id].claimedAt.value < claim.readAt - leaseMs
  {
  }

  /** What was possible in the whole run is possible from after its first event. */
  lemma FirstThenBetween(leaseMs: int, s: State, first: Event, between: seq<Event>, second: Event)
    requires Possible(leaseMs, s, [first] + between + [second])
    ensures Can(leaseMs, s, first) && Possible(leaseMs, Step(s, first), between)
    ensures Can(leaseMs, Run(Step(s, first), between), second)
  {
    hide Can, Step;
    var all, n := [first] + between + [second], |between|;
    assert all[0] == first && all[..0] == [];
    assert Can(leaseMs, Run(s, all[..0]), all[0]);
    forall i | 0 <= i < n ensures Can(leaseMs, Run(Step(s, first), between[..i]), between[i]) {
      LaterEvent(leaseMs, s, first, between, second, i);
    }
    LaterEvent(leaseMs, s, first, between, second, n);
    assert between[..n] == between;
  }

  lemma LaterEvent(leaseMs: int, s: State, first: Event, between: seq<Event>, second: Event, i: nat)
    requires Possible(leaseMs, s, [first] + between + [second]) && i <= |between|
    ensures Can(leaseMs, Run(Step(s, first), between[..i]), if i < |between| then between[i] else second)
  {
    hide Can, Step;
    var all, k := [first] + between + [second], i + 1;
    assert all[..k] == [first] + between[..i];
    RunFrom(s, first, between[..i]);
    assert Can(leaseMs, Run(s, all[..k]), all[k]);
  }

  lemma {:induction false} RunFrom(s: State, e: Event, events: seq<Event>)
    ensures Run(s, [e] + events) == Run(Step(s, e), events)
  {
    if events == [] {
      assert [e] + [] == [e] && [e][..0] == [];
    } else {
      assert ([e] + events)[..|events|] == [e] + events[..|events| - 1];
      RunFrom(s, e, events[..|events| - 1]);
    }
  }

  /** The task may be claimed by whoever reads the clock at `now` or later: nobody has it, or the lease ran out. */
  predicate Claimless(s: State, id: string, group: string, now: int, leaseMs: int) {
    id in s.tables.tasks && Claimable(s.tables.tasks[id], group, now - leaseMs)
  }

  /** No event finishes the task or claims it. */
  ghost predicate LeavesAlone(events: seq<Event>, id: string) {
    forall i :: 0 <= i < |events| ==>
      !(events[i].Delete? && events[i].id == id) && !(events[i].Claim? && id in events[i].ids)
  }

  lemma {:induction false} StaysClaimless(
      s: State, events: seq<Event>, id: string, group: string, now: int, leaseMs: int)
    requires Claimless(s, id, group, now, leaseMs) && LeavesAlone(events, id)
    ensures Claimless(Run(s, events), id, group, now, leaseMs)
  {
    if events != [] { StaysClaimless(s, events[..|events| - 1], id, group, now, leaseMs); }
  }

  /** A poll of the task's group within one lease of `now`, which does not skip the task as locked. */
  predicate PollAt(e: Event, group: string, now: int, leaseMs: int, id: string) {
    && e.Claim? && e.group == group && e.limit >= 1 && id !in e.locked
    && now <= e.readAt <= now + leaseMs
  }

  function PollsIn(events: seq<Event>, group: string, now: int, leaseMs: int, id: string): nat {
    if events == [] then 0
    else
      PollsIn(events[..|events| - 1], group, now, leaseMs, id) +
      if PollAt(events[|events| - 1], group, now, leaseMs, id) then 1 else 0
  }

  function EnqueuesIn(events: seq<Event>): nat {
    if events == [] then 0 else EnqueuesIn(events[..|events| - 1]) + if events[|events| - 1].Enqueue? then 1 else 0
  }

  /** The other tasks not claimed since `now`: those a poll may still take instead. */
  function Rivals(s: State, id: string, now: int): set<string> {
    set x | x in s.tables.tasks && x != id &&
      (s.tables.tasks[x].claimedAt.None? || s.tables.tasks[x].claimedAt.value < now)
  }

  /** Claims read the clock from `now` on. */
  ghost predicate ClaimsFrom(events: seq<Event>, now: int) {
    forall i :: 0 <= i < |events| && events[i].Claim? ==> events[i].readAt >= now
  }

  /** A poll that passes the task over takes a rival. */
  lemma PollTakes(leaseMs: int, s: State, poll: Event, now: int, id: string, group: string) returns (taken: string)
    requires Can(leaseMs, s, poll) && PollAt(poll, group, now, leaseMs, id) && id !in poll.ids
    requires Claimless(s, id, group, now, leaseMs)
    ensures taken in poll.ids && taken in Rivals(s, id, now)
  {
    var candidates := Candidates(s.tables.tasks, group, poll.readAt - leaseMs, poll.locked);
    assert candidates == {id} + (candidates - {id});
    taken :| taken in poll.ids;
  }

  /** Nothing but enqueuing adds a rival, one at most. */
  lemma RivalsMove(leaseMs: int, s: State, e: Event, now: int, id: string)
    requires Can(leaseMs, s, e) && (e.Claim? ==> e.readAt >= now) && id in s.tables.tasks
    ensures Rivals(Step(s, e), id, now) <= Rivals(s, id, now) + if e.Enqueue? then {e.id} else {}
    ensures e.Claim? ==> Rivals(Step(s, e), id, now) !! e.ids
  {
    hide Oldest;
  }

  lemma RivalsCount(leaseMs: int, s: State, e: Event, now: int, id: string, group: string)
    requires Can(leaseMs, s, e) && (e.Claim? ==> e.readAt >= now && id !in e.ids)
    requires Claimless(s, id, group, now, leaseMs)
    ensures |Rivals(Step(s, e), id, now)| + (if PollAt(e, group, now, leaseMs, id) then 1 else 0)
      <= |Rivals(s, id, now)| + if e.Enqueue? then 1 else 0
  {
    hide Can, Step, Rivals;
    var was, left := Rivals(s, id, now), Rivals(Step(s, e), id, now);
    RivalsMove(leaseMs, s, e, now, id);
    if PollAt(e, group, now, leaseMs, id) {
      var taken := PollTakes(leaseMs, s, e, now, id, group);
      SubsetSize(left + {taken}, was);
    } else {
      SubsetSize(left, was + if e.Enqueue? then {e.id} else {});
    }
  }

  lemma {:induction false} PollsTakeRivals(
      leaseMs: int, s: State, events: seq<Event>, now: int, id: string, group: string)
    requires Possible(leaseMs, s, events) && ClaimsFrom(events, now) && LeavesAlone(events, id)
    requires Claimless(s, id, group, now, leaseMs)
    ensures |Rivals(Run(s, events), id, now)| + PollsIn(events, group, now, leaseMs, id)
      <= |Rivals(s, id, now)| + EnqueuesIn(events)
  {
    if events != [] {
      hide Step, Can, Rivals, Claimless, Possible, PollAt;
      var front := events[..|events| - 1];
      PossiblePrefix(leaseMs, s, events);
      PollsTakeRivals(leaseMs, s, front, now, id, group);
      StaysClaimless(s, front, id, group, now, leaseMs);
      RivalsCount(leaseMs, Run(s, front), events[|events| - 1], now, id, group);
    }
  }

  /** However busy the table, polls that leave the task alone are no more than its rivals, old and new. */
  lemma FewPollsPassOver(leaseMs: int, s: State, events: seq<Event>, now: int, id: string, group: string)
    requires Possible(leaseMs, s, events) && ClaimsFrom(events, now) && Claimless(s, id, group, now, leaseMs)
    ensures LeavesAlone(events, id) ==>
      PollsIn(events, group, now, leaseMs, id) < |s.tables.tasks| + EnqueuesIn(events)
  {
    hide Possible, ClaimsFrom, Run, PollsIn, EnqueuesIn;
    if LeavesAlone(events, id) {
      PollsTakeRivals(leaseMs, s, events, now, id, group);
      assert id !in Rivals(s, id, now);
      SubsetSize(Rivals(s, id, now) + {id}, s.tables.tasks.Keys);
    }
  }

  /**
   * A task nobody has, its worker having crashed for instance and the lease run out, is claimed. Whatever
   * else happens to the tables in the meantime, short of the task being finished: by the time its group
   * has been polled, within one lease, as often as there were tasks and new ones came, a claim took it.
   */
  lemma StuckTaskReclaimed(leaseMs: int, s: State, events: seq<Event>, now: int, id: string, group: string)
    requires Claimless(s, id, group, now, leaseMs) && Possible(leaseMs, s, events) && ClaimsFrom(events, now)
    requires forall i :: 0 <= i < |events| ==> !(events[i].Delete? && events[i].id == id)
    requires PollsIn(events, group, now, leaseMs, id) >= |s.tables.tasks| + EnqueuesIn(events)
    ensures exists i :: 0 <= i < |events| && events[i].Claim? && id in events[i].ids
  {
    hide Possible, ClaimsFrom, PollsIn, EnqueuesIn, Claimless;
    FewPollsPassOver(leaseMs, s, events, now, id, group);
    assert !LeavesAlone(events, id);
  }

  /** A claimed task is in that position, from one lease after its claim, for as long as it is left alone. */
  lemma ClaimRunsOut(leaseMs: int, s: State, claim: Event, between: seq<Event>, now: int, id: string)
    requires claim.Claim? && id in claim.ids && Can(leaseMs, s, claim) && LeavesAlone(between, id)
    ensures var after := Run(Step(s, claim), between);
      id in after.tables.tasks && (Claimless(after, id, claim.group, now, leaseMs) <==> claim.stampAt + leaseMs < now)
  {
    ClaimedAtStamp(leaseMs, s, claim, id);
    StaysClaimed(Step(s, claim), between, id);
  }

  lemma ClaimedAtStamp(leaseMs: int, s: State, claim: Event, id: string)
    requires claim.Claim? && id in claim.ids && Can(leaseMs, s, claim)
    ensures id in Step(s, claim).tables.tasks
    ensures Step(s, claim).tables.tasks[id].group == claim.group
    ensures Step(s, claim).tables.tasks[id].claimedAt == Some(claim.stampAt)
  {
  }

  lemma {:induction false} StaysClaimed(s: State, events: seq<Event>, id: string)
    requires id in s.tables.tasks && LeavesAlone(events, id)
    ensures id in Run(s, events).tables.tasks && Run(s, events).tables.tasks[id] == s.tables.tasks[id]
  {
    if events != [] { StaysClaimed(s, events[..|events| - 1], id); }
  }

  /**
   * A claim takes all the candidates when they are no more than its batch; else exactly as many as the
   * batch, none of which is newer than one it leaves.
   */
  lemma BatchExactly(tasks: map<string, Task>, candidates: set<string>, limit: nat, ids: set<string>)
    requires candidates <= tasks.Keys
    ensures Oldest(tasks, candidates, limit, ids) <==>
      if |candidates| <= limit then ids == candidates
      else
        ids <= candidates && |ids| == limit
        && forall a, b :: a in ids && b in candidates && b !in ids ==> tasks[a].createdAt <= tasks[b].createdAt
  {
    if ids <= candidates && |ids| == |candidates| {
      assert candidates == ids + (candidates - ids);
      assert |candidates - ids| == 0;
    }
  }

  /** A task is claimable exactly when it is of the group, not locked, and unclaimed or claimed too long ago. */
  lemma ClaimableExactly(tasks: map<string, Task>, group: string, now: int, leaseMs: int, locked: set<string>,
    id: string)
    ensures id in Candidates(tasks, group, now - leaseMs, locked) <==>
      && id in tasks && tasks[id].group == group && id !in locked
      && match tasks[id].claimedAt { case None => true case Some(at) => now - at > leaseMs }
  {
  }

  /** And the oldest claimable task is always among those claimed. */
  lemma OldestClaimed(tasks: map<string, Task>, candidates: set<string>, limit: nat, ids: set<string>, id: string)
    requires candidates <= tasks.Keys && Oldest(tasks, candidates, limit, ids) && limit >= 1 && id in candidates
    requires forall other :: other in candidates && other != id ==> tasks[id].createdAt < tasks[other].createdAt
    ensures id in ids
  {
    assert |candidates| >= 1 by { assert candidates == {id} + (candidates - {id}); }
    assert |ids| >= 1;
    var other :| other in ids;
    assert id !in ids ==> id in candidates - ids;
  }
}
