/**
 * The replay context a workflow function runs against, and the turn that drives it. Every op takes
 * its seqs from `next` and appends what it asks for to `commands`; the contracts say that each op
 * does exactly what the turn protocol prescribes, and nothing else.
 */
module WorkflowContext {
  import opened Basics
  import opened WorkflowModel

  /** A lookup of one seq: no entry yet, the op's own entry, or one that contradicts the op. */
  datatype Lookup = Absent | Found(entry: Entry) | Mismatch

  /** What an op hands the workflow function, or the exception that suspends the turn. */
  datatype OpResult = Came(outcome: Outcome) | Suspended

  /** A fan's items in input order, an exception it raised, or the suspension of the turn. */
  datatype FanResult = Items(entries: seq<Entry>) | Raises(outcome: Outcome) | Waits

  class Context {
    const runId: string
    const partition: string
    const history: History
    const signals: map<nat, Value>
    const bodies: nat -> Captured
    var next: nat
    var commands: seq<Command>

    constructor (t: Turn)
      ensures AsTurn() == t && next == 0 && commands == []
    {
      runId, partition, history := t.runId, t.partition, t.history;
      signals, bodies := t.signals, t.bodies;
      next, commands := 0, [];
    }

    function AsTurn(): Turn {
      Turn(runId, partition, history, signals, bodies)
    }

    /** The op did what the protocol says it does at the seq the context had reached. */
    twostate predicate Did(op: Op, r: OpResult)
      reads this
    {
      && next == old(next) + Width(op)
      && match Perform(AsTurn(), op, old(next))
         case Resume(outcome, recorded) => r == Came(outcome) && commands == old(commands) + recorded
         case Park(wanted) => r == Suspended && commands == old(commands) + wanted
    }

    method Next() returns (at: nat)
      modifies this`next
      ensures at == old(next) && next == old(next) + 1
    {
      at := next;
      next := next + 1;
    }

    /** The raw history entry at `at`, under the kind and name guard every op gets. */
    method ReplayEntry(at: nat, slot: Slot) returns (found: Lookup)
      ensures found == if at !in history then Absent
                       else if Matches(history[at], slot) then Found(history[at]) else Mismatch
    {
      if at !in history { return Absent; }
      var entry := history[at];
      if entry.kind != slot.kind || (slot.name != None && entry.name != None && entry.name != slot.name) {
        return Mismatch;
      }
      return Found(entry);
    }

    /** A blocking single op: its recorded outcome, or its command and a suspension. */
    method Blocking(op: Op) returns (r: OpResult)
      requires op.DoStep? || op.DoSleep? || op.DoWaitSignal? || op.DoStartChild?
      modifies this
      ensures Did(op, r)
    {
      SingleEffect(AsTurn(), op, next);
      var at := Next();
      var found := ReplayEntry(at, SlotOf(op, at, 0));
      match found {
        case Mismatch => return Came(Diverged(at));
        case Found(entry) =>
          if entry.error.Some? { return Came(Failed(entry.error.value)); }
          return Came(Returned(if op.DoSleep? then Null else entry.output));
        case Absent =>
      }
      if op.DoWaitSignal? && at in signals { return Came(Returned(signals[at])); }
      match op {
        case DoStep(call) =>
          commands := commands + [Call(at, call.name, GroupFor(AsTurn(), call), call.input, None)];
        case DoSleep(ms) => commands := commands + [Sleep(at, ms)];
        case DoWaitSignal(signal) => commands := commands + [WaitSignal(at, signal)];
        case DoStartChild(workflow, input) => commands := commands + [StartChild(at, workflow, input, None)];
      }
      r := Suspended;
    }

    /** `now` and `side_effect`: run the body once, record it, replay it ever after. */
    method LocalStep(op: Op) returns (r: OpResult)
      requires op.DoNow? || op.DoSideEffect?
      modifies this
      ensures Did(op, r)
    {
      SingleEffect(AsTurn(), op, next);
      var at := Next();
      var name := if op.DoNow? then NowName(at) else "sideEffect";
      var found := ReplayEntry(at, Slot(StepKind, Some(name)));
      match found {
        case Mismatch => return Came(Diverged(at));
        case Found(entry) =>
          if entry.error.Some? { return Came(Failed(entry.error.value)); }
          return Came(Returned(entry.output));
        case Absent =>
      }
      var captured := bodies(at);
      commands := commands + [RecordStep(at, name, captured, None)];
      assert Fresh(AsTurn(), op, at)[0] == RecordedEntry(name, captured);
      match captured {
        case Raised(error) => return Came(Failed(error));
        case Output(value) => return Came(Returned(value));
      }
    }

    /** Reserve one seq per item, in list order. */
    method Reserve(n: nat) returns (base: nat)
      modifies this`next
      ensures base == old(next) && next == base + n
    {
      base := next;
      for k := 0 to n
        invariant next == base + k
      {
        var _ := Next();
      }
    }

    /** Every outcome a local fan recorded, or `None` when some item has no entry yet. */
    method RecordedFan(op: Op, base: nat) returns (diverged: Option<nat>, replayed: Option<seq<Entry>>)
      requires op.DoGather?
      ensures diverged == FirstMismatch(history, op, base, 0)
      ensures diverged == None ==>
        replayed == if AllPresent(history, base, Width(op)) then Some(Block(history, base, Width(op))) else None
    {
      var entries: seq<Entry> := [];
      for i := 0 to |op.names|
        invariant |entries| == i
        invariant forall s :: base <= s < base + i ==> s in history && entries[s - base] == history[s]
        invariant FirstMismatch(history, op, base, 0) == FirstMismatch(history, op, base, i)
      {
        var found := ReplayEntry(base + i, Slot(StepKind, Some(op.names[i])));
        match found {
          case Mismatch => return Some(base + i), None;
          case Absent => return None, None;
          case Found(entry) => entries := entries + [entry];
        }
      }
      assert entries == Block(history, base, Width(op));
      return None, Some(entries);
    }

    /** Run every body of a local fan, then record each outcome in seq order. */
    method RunFan(op: Op, base: nat) returns (outcomes: seq<Entry>)
      requires op.DoGather?
      modifies this`commands
      ensures outcomes == Fresh(AsTurn(), op, base)
      ensures commands == old(commands) + CommandsFor(AsTurn(), op, base, Width(op), {})
    {
      var results: seq<Captured> := [];
      for i := 0 to |op.names|
        invariant |results| == i
        invariant forall k :: 0 <= k < i ==> results[k] == bodies(base + k)
      {
        results := results + [bodies(base + i)];
      }
      outcomes := [];
      for i := 0 to |op.names|
        invariant |outcomes| == i
        invariant forall k :: 0 <= k < i ==> outcomes[k] == RecordedEntry(op.names[k], bodies(base + k))
        invariant commands == old(commands) + CommandsFor(AsTurn(), op, base, i, {})
      {
        commands := commands + [RecordStep(base + i, op.names[i], results[i], Some(FanGroup(base)))];
        outcomes := outcomes + [RecordedEntry(op.names[i], results[i])];
      }
      assert outcomes == Fresh(AsTurn(), op, base);
    }

    /**
     * The fan `gather` and `gather_settled` share: replay every recorded outcome, or run every body
     * and record each as a step.
     */
    method LocalFan(op: Op) returns (base: nat, r: FanResult)
      requires op.DoGather?
      modifies this
      ensures base == old(next) && next == base + Width(op)
      ensures match FirstMismatch(history, op, base, 0)
        case Some(at) => r == Raises(Diverged(at)) && commands == old(commands)
        case None =>
          if AllPresent(history, base, Width(op)) then
            r == Items(Block(history, base, Width(op))) && commands == old(commands)
          else
            r == Items(Fresh(AsTurn(), op, base)) &&
            commands == old(commands) + CommandsFor(AsTurn(), op, base, Width(op), {})
    {
      base := Reserve(|op.names|);
      var diverged, replayed := RecordedFan(op, base);
      if diverged.Some? { r := Raises(Diverged(diverged.value)); return; }
      if replayed.Some? { r := Items(replayed.value); return; }
      var outcomes := RunFan(op, base);
      r := Items(outcomes);
    }

    /** Every item's history entry, if it has one; or the first entry that contradicts the fan. */
    method FanHistories(op: Op, base: nat) returns (diverged: Option<nat>, histories: seq<Lookup>)
      requires op.DoGatherChildren? || op.DoGatherCalls?
      ensures diverged == FirstMismatch(history, op, base, 0)
      ensures diverged == None ==> Looked(op, base, histories)
    {
      histories := [];
      for i := 0 to Width(op)
        invariant |histories| == i
        invariant FirstMismatch(history, op, base, 0) == FirstMismatch(history, op, base, i)
        invariant forall s :: base <= s < base + i ==>
          histories[s - base] == if s in history then Found(history[s]) else Absent
      {
        var found := ReplayEntry(base + i, SlotOf(op, base, i));
        if found.Mismatch? { return Some(base + i), []; }
        histories := histories + [found];
      }
      diverged := None;
    }

    predicate Looked(op: Op, base: nat, histories: seq<Lookup>) {
      && |histories| == Width(op)
      && forall s :: base <= s < base + Width(op) ==>
           histories[s - base] == if s in history then Found(history[s]) else Absent
    }

    /** The first failed item among those that have settled. */
    method FirstFailed(op: Op, base: nat, histories: seq<Lookup>) returns (failed: Option<ItemError>)
      requires Looked(op, base, histories)
      ensures failed == FirstFailure(history, op, base, 0)
    {
      for i := 0 to Width(op)
        invariant FirstFailure(history, op, base, 0) == FirstFailure(history, op, base, i)
      {
        var at := base + i;
        assert histories[at - base] == if at in history then Found(history[at]) else Absent;
        if histories[i].Found? && histories[i].entry.error.Some? {
          var entry := histories[i].entry;
          return Some(ItemError(LabelOf(op, entry), entry.error.value));
        }
      }
      failed := None;
    }

    /** Ask for every item without an entry; with nothing to ask for, the fan is complete. */
    method AskForMissing(op: Op, base: nat, histories: seq<Lookup>) returns (complete: Option<seq<Entry>>)
      requires op.DoGatherChildren? || op.DoGatherCalls?
      requires Looked(op, base, histories)
      modifies this`commands
      ensures AllPresent(history, base, Width(op)) ==>
        complete == Some(Block(history, base, Width(op))) && commands == old(commands)
      ensures !AllPresent(history, base, Width(op)) ==>
        complete == None &&
        commands == old(commands) + CommandsFor(AsTurn(), op, base, Width(op), history.Keys)
    {
      var pending := false;
      var entries: seq<Entry> := [];
      for i := 0 to Width(op)
        invariant commands == old(commands) + CommandsFor(AsTurn(), op, base, i, history.Keys)
        invariant pending ==> !AllPresent(history, base, i)
        invariant !pending ==> |entries| == i && commands == old(commands)
        invariant !pending ==> forall s :: base <= s < base + i ==> s in history && entries[s - base] == history[s]
      {
        var at := base + i;
        assert histories[at - base] == if at in history then Found(history[at]) else Absent;
        if histories[i].Absent? {
          commands := commands + [CommandFor(AsTurn(), op, base, i)];
          pending := true;
        } else {
          entries := entries + [histories[i].entry];
        }
      }
      if pending { return None; }
      assert AllPresent(history, base, Width(op));
      assert entries == Block(history, base, Width(op));
      return Some(entries);
    }

    /** The fan of children or of dispatched calls: wait until every item has a history entry. */
    method RemoteFan(op: Op) returns (base: nat, r: FanResult)
      requires op.DoGatherChildren? || op.DoGatherCalls?
      modifies this
      ensures base == old(next) && next == base + Width(op)
      ensures match FirstMismatch(history, op, base, 0)
        case Some(at) => r == Raises(Diverged(at)) && commands == old(commands)
        case None =>
          if op.ending == FailFast && FirstFailure(history, op, base, 0).Some? then
            r == Raises(Failed(GatherFailed([FirstFailure(history, op, base, 0).value]))) &&
            commands == old(commands)
          else if AllPresent(history, base, Width(op)) then
            r == Items(Block(history, base, Width(op))) && commands == old(commands)
          else
            r == Waits &&
            commands == old(commands) + CommandsFor(AsTurn(), op, base, Width(op), history.Keys)
    {
      hide Looked, CommandFor;
      base := Reserve(Width(op));
      var diverged, histories := FanHistories(op, base);
      if diverged.Some? { r := Raises(Diverged(diverged.value)); return; }
      if op.ending == FailFast {
        var failed := FirstFailed(op, base, histories);
        if failed.Some? { r := Raises(Failed(GatherFailed([failed.value]))); return; }
      }
      var complete := AskForMissing(op, base, histories);
      r := if complete.Some? then Items(complete.value) else Waits;
    }

    /** Collect outputs, raising one aggregate failure if any item failed. */
    method Aggregate(op: Op, entries: seq<Entry>) returns (outcome: Outcome)
      ensures outcome ==
        if FailuresOf(op, entries) != [] then Failed(GatherFailed(FailuresOf(op, entries)))
        else Returned(List(seq(|entries|, i requires 0 <= i < |entries| => entries[i].output)))
    {
      var outputs: seq<Value> := [];
      var failures: seq<ItemError> := [];
      for i := 0 to |entries|
        invariant failures == FailuresOf(op, entries[..i])
        invariant |outputs| == i
        invariant failures == [] ==> forall k :: 0 <= k < i ==> outputs[k] == entries[k].output
      {
        assert entries[..i + 1][..i] == entries[..i];
        var entry := entries[i];
        if entry.error.Some? {
          failures := failures + [ItemError(LabelOf(op, entry), entry.error.value)];
          outputs := outputs + [Null];
        } else {
          outputs := outputs + [entry.output];
        }
      }
      assert entries[..|entries|] == entries;
      if failures != [] { return Failed(GatherFailed(failures)); }
      assert outputs == seq(|entries|, i requires 0 <= i < |entries| => entries[i].output);
      return Returned(List(outputs));
    }

    /** One fulfilled or rejected value per item, in order. */
    method SettleItems(op: Op, base: nat, entries: seq<Entry>) returns (outcome: Outcome)
      ensures outcome ==
        Returned(List(seq(|entries|, i requires 0 <= i < |entries| => SettledItem(op, runId, base + i, entries[i]))))
    {
      var out: seq<Value> := [];
      for i := 0 to |entries|
        invariant |out| == i
        invariant forall k :: 0 <= k < i ==> out[k] == SettledItem(op, runId, base + k, entries[k])
      {
        var entry := entries[i];
        match entry.error {
          case None => out := out + [Fulfilled(entry.output)];
          case Some(e) =>
            out := out + [Rejected(SettledId(op, runId, base + i), e.message, e.code, e.details)];
        }
      }
      assert out == seq(|entries|, i requires 0 <= i < |entries| => SettledItem(op, runId, base + i, entries[i]));
      return Returned(List(out));
    }

    /** The six fan ops: one fan, then the ending the op asks for. */
    method Fan(op: Op) returns (r: OpResult)
      requires op.DoGather? || op.DoGatherChildren? || op.DoGatherCalls?
      modifies this
      ensures Did(op, r)
    {
      var base: nat, fan: FanResult;
      if op.DoGather? { base, fan := LocalFan(op); } else { base, fan := RemoteFan(op); }
      match fan {
        case Raises(outcome) => return Came(outcome);
        case Waits => return Suspended;
        case Items(entries) =>
          var outcome: Outcome;
          if op.ending == Settled { outcome := SettleItems(op, base, entries); }
          else { outcome := Aggregate(op, entries); }
          return Came(outcome);
      }
    }

    method PerformOp(op: Op) returns (r: OpResult)
      modifies this
      ensures Did(op, r)
    {
      if op.DoNow? || op.DoSideEffect? { r := LocalStep(op); }
      else if op.DoGather? || op.DoGatherChildren? || op.DoGatherCalls? { r := Fan(op); }
      else { r := Blocking(op); }
    }

    /** Run the function from the top of `p` until it ends or an op suspends it. */
    method Invoke(p: Program) returns (status: Status)
      modifies this
      ensures status == Replay(AsTurn(), p, old(next)).status
      ensures commands == old(commands) + Replay(AsTurn(), p, old(next)).commands
    {
      hide Perform;
      var at := p;
      ghost var whole := Replay(AsTurn(), p, next);
      ghost var left := whole;
      while at.Do?
        invariant left == Replay(AsTurn(), at, next)
        invariant whole.status == left.status
        invariant old(commands) + whole.commands == commands + left.commands
        decreases at.Do?, at
      {
        ghost var before := next;
        var r := PerformOp(at.op);
        if r.Suspended? { return Continue; }
        ReplayAfter(AsTurn(), at.op, at.rest, before);
        left := Replay(AsTurn(), After(at.rest, r.outcome), next);
        at := After(at.rest, r.outcome);
      }
      if at.Done? { return Completed(at.output); }
      return Failing(at.error);
    }
  }

  /** A turn as it arrives on the wire: seq-keyed lists, possibly with repeats. */
  datatype Task = Task(
    runId: string, workflow: string, input: Value,
    history: seq<(nat, Entry)>, pendingSignals: seq<(nat, Value)>)

  function KeyedBySeq<T>(events: seq<(nat, T)>): map<nat, T> {
    if events == [] then map[]
    else KeyedBySeq(events[..|events| - 1])[events[|events| - 1].0 := events[|events| - 1].1]
  }

  function TurnOf(task: Task, partition: string, bodies: nat -> Captured): Turn {
    Turn(task.runId, partition, KeyedBySeq(task.history), KeyedBySeq(task.pendingSignals), bodies)
  }

  function NoWorkflow(name: string): Error {
    Error("no workflow registered for '" + name + "'", Some("no_workflow"), None, [])
  }

  /** Replay one turn of the task's workflow and return the wire decision. */
  method ProcessWorkflowTask(
      workflows: map<string, Value -> Program>, task: Task, partition: string, bodies: nat -> Captured)
    returns (status: Status, commands: seq<Command>)
    ensures task.workflow !in workflows ==>
      status == Failing(NoWorkflow(task.workflow)) && commands == []
    ensures task.workflow in workflows ==>
      var d := Replay(TurnOf(task, partition, bodies), workflows[task.workflow](task.input), 0);
      status == d.status && commands == d.commands
  {
    if task.workflow !in workflows {
      return Failing(NoWorkflow(task.workflow)), [];
    }
    var context := new Context(TurnOf(task, partition, bodies));
    status := context.Invoke(workflows[task.workflow](task.input));
    commands := context.commands;
  }
}
