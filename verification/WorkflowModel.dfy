/**
 * The turn protocol of a coordinator-driven workflow: what one durable op means against a history,
 * and what one replay of a whole workflow function decides.
 *
 * A workflow function is a program tree. At an op it either names the rest of the function for the
 * outcome it receives, or leaves that outcome unlisted: then the op was in tail position, and the
 * function returns the value (or lets the exception out).
 */
module WorkflowModel {
  import opened Basics

  datatype Value =
    | Null
    | Num(n: int)
    | Text(s: string)
    | List(items: seq<Value>)
    | Fulfilled(value: Value)
    | Rejected(id: string, message: string, code: Option<string>, details: Option<Value>)

  datatype Error = Error(
    message: string, code: Option<string>, details: Option<Value>, items: seq<ItemError>)

  datatype ItemError = ItemError(name: Option<string>, error: Error)

  datatype Kind = StepKind | CallKind | TimerKind | SignalKind | ChildKind

  /** One resolved durable op of a run. */
  datatype Entry = Entry(kind: Kind, name: Option<string>, output: Value, error: Option<Error>)

  type History = map<nat, Entry>

  /** What running a local body once gave. */
  datatype Captured = Output(value: Value) | Raised(error: Error)

  datatype Command =
    | Call(at: nat, name: string, group: string, input: Value, parallel: Option<string>)
    | Sleep(at: nat, ms: int)
    | WaitSignal(at: nat, signal: string)
    | StartChild(at: nat, workflow: string, input: Value, parallel: Option<string>)
    | RecordStep(at: nat, name: string, result: Captured, parallel: Option<string>)

  datatype CallSpec = CallSpec(name: string, input: Value, group: Option<string>)

  /** How a fan ends: all items awaited, first failure raised, or failures returned as values. */
  datatype Ending = WaitAll | FailFast | Settled

  datatype Op =
    | DoStep(call: CallSpec)
    | DoNow
    | DoSideEffect
    | DoSleep(ms: int)
    | DoWaitSignal(signal: string)
    | DoStartChild(workflow: string, input: Value)
    | DoGather(names: seq<string>, ending: Ending)
    | DoGatherChildren(workflow: string, inputs: seq<Value>, ending: Ending)
    | DoGatherCalls(calls: seq<CallSpec>, ending: Ending)

  /** What an op hands back to the workflow function. `Diverged` is the nondeterminism error. */
  datatype Outcome = Returned(value: Value) | Failed(error: Error) | Diverged(at: nat)

  datatype Program = Done(output: Value) | Fail(error: Error) | Do(op: Op, rest: imap<Outcome, Program>)

  /** Everything one turn reads: the task, and what each local body would give if it ran now. */
  datatype Turn = Turn(
    runId: string, partition: string, history: History, signals: map<nat, Value>,
    bodies: nat -> Captured)

  /** What an op does: hand back an outcome (after recording local results), or suspend the turn. */
  datatype Effect = Resume(outcome: Outcome, recorded: seq<Command>) | Park(wanted: seq<Command>)

  datatype Status = Completed(output: Value) | Failing(error: Error) | Continue

  /** A turn's answer. `trace` is what the function saw, op by op. */
  datatype Decision = Decision(status: Status, commands: seq<Command>, trace: seq<(Op, Outcome)>)

  // ---------------------------------------------------------------- the slots of an op

  /** The history entry an op expects at one of its seqs. */
  datatype Slot = Slot(kind: Kind, name: Option<string>)

  function Width(op: Op): nat {
    match op
    case DoGather(names, _) => |names|
    case DoGatherChildren(_, inputs, _) => |inputs|
    case DoGatherCalls(calls, _) => |calls|
    case _ => 1
  }

  function SlotOf(op: Op, base: nat, i: nat): Slot
    requires i < Width(op)
  {
    match op
    case DoStep(call) => Slot(CallKind, Some(call.name))
    case DoNow => Slot(StepKind, Some(NowName(base)))
    case DoSideEffect => Slot(StepKind, Some("sideEffect"))
    case DoSleep(_) => Slot(TimerKind, None)
    case DoWaitSignal(signal) => Slot(SignalKind, Some(signal))
    case DoStartChild(workflow, _) => Slot(ChildKind, Some(workflow))
    case DoGather(names, _) => Slot(StepKind, Some(names[i]))
    case DoGatherChildren(workflow, _, _) => Slot(ChildKind, Some(workflow))
    case DoGatherCalls(calls, _) => Slot(CallKind, Some(calls[i].name))
  }

  function NowName(at: nat): string { "now#" + Decimal(at) }

  function FanGroup(base: nat): string { "gather:" + Decimal(base) }

  predicate Matches(entry: Entry, slot: Slot) {
    && entry.kind == slot.kind
    && (slot.name == None || entry.name == None || entry.name == slot.name)
  }

  predicate IsLocal(op: Op) { op.DoNow? || op.DoSideEffect? || op.DoGather? }

  predicate RemoteFailFast(op: Op) {
    (op.DoGatherChildren? || op.DoGatherCalls?) && op.ending == FailFast
  }

  /** The seq of the first entry of the op's block that contradicts the op. */
  function FirstMismatch(h: History, op: Op, base: nat, i: nat): Option<nat>
    requires i <= Width(op)
    decreases Width(op) - i
  {
    if i == Width(op) then None
    else if base + i !in h then
      // A local fan looks no further than its first missing entry.
      if IsLocal(op) then None else FirstMismatch(h, op, base, i + 1)
    else if !Matches(h[base + i], SlotOf(op, base, i)) then Some(base + i)
    else FirstMismatch(h, op, base, i + 1)
  }

  predicate AllPresent(h: History, base: nat, width: nat) {
    forall i :: base <= i < base + width ==> i in h
  }

  function Block(h: History, base: nat, width: nat): (es: seq<Entry>)
    requires AllPresent(h, base, width)
    ensures |es| == width && forall i :: 0 <= i < width ==> es[i] == h[base + i]
  {
    seq(width, i requires 0 <= i < width => h[base + i])
  }

  // ---------------------------------------------------------------- outcomes

  /** The name a failed fan item is reported under. */
  function LabelOf(op: Op, entry: Entry): Option<string> {
    if op.DoGatherChildren? then Some(op.workflow) else entry.name
  }

  function FailuresOf(op: Op, es: seq<Entry>): seq<ItemError> {
    if es == [] then []
    else FailuresOf(op, es[..|es| - 1]) +
         if es[|es| - 1].error.Some? then
           [ItemError(LabelOf(op, es[|es| - 1]), es[|es| - 1].error.value)]
         else []
  }

  function NamesOf(failures: seq<ItemError>): string {
    if failures == [] then ""
    else
      var lbl := failures[|failures| - 1].name;
      var text := if lbl.Some? then lbl.value else "None";
      if |failures| == 1 then text else NamesOf(failures[..|failures| - 1]) + ", " + text
  }

  function GatherFailed(failures: seq<ItemError>): Error {
    Error("gather: " + Decimal(|failures|) + " item(s) failed: " + NamesOf(failures), None, None, failures)
  }

  function SettledId(op: Op, runId: string, at: nat): string {
    if op.DoGatherChildren? then runId + ".child." + Decimal(at) else runId + ":" + Decimal(at)
  }

  function SettledItem(op: Op, runId: string, at: nat, entry: Entry): Value {
    match entry.error
    case None => Fulfilled(entry.output)
    case Some(e) => Rejected(SettledId(op, runId, at), e.message, e.code, e.details)
  }

  /** What an op hands back once every entry of its block is known. */
  function OutcomeOf(op: Op, runId: string, base: nat, es: seq<Entry>): Outcome
    requires |es| == Width(op)
  {
    if op.DoGather? || op.DoGatherChildren? || op.DoGatherCalls? then
      if op.ending == Settled then
        Returned(List(seq(|es|, i requires 0 <= i < |es| => SettledItem(op, runId, base + i, es[i]))))
      else if FailuresOf(op, es) != [] then Failed(GatherFailed(FailuresOf(op, es)))
      else Returned(List(seq(|es|, i requires 0 <= i < |es| => es[i].output)))
    else if es[0].error.Some? then Failed(es[0].error.value)
    else if op.DoSleep? then Returned(Null)
    else Returned(es[0].output)
  }

  // ---------------------------------------------------------------- one op against a history

  function RecordedEntry(name: string, captured: Captured): Entry {
    match captured
    case Output(value) => Entry(StepKind, Some(name), value, None)
    case Raised(error) => Entry(StepKind, Some(name), Null, Some(error))
  }

  /** The entries a local op's bodies give when they run in this turn. */
  function Fresh(t: Turn, op: Op, base: nat): (es: seq<Entry>)
    requires IsLocal(op)
    ensures |es| == Width(op)
  {
    seq(Width(op), i requires 0 <= i < Width(op) =>
      RecordedEntry(SlotOf(op, base, i).name.value, t.bodies(base + i)))
  }

  /** The command that asks for (or records) item `i` of the op. */
  function CommandFor(t: Turn, op: Op, base: nat, i: nat): (c: Command)
    requires i < Width(op)
    ensures c.at == base + i
    ensures c.RecordStep? <==> IsLocal(op)
  {
    match op
    case DoStep(call) => Call(base, call.name, GroupFor(t, call), call.input, None)
    case DoNow => RecordStep(base, NowName(base), t.bodies(base), None)
    case DoSideEffect => RecordStep(base, "sideEffect", t.bodies(base), None)
    case DoSleep(ms) => Sleep(base, ms)
    case DoWaitSignal(signal) => WaitSignal(base, signal)
    case DoStartChild(workflow, input) => StartChild(base, workflow, input, None)
    case DoGather(names, _) => RecordStep(base + i, names[i], t.bodies(base + i), Some(FanGroup(base)))
    case DoGatherChildren(workflow, inputs, _) =>
      StartChild(base + i, workflow, inputs[i], Some(FanGroup(base)))
    case DoGatherCalls(calls, _) =>
      Call(base + i, calls[i].name, GroupFor(t, calls[i]), calls[i].input, Some(FanGroup(base)))
  }

  /** An explicit partition on the call wins; otherwise the step inherits the workflow's own. */
  function GroupFor(t: Turn, call: CallSpec): string {
    if call.group.Some? then call.group.value else t.partition
  }

  /** The commands for the first `n` items of the op that `skip` does not hold already. */
  function CommandsFor(t: Turn, op: Op, base: nat, n: nat, skip: set<nat>): seq<Command>
    requires n <= Width(op)
  {
    if n == 0 then []
    else
      var front := CommandsFor(t, op, base, n - 1, skip);
      if base + n - 1 in skip then front else front + [CommandFor(t, op, base, n - 1)]
  }

  /** The first failed item among the entries already there: what a fail-fast fan raises. */
  function FirstFailure(h: History, op: Op, base: nat, i: nat): Option<ItemError>
    requires i <= Width(op)
    decreases Width(op) - i
  {
    if i == Width(op) then None
    else if base + i in h && h[base + i].error.Some? then
      Some(ItemError(LabelOf(op, h[base + i]), h[base + i].error.value))
    else FirstFailure(h, op, base, i + 1)
  }

  /** One op at seq `base` of a turn. */
  function Perform(t: Turn, op: Op, base: nat): Effect {
    match FirstMismatch(t.history, op, base, 0)
    case Some(at) => Resume(Diverged(at), [])
    case None =>
      if RemoteFailFast(op) && FirstFailure(t.history, op, base, 0).Some? then
        Resume(Failed(GatherFailed([FirstFailure(t.history, op, base, 0).value])), [])
      else if AllPresent(t.history, base, Width(op)) then
        Resume(OutcomeOf(op, t.runId, base, Block(t.history, base, Width(op))), [])
      else if IsLocal(op) then
        Resume(OutcomeOf(op, t.runId, base, Fresh(t, op, base)),
               CommandsFor(t, op, base, Width(op), {}))
      else if op.DoWaitSignal? && base in t.signals then
        Resume(Returned(t.signals[base]), [])
      else
        Park(CommandsFor(t, op, base, Width(op), t.history.Keys))
  }

  /** A single op in plain terms: its one entry, or its one command. */
  lemma SingleEffect(t: Turn, op: Op, base: nat)
    requires !op.DoGather? && !op.DoGatherChildren? && !op.DoGatherCalls?
    ensures base in t.history && !Matches(t.history[base], SlotOf(op, base, 0)) ==>
      Perform(t, op, base) == Resume(Diverged(base), [])
    ensures base in t.history && Matches(t.history[base], SlotOf(op, base, 0)) ==>
      Perform(t, op, base) == Resume(OutcomeOf(op, t.runId, base, [t.history[base]]), [])
    ensures base !in t.history && IsLocal(op) ==>
      Perform(t, op, base) ==
        Resume(OutcomeOf(op, t.runId, base, Fresh(t, op, base)), [CommandFor(t, op, base, 0)])
    ensures base !in t.history && !IsLocal(op) ==>
      Perform(t, op, base) ==
        if op.DoWaitSignal? && base in t.signals then Resume(Returned(t.signals[base]), [])
        else Park([CommandFor(t, op, base, 0)])
  {
    assert FirstMismatch(t.history, op, base, 1) == None;
    if base in t.history {
      assert AllPresent(t.history, base, 1);
      assert Block(t.history, base, 1) == [t.history[base]];
    } else {
      assert CommandsFor(t, op, base, 0, {}) == [] == CommandsFor(t, op, base, 0, t.history.Keys);
      assert CommandsFor(t, op, base, 1, {}) == [CommandFor(t, op, base, 0)];
      assert CommandsFor(t, op, base, 1, t.history.Keys) == [CommandFor(t, op, base, 0)];
    }
  }

  /** Where the function goes with an outcome. */
  function After(rest: imap<Outcome, Program>, outcome: Outcome): (next: Program)
  {
    if outcome in rest then rest[outcome]
    else match outcome
      case Returned(value) => Done(value)
      case Failed(error) => Fail(error)
      case Diverged(at) => Fail(NondeterminismError(at))
  }

  function NondeterminismError(at: nat): Error {
    Error("history does not match the replay at seq " + Decimal(at), Some("non_determinism"), None, [])
  }

  /** One turn: the function run from the top until it ends or an op suspends it. */
  function Replay(t: Turn, p: Program, base: nat): Decision
    decreases p.Do?, p
  {
    match p
    case Done(output) => Decision(Completed(output), [], [])
    case Fail(error) => Decision(Failing(error), [], [])
    case Do(op, rest) =>
      match Perform(t, op, base)
      case Park(wanted) => Decision(Continue, wanted, [])
      case Resume(outcome, recorded) =>
        var d := Replay(t, After(rest, outcome), base + Width(op));
        Decision(d.status, recorded + d.commands, [(op, outcome)] + d.trace)
  }

  /** A replay is its first op followed by the replay of whatever comes after. */
  lemma ReplayAfter(t: Turn, op: Op, rest: imap<Outcome, Program>, base: nat)
    ensures Perform(t, op, base).Park? ==>
      Replay(t, Do(op, rest), base) == Decision(Continue, Perform(t, op, base).wanted, [])
    ensures Perform(t, op, base).Resume? ==>
      var Resume(outcome, recorded) := Perform(t, op, base);
      var d := Replay(t, After(rest, outcome), base + Width(op));
      Replay(t, Do(op, rest), base)
      == Decision(d.status, recorded + d.commands, [(op, outcome)] + d.trace)
  {
    hide Perform, After;
  }
}
