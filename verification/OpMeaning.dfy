/**
 * What each durable op does, said outright: which entry it accepts, what a recorded result or failure
 * turns into, what a body that runs leaves behind, and what is asked for. Nothing here goes through the
 * functions the replay is defined with.
 */
module OpMeaning {
  import opened Basics
  import opened WorkflowModel

  predicate IsFan(op: Op) { op.DoGather? || op.DoGatherChildren? || op.DoGatherCalls? }

  // ---------------------------------------------------------------- which entry an op accepts

  /** The entry is of this kind, and under this name if it has one. */
  predicate Is(e: Entry, kind: Kind, name: string) { e.kind == kind && (e.name == None || e.name == Some(name)) }

  /** The entry is one the single op at seq `base` asked for; a timer is accepted under any name. */
  predicate Expects(op: Op, base: nat, e: Entry) {
    match op
    case DoStep(call) => Is(e, CallKind, call.name)
    case DoNow => Is(e, StepKind, "now#" + Decimal(base))
    case DoSideEffect => Is(e, StepKind, "sideEffect")
    case DoSleep(_) => e.kind == TimerKind
    case DoWaitSignal(signal) => Is(e, SignalKind, signal)
    case DoStartChild(workflow, _) => Is(e, ChildKind, workflow)
    case _ => false
  }

  /** Likewise for item `i` of a fan. */
  predicate ExpectsItem(op: Op, i: nat, e: Entry) {
    match op
    case DoGather(names, _) => i < |names| && Is(e, StepKind, names[i])
    case DoGatherChildren(workflow, inputs, _) => i < |inputs| && Is(e, ChildKind, workflow)
    case DoGatherCalls(calls, _) => i < |calls| && Is(e, CallKind, calls[i].name)
    case _ => false
  }

  /** What the history holds for item `i`, if anything. */
  function ItemAt(h: History, base: nat, i: nat): Option<Entry> { if base + i in h then Some(h[base + i]) else None }

  /** It holds nothing for the item, or what the fan asked for. */
  predicate Fitting(h: History, op: Op, base: nat, i: nat) {
    ItemAt(h, base, i).Some? ==> ExpectsItem(op, i, ItemAt(h, base, i).value)
  }

  predicate ItemFailed(h: History, base: nat, i: nat) {
    ItemAt(h, base, i).Some? && ItemAt(h, base, i).value.error.Some?
  }

  function BodyOf(t: Turn, base: nat, i: nat): Captured { t.bodies(base + i) }

  /** A history entry of another kind or name is the nondeterminism error, whatever it holds. */
  lemma UnexpectedDiverges(t: Turn, op: Op, base: nat)
    requires !IsFan(op) && base in t.history && !Expects(op, base, t.history[base])
    ensures Perform(t, op, base) == Resume(Diverged(base), [])
  {
    SingleEffect(t, op, base);
  }

  /** So it is for the first such entry among a fan's items; a local fan looks no further than a gap. */
  lemma UnexpectedItemDiverges(t: Turn, op: Op, base: nat, i: nat)
    requires IsFan(op) && i < Width(op) && !Fitting(t.history, op, base, i)
    requires forall j :: 0 <= j < i ==> Fitting(t.history, op, base, j)
    requires op.DoGather? ==> forall j :: 0 <= j < i ==> ItemAt(t.history, base, j).Some?
    ensures Perform(t, op, base) == Resume(Diverged(base + i), [])
  {
    MismatchAt(t.history, op, base, i, 0);
  }

  lemma {:induction false} MismatchAt(h: History, op: Op, base: nat, i: nat, from: nat)
    requires IsFan(op) && from <= i < Width(op) && !Fitting(h, op, base, i)
    requires forall j :: from <= j < i ==> Fitting(h, op, base, j)
    requires op.DoGather? ==> forall j :: from <= j < i ==> ItemAt(h, base, j).Some?
    ensures FirstMismatch(h, op, base, from) == Some(base + i)
    decreases i - from
  {
    if from < i {
      assert Fitting(h, op, base, from);
      assert op.DoGather? ==> ItemAt(h, base, from).Some?;
      MismatchAt(h, op, base, i, from + 1);
    }
  }

  // ---------------------------------------------------------------- one entry

  /** A recorded failure is raised, and nothing is recorded or asked for. */
  lemma FailureRaised(t: Turn, op: Op, base: nat, error: Error)
    requires !IsFan(op) && base in t.history && Expects(op, base, t.history[base])
    requires t.history[base].error == Some(error)
    ensures Perform(t, op, base) == Resume(Failed(error), [])
  {
    SingleEffect(t, op, base);
  }

  /** A recorded result is returned; a sleep returns nothing. */
  lemma ResultReturned(t: Turn, op: Op, base: nat)
    requires !IsFan(op) && base in t.history && Expects(op, base, t.history[base]) && t.history[base].error == None
    ensures Perform(t, op, base) == Resume(Returned(if op.DoSleep? then Null else t.history[base].output), [])
  {
    SingleEffect(t, op, base);
  }

  function LocalName(op: Op, base: nat): string { if op.DoNow? then "now#" + Decimal(base) else "sideEffect" }

  /**
   * Without an entry a local op runs its body here and now: its error is raised, its value returned,
   * either recorded.
   */
  lemma BodyRuns(t: Turn, op: Op, base: nat)
    requires (op.DoNow? || op.DoSideEffect?) && base !in t.history
    ensures Perform(t, op, base) ==
      Resume(match t.bodies(base)
               case Raised(error) => Failed(error)
               case Output(value) => Returned(value),
             [RecordStep(base, LocalName(op, base), t.bodies(base), None)])
  {
    SingleEffect(t, op, base);
  }

  /** The one command of an op that can only wait. */
  function Wanted(t: Turn, op: Op, base: nat): Command
    requires !IsFan(op) && !op.DoNow? && !op.DoSideEffect?
  {
    match op
    case DoStep(call) =>
      Call(base, call.name, if call.group.Some? then call.group.value else t.partition, call.input, None)
    case DoSleep(ms) => Sleep(base, ms)
    case DoWaitSignal(signal) => WaitSignal(base, signal)
    case DoStartChild(workflow, input) => StartChild(base, workflow, input, None)
  }

  /** Without an entry any other op parks on its command; only a signal that is pending comes through at once. */
  lemma OthersPark(t: Turn, op: Op, base: nat)
    requires !IsFan(op) && !op.DoNow? && !op.DoSideEffect? && base !in t.history
    ensures op.DoWaitSignal? && base in t.signals ==> Perform(t, op, base) == Resume(Returned(t.signals[base]), [])
    ensures !(op.DoWaitSignal? && base in t.signals) ==> Perform(t, op, base) == Park([Wanted(t, op, base)])
  {
    SingleEffect(t, op, base);
  }

  // ---------------------------------------------------------------- the function around the op

  /** An op in tail position ends the turn with what it came to; otherwise the function goes on with it. */
  lemma TailEnds(t: Turn, op: Op, base: nat)
    requires !IsFan(op) && base in t.history && Expects(op, base, t.history[base])
    ensures var d := Replay(t, Do(op, imap[]), base);
      d.commands == [] &&
      d.status == match t.history[base].error
        case Some(error) => Failing(error)
        case None => Completed(if op.DoSleep? then Null else t.history[base].output)
  {
    var e := t.history[base];
    ReplayAfter(t, op, imap[], base);
    if e.error.Some? { FailureRaised(t, op, base, e.error.value); } else { ResultReturned(t, op, base); }
  }

  lemma GoesOnWith(t: Turn, op: Op, rest: imap<Outcome, Program>, base: nat)
    requires !IsFan(op) && base in t.history && Expects(op, base, t.history[base])
    ensures var e := t.history[base];
      var seen := if e.error.Some? then Failed(e.error.value) else Returned(if op.DoSleep? then Null else e.output);
      seen in rest ==>
        Replay(t, Do(op, rest), base).status == Replay(t, rest[seen], base + 1).status
        && Replay(t, Do(op, rest), base).commands == Replay(t, rest[seen], base + 1).commands
  {
    var e := t.history[base];
    ReplayAfter(t, op, rest, base);
    if e.error.Some? { FailureRaised(t, op, base, e.error.value); } else { ResultReturned(t, op, base); }
  }

  /** A nondeterminism error nobody catches fails the turn and says so. */
  lemma DivergenceFails(t: Turn, op: Op, base: nat)
    requires !IsFan(op) && base in t.history && !Expects(op, base, t.history[base])
    ensures var d := Replay(t, Do(op, imap[]), base);
      d.commands == [] && d.status.Failing? && d.status.error.code == Some("non_determinism")
  {
    UnexpectedDiverges(t, op, base);
    ReplayAfter(t, op, imap[], base);
  }

  // ---------------------------------------------------------------- a fan with every item there

  /** All items of the fan are in the history, and are what it asked for. */
  predicate Complete(t: Turn, op: Op, base: nat) {
    IsFan(op) && forall i :: 0 <= i < Width(op) ==>
      ItemAt(t.history, base, i).Some? && ExpectsItem(op, i, ItemAt(t.history, base, i).value)
  }

  lemma {:induction false} NothingUnexpected(h: History, op: Op, base: nat, from: nat)
    requires IsFan(op) && from <= Width(op)
    requires forall i :: from <= i < Width(op) ==> Fitting(h, op, base, i)
    ensures FirstMismatch(h, op, base, from) == None
    decreases Width(op) - from
  {
    assert from < Width(op) ==> Fitting(h, op, base, from);
    if from < Width(op) { NothingUnexpected(h, op, base, from + 1); }
  }

  lemma CompletePresent(t: Turn, op: Op, base: nat)
    requires Complete(t, op, base)
    ensures FirstMismatch(t.history, op, base, 0) == None && AllPresent(t.history, base, Width(op))
  {
    assert forall i :: 0 <= i < Width(op) ==> Fitting(t.history, op, base, i);
    NothingUnexpected(t.history, op, base, 0);
    forall s | base <= s < base + Width(op) ensures s in t.history { assert ItemAt(t.history, base, s - base).Some?; }
  }

  /**
   * A settled fan returns one value per item, in order: fulfilled with the item's output, or, exactly when
   * its entry has an error, rejected with that error under the item's id.
   */
  lemma SettledByItem(t: Turn, op: Op, base: nat)
    requires Complete(t, op, base) && op.ending == Settled
    ensures Perform(t, op, base).Resume? && Perform(t, op, base).recorded == []
    ensures Perform(t, op, base).outcome.Returned? && Perform(t, op, base).outcome.value.List?
    ensures var items := Perform(t, op, base).outcome.value.items;
      && |items| == Width(op)
      && forall i :: 0 <= i < Width(op) ==>
           items[i] == match ItemAt(t.history, base, i).value.error
             case None => Fulfilled(ItemAt(t.history, base, i).value.output)
             case Some(error) =>
               Rejected(t.runId + (if op.DoGatherChildren? then ".child." else ":") + Decimal(base + i),
                        error.message, error.code, error.details)
  {
    hide Decimal;
    CompletePresent(t, op, base);
  }

  /** A fan without failures returns its items' outputs in order. */
  lemma OutputsReturned(t: Turn, op: Op, base: nat)
    requires Complete(t, op, base) && op.ending != Settled
    requires forall i :: 0 <= i < Width(op) ==> !ItemFailed(t.history, base, i)
    ensures Perform(t, op, base).Resume? && Perform(t, op, base).recorded == []
    ensures Perform(t, op, base).outcome.Returned? && Perform(t, op, base).outcome.value.List?
    ensures var items := Perform(t, op, base).outcome.value.items;
      |items| == Width(op) && forall i :: 0 <= i < Width(op) ==> items[i] == ItemAt(t.history, base, i).value.output
  {
    CompletePresent(t, op, base);
    var es := Block(t.history, base, Width(op));
    forall i | 0 <= i < |es| ensures es[i].error == None { assert !ItemFailed(t.history, base, i); }
    NoneFailed(op, es);
    NoFirst(t.history, op, base, 0);
  }

  lemma {:induction false} NoneFailed(op: Op, es: seq<Entry>)
    requires forall i :: 0 <= i < |es| ==> es[i].error == None
    ensures FailuresOf(op, es) == []
  {
    if es != [] { NoneFailed(op, es[..|es| - 1]); }
  }

  lemma {:induction false} NoFirst(h: History, op: Op, base: nat, from: nat)
    requires from <= Width(op)
    requires forall i :: from <= i < Width(op) ==> !ItemFailed(h, base, i)
    ensures FirstFailure(h, op, base, from) == None
    decreases Width(op) - from
  {
    assert from < Width(op) ==> !ItemFailed(h, base, from);
    if from < Width(op) { NoFirst(h, op, base, from + 1); }
  }

  /** The name a fan reports a failed item under: the child workflow's, or the entry's own. */
  function NameFor(op: Op, e: Entry): Option<string> { if op.DoGatherChildren? then Some(op.workflow) else e.name }

  /** `failures` are the failed ones of the entries, each under its name and with its error, in order. */
  ghost predicate AreFailed(op: Op, es: seq<Entry>, failures: seq<ItemError>, at: seq<nat>) {
    && |at| == |failures|
    && (forall k :: 0 <= k < |at| ==> at[k] < |es| && es[at[k]].error.Some?)
    && (forall k :: 0 <= k < |at| ==> failures[k] == ItemError(NameFor(op, es[at[k]]), es[at[k]].error.value))
    && (forall j, k :: 0 <= j < k < |at| ==> at[j] < at[k])
    && (forall i :: 0 <= i < |es| && es[i].error.Some? ==> i in at)
  }

  lemma {:induction false} FailedListed(op: Op, es: seq<Entry>) returns (at: seq<nat>)
    ensures AreFailed(op, es, FailuresOf(op, es), at)
  {
    if es == [] {
      at := [];
    } else {
      at := FailedListed(op, es[..|es| - 1]);
      if es[|es| - 1].error.Some? { at := at + [|es| - 1]; }
    }
  }

  /**
   * A fan that waits for all its items, and a local one however it ends unless settled, raises one error
   * that lists exactly the failed items, in order.
   */
  lemma FailuresRaised(t: Turn, op: Op, base: nat) returns (at: seq<nat>)
    requires Complete(t, op, base) && op.ending != Settled && (op.ending == WaitAll || op.DoGather?)
    requires exists i :: 0 <= i < Width(op) && ItemFailed(t.history, base, i)
    ensures Perform(t, op, base).Resume? && Perform(t, op, base).recorded == []
    ensures Perform(t, op, base).outcome.Failed?
    ensures AreFailed(op, Block(t.history, base, Width(op)), Perform(t, op, base).outcome.error.items, at)
  {
    CompletePresent(t, op, base);
    var es := Block(t.history, base, Width(op));
    at := FailedListed(op, es);
    var i :| 0 <= i < Width(op) && ItemFailed(t.history, base, i);
    assert es[i].error.Some? && i in at;
  }

  // ---------------------------------------------------------------- a fan with items missing

  /** A local fan without entries runs every body, in order, and records each under the fan's tag. */
  lemma LocalFanRecords(t: Turn, op: Op, base: nat)
    requires op.DoGather? && op.names != [] && base !in t.history
    ensures Perform(t, op, base).Resume?
    ensures var recorded := Perform(t, op, base).recorded;
      && |recorded| == |op.names|
      && forall i :: 0 <= i < |op.names| ==>
           recorded[i] == RecordStep(base + i, op.names[i], BodyOf(t, base, i), Some("gather:" + Decimal(base)))
  {
    FanGoes(t, op, base);
    AllCommanded(t, op, base, Width(op));
    hide OutcomeOf, Decimal;
  }

  lemma FanGoes(t: Turn, op: Op, base: nat)
    requires op.DoGather? && op.names != [] && base !in t.history
    ensures Perform(t, op, base)
         == Resume(OutcomeOf(op, t.runId, base, Fresh(t, op, base)), CommandsFor(t, op, base, Width(op), {}))
  {
    hide OutcomeOf, CommandsFor, Fresh;
    assert FirstMismatch(t.history, op, base, 0) == None;
  }

  /** A body that ran leaves an entry with its value or its error. */
  lemma FreshItem(t: Turn, op: Op, base: nat, i: nat)
    requires op.DoGather? && i < |op.names|
    ensures Fresh(t, op, base)[i] == match BodyOf(t, base, i)
      case Output(value) => Entry(StepKind, Some(op.names[i]), value, None)
      case Raised(error) => Entry(StepKind, Some(op.names[i]), Null, Some(error))
  {
    assert SlotOf(op, base, i) == Slot(StepKind, Some(op.names[i]));
    assert Fresh(t, op, base)[i] == RecordedEntry(op.names[i], t.bodies(base + i));
  }

  /** Settled, it returns one value per body: fulfilled, or, exactly when the body raised, rejected. */
  lemma LocalFanSettles(t: Turn, op: Op, base: nat)
    requires op.DoGather? && op.names != [] && base !in t.history && op.ending == Settled
    ensures Perform(t, op, base).Resume? && Perform(t, op, base).outcome.Returned?
    ensures Perform(t, op, base).outcome.value.List?
    ensures var items := Perform(t, op, base).outcome.value.items;
      && |items| == |op.names|
      && forall i :: 0 <= i < |op.names| ==>
           items[i] == match BodyOf(t, base, i)
             case Output(value) => Fulfilled(value)
             case Raised(error) =>
               Rejected(t.runId + ":" + Decimal(base + i), error.message, error.code, error.details)
  {
    hide Decimal, Perform, CommandsFor, Fresh, BodyOf;
    FanGoes(t, op, base);
    var items := Perform(t, op, base).outcome.value.items;
    forall i | 0 <= i < |op.names|
      ensures items[i] == match BodyOf(t, base, i)
        case Output(value) => Fulfilled(value)
        case Raised(error) => Rejected(t.runId + ":" + Decimal(base + i), error.message, error.code, error.details)
    {
      FreshItem(t, op, base, i);
    }
  }

  /** Otherwise it fails exactly when some body raised, and else returns what the bodies gave. */
  lemma LocalFanFails(t: Turn, op: Op, base: nat)
    requires op.DoGather? && op.names != [] && base !in t.history && op.ending != Settled
    ensures Perform(t, op, base).Resume?
    ensures Perform(t, op, base).outcome.Failed? <==> exists i :: 0 <= i < |op.names| && BodyOf(t, base, i).Raised?
    ensures !Perform(t, op, base).outcome.Failed? ==>
      var outcome := Perform(t, op, base).outcome;
      && outcome.Returned? && outcome.value.List? && |outcome.value.items| == |op.names|
      && forall i :: 0 <= i < |op.names| ==> BodyOf(t, base, i) == Output(outcome.value.items[i])
  {
    hide Perform, CommandsFor, Decimal, GatherFailed, Fresh;
    FanGoes(t, op, base);
    var es := Fresh(t, op, base);
    var at := FailedListed(op, es);
    forall i | 0 <= i < |es|
      ensures es[i].error.Some? <==> BodyOf(t, base, i).Raised?
      ensures BodyOf(t, base, i).Output? ==> es[i].output == BodyOf(t, base, i).value
    {
      FreshItem(t, op, base, i);
    }
    if i :| 0 <= i < |op.names| && BodyOf(t, base, i).Raised? {
      assert es[i].error.Some? && i in at;
    } else {
      forall i | 0 <= i < |es| ensures es[i].error == None { assert !BodyOf(t, base, i).Raised?; }
      NoneFailed(op, es);
    }
  }

  lemma {:induction false} AllCommanded(t: Turn, op: Op, base: nat, n: nat)
    requires op.DoGather? && n <= |op.names|
    ensures var cs := CommandsFor(t, op, base, n, {});
      && |cs| == n
      && forall i :: 0 <= i < n ==>
           cs[i] == RecordStep(base + i, op.names[i], BodyOf(t, base, i), Some("gather:" + Decimal(base)))
  {
    hide Decimal;
    if n > 0 { AllCommanded(t, op, base, n - 1); }
  }

  /** The command that asks for item `i` of a fan of children or calls. */
  function WantedItem(t: Turn, op: Op, base: nat, i: nat): Command
    requires (op.DoGatherChildren? || op.DoGatherCalls?) && i < Width(op)
  {
    var tag := Some("gather:" + Decimal(base));
    match op
    case DoGatherChildren(workflow, inputs, _) => StartChild(base + i, workflow, inputs[i], tag)
    case DoGatherCalls(calls, _) =>
      var group := if calls[i].group.Some? then calls[i].group.value else t.partition;
      Call(base + i, calls[i].name, group, calls[i].input, tag)
  }

  /** `at` are the items the history has nothing of, in order. */
  ghost predicate AreMissing(h: History, base: nat, n: nat, at: seq<nat>) {
    && (forall k :: 0 <= k < |at| ==> at[k] < n && ItemAt(h, base, at[k]).None?)
    && (forall j, k :: 0 <= j < k < |at| ==> at[j] < at[k])
    && (forall i :: 0 <= i < n && ItemAt(h, base, i).None? ==> i in at)
  }

  /** A fan of children or calls with items missing, and no failure that ends it early, asks for exactly those. */
  lemma MissingAsked(t: Turn, op: Op, base: nat) returns (at: seq<nat>)
    requires op.DoGatherChildren? || op.DoGatherCalls?
    requires forall i :: 0 <= i < Width(op) ==> Fitting(t.history, op, base, i)
    requires exists i :: 0 <= i < Width(op) && ItemAt(t.history, base, i).None?
    requires op.ending == FailFast ==> forall i :: 0 <= i < Width(op) ==> !ItemFailed(t.history, base, i)
    ensures AreMissing(t.history, base, Width(op), at)
    ensures Perform(t, op, base).Park? && |Perform(t, op, base).wanted| == |at|
    ensures forall k :: 0 <= k < |at| ==> Perform(t, op, base).wanted[k] == WantedItem(t, op, base, at[k])
  {
    hide Decimal;
    NothingUnexpected(t.history, op, base, 0);
    if op.ending == FailFast { NoFirst(t.history, op, base, 0); }
    at := MissingListed(t, op, base, Width(op));
    var i :| 0 <= i < Width(op) && ItemAt(t.history, base, i).None?;
    assert !AllPresent(t.history, base, Width(op));
  }

  lemma ItemCommand(t: Turn, op: Op, base: nat, i: nat)
    requires (op.DoGatherChildren? || op.DoGatherCalls?) && i < Width(op)
    ensures CommandFor(t, op, base, i) == WantedItem(t, op, base, i)
  {
    hide Decimal;
  }

  lemma {:induction false} MissingListed(t: Turn, op: Op, base: nat, n: nat) returns (at: seq<nat>)
    requires (op.DoGatherChildren? || op.DoGatherCalls?) && n <= Width(op)
    ensures AreMissing(t.history, base, n, at)
    ensures var cs := CommandsFor(t, op, base, n, t.history.Keys);
      |cs| == |at| && forall k :: 0 <= k < |at| ==> cs[k] == WantedItem(t, op, base, at[k])
  {
    hide CommandFor, WantedItem;
    if n == 0 {
      at := [];
    } else {
      at := MissingListed(t, op, base, n - 1);
      ItemCommand(t, op, base, n - 1);
      if base + n - 1 !in t.history { at := at + [n - 1]; }
    }
  }

  /** One that fails fast raises its first failure in item order, however many items are missing. */
  lemma FirstFailureRaised(t: Turn, op: Op, base: nat, k: nat)
    requires (op.DoGatherChildren? || op.DoGatherCalls?) && op.ending == FailFast
    requires forall i :: 0 <= i < Width(op) ==> Fitting(t.history, op, base, i)
    requires k < Width(op) && ItemFailed(t.history, base, k)
    requires forall i :: 0 <= i < k ==> !ItemFailed(t.history, base, i)
    ensures Perform(t, op, base).Resume? && Perform(t, op, base).recorded == []
    ensures Perform(t, op, base).outcome.Failed?
    ensures Perform(t, op, base).outcome.error.items
         == [ItemError(NameFor(op, t.history[base + k]), t.history[base + k].error.value)]
  {
    NothingUnexpected(t.history, op, base, 0);
    FirstFrom(t.history, op, base, k, 0);
  }

  lemma {:induction false} FirstFrom(h: History, op: Op, base: nat, k: nat, from: nat)
    requires from <= k < Width(op) && ItemFailed(h, base, k)
    requires forall i :: from <= i < k ==> !ItemFailed(h, base, i)
    ensures FirstFailure(h, op, base, from) == Some(ItemError(NameFor(op, h[base + k]), h[base + k].error.value))
    decreases k - from
  {
    assert from < k ==> !ItemFailed(h, base, from);
    if from < k { FirstFrom(h, op, base, k, from + 1); }
  }

  // ---------------------------------------------------------------- what an aggregate failure says

  /** Its message counts the failed items and names them in order; an item without a name reads "None". */
  lemma GatherMessage(failures: seq<ItemError>)
    requires failures != []
    ensures GatherFailed(failures).items == failures
    ensures GatherFailed(failures).message ==
      "gather: " + Decimal(|failures|) + " item(s) failed: " + NamesOf(failures)
    ensures forall name: string :: NamesOf([ItemError(Some(name), failures[0].error)]) == name
    ensures NamesOf([ItemError(None, failures[0].error)]) == "None"
    ensures |failures| > 1 ==>
      NamesOf(failures) == NamesOf(failures[..|failures| - 1]) + ", " + NamesOf([failures[|failures| - 1]])
  {
    hide Decimal;
  }
}
