/**
 * What an op comes to when only some of its items are known, and when that is settled for good. A
 * fail-fast fan of children or calls raises its first failed item in input order without waiting for
 * the others, so an item that settles later can still change what it raises.
 */
module FanOutcomes {
  import opened Basics
  import opened WorkflowModel

  /** What the op comes to once its items are these: a remote fail-fast fan names its first failure only. */
  function Verdict(op: Op, runId: string, base: nat, es: seq<Entry>): Outcome
    requires |es| == Width(op)
  {
    if RemoteFailFast(op) && FailuresOf(op, es) != [] then Failed(GatherFailed([FailuresOf(op, es)[0]]))
    else OutcomeOf(op, runId, base, es)
  }

  /** Stands for an item nothing is known of yet. */
  const Blank := Entry(StepKind, None, Null, None)

  /** The op's block, with blanks where the history has nothing. */
  function Filled(h: History, base: nat, width: nat): (es: seq<Entry>)
    ensures |es| == width
    ensures forall i :: 0 <= i < width ==> es[i] == if base + i in h then h[base + i] else Blank
  {
    seq(width, i requires 0 <= i < width => if base + i in h then h[base + i] else Blank)
  }

  /** `es` says what the history says, wherever it says something. */
  predicate Extends(es: seq<Entry>, h: History, base: nat) {
    forall s :: base <= s < base + |es| && s in h ==> es[s - base] == h[s]
  }

  predicate BlockMatches(h: History, op: Op, base: nat) {
    forall s :: base <= s < base + Width(op) && s in h ==> Matches(h[s], SlotOf(op, base, s - base))
  }

  predicate FailedAt(h: History, s: nat) { s in h && h[s].error.Some? }

  predicate HasFailure(h: History, op: Op, base: nat) {
    exists s :: base <= s < base + Width(op) && FailedAt(h, s)
  }

  /** The history decides the op: every item is there, or a fail-fast fan has a failure to raise. */
  predicate Told(h: History, op: Op, base: nat) {
    AllPresent(h, base, Width(op)) || (RemoteFailFast(op) && HasFailure(h, op, base))
  }

  /** And decides it for good: every item is there, or every item before some failed one is. */
  predicate FirmAt(h: History, op: Op, base: nat) {
    || AllPresent(h, base, Width(op))
    || exists s :: base <= s < base + Width(op) && FailedAt(h, s) && AllPresent(h, base, s - base)
  }

  // ---------------------------------------------------------------- the first failure

  lemma {:induction false} NoMismatch(h: History, op: Op, base: nat, i: nat)
    requires BlockMatches(h, op, base) && i <= Width(op)
    ensures FirstMismatch(h, op, base, i) == None
    decreases Width(op) - i
  {
    if i < Width(op) { NoMismatch(h, op, base, i + 1); }
  }

  lemma {:induction false} NoFailures(op: Op, es: seq<Entry>)
    requires forall i :: 0 <= i < |es| ==> es[i].error.None?
    ensures FailuresOf(op, es) == []
  {
    if es != [] { NoFailures(op, es[..|es| - 1]); }
  }

  lemma {:induction false} FailuresGrow(op: Op, es: seq<Entry>, n: nat)
    requires n <= |es|
    ensures FailuresOf(op, es[..n]) <= FailuresOf(op, es)
  {
    if n < |es| {
      FailuresGrow(op, es[..|es| - 1], n);
      assert es[..|es| - 1][..n] == es[..n];
    } else {
      assert es[..n] == es;
    }
  }

  /** The first item to fail is named first. */
  lemma FirstNamed(op: Op, es: seq<Entry>, k: nat)
    requires k < |es| && es[k].error.Some? && forall i :: 0 <= i < k ==> es[i].error.None?
    ensures FailuresOf(op, es) != []
    ensures FailuresOf(op, es)[0] == ItemError(LabelOf(op, es[k]), es[k].error.value)
  {
    NoFailures(op, es[..k]);
    assert es[..k + 1][..k] == es[..k];
    FailuresGrow(op, es, k + 1);
  }

  /** Item `k` is the first failed one among those the history holds. */
  predicate FirstAt(h: History, op: Op, base: nat, k: nat) {
    k < Width(op) && FailedAt(h, base + k) && forall s :: base <= s < base + k ==> !FailedAt(h, s)
  }

  lemma {:induction false} LeastFailure(h: History, op: Op, base: nat, n: nat) returns (k: nat)
    requires n < Width(op) && FailedAt(h, base + n)
    ensures k <= n && FirstAt(h, op, base, k)
  {
    if s :| base <= s < base + n && FailedAt(h, s) {
      k := LeastFailure(h, op, base, s - base);
    } else {
      k := n;
    }
  }

  lemma {:induction false} ScanFrom(h: History, op: Op, base: nat, k: nat, i: nat)
    requires FirstAt(h, op, base, k) && i <= k
    ensures FirstFailure(h, op, base, i) == Some(ItemError(LabelOf(op, h[base + k]), h[base + k].error.value))
    decreases k - i
  {
    if i < k {
      assert !FailedAt(h, base + i);
      ScanFrom(h, op, base, k, i + 1);
    }
  }

  lemma {:induction false} ScanNothing(h: History, op: Op, base: nat, i: nat)
    requires !HasFailure(h, op, base) && i <= Width(op)
    ensures FirstFailure(h, op, base, i) == None
    decreases Width(op) - i
  {
    if i < Width(op) {
      assert !FailedAt(h, base + i);
      ScanNothing(h, op, base, i + 1);
    }
  }

  /** What a fan raises for one failed item. */
  function RaisedFor(op: Op, entry: Entry): Outcome {
    match entry.error
    case None => Returned(entry.output)
    case Some(error) => Failed(GatherFailed([ItemError(LabelOf(op, entry), error)]))
  }

  /** A fan's verdict is its first failure, once nothing unknown can come before it. */
  lemma VerdictAt(h: History, op: Op, runId: string, base: nat, es: seq<Entry>, k: nat)
    requires RemoteFailFast(op) && |es| == Width(op) && FirstAt(h, op, base, k) && Extends(es, h, base)
    requires AllPresent(h, base, k) || es == Filled(h, base, Width(op))
    ensures Verdict(op, runId, base, es) == RaisedFor(op, es[k])
  {
    hide OutcomeOf, GatherFailed;
    forall i | 0 <= i < k ensures es[i].error.None? {
      assert !FailedAt(h, base + i);
    }
    FirstNamed(op, es, k);
  }

  /** An op its history decides hands over the verdict on what is known, and does nothing else. */
  lemma ToldResumes(t: Turn, op: Op, base: nat)
    requires BlockMatches(t.history, op, base) && Told(t.history, op, base)
    ensures Perform(t, op, base) == Resume(Verdict(op, t.runId, base, Filled(t.history, base, Width(op))), [])
  {
    hide OutcomeOf, GatherFailed;
    var es := Filled(t.history, base, Width(op));
    NoMismatch(t.history, op, base, 0);
    if RemoteFailFast(op) && HasFailure(t.history, op, base) {
      var s :| base <= s < base + Width(op) && FailedAt(t.history, s);
      var k := LeastFailure(t.history, op, base, s - base);
      ScanFrom(t.history, op, base, k, 0);
      VerdictAt(t.history, op, t.runId, base, es, k);
    } else {
      AllThere(t, op, base);
    }
  }

  lemma AllThere(t: Turn, op: Op, base: nat)
    requires AllPresent(t.history, base, Width(op)) && FirstMismatch(t.history, op, base, 0) == None
    requires !(RemoteFailFast(op) && HasFailure(t.history, op, base))
    ensures Perform(t, op, base) == Resume(Verdict(op, t.runId, base, Filled(t.history, base, Width(op))), [])
  {
    hide OutcomeOf;
    var es := Filled(t.history, base, Width(op));
    assert es == Block(t.history, base, Width(op));
    if RemoteFailFast(op) {
      ScanNothing(t.history, op, base, 0);
      forall i | 0 <= i < |es| ensures es[i].error.None? { assert !FailedAt(t.history, base + i); }
      NoFailures(op, es);
    }
  }

  // ---------------------------------------------------------------- when a verdict is final

  /** A firm verdict stays, whatever the missing items turn out to be. */
  lemma FirmStays(h: History, op: Op, runId: string, base: nat, es: seq<Entry>)
    requires Told(h, op, base) && FirmAt(h, op, base) && |es| == Width(op) && Extends(es, h, base)
    ensures Verdict(op, runId, base, es) == Verdict(op, runId, base, Filled(h, base, Width(op)))
  {
    hide OutcomeOf, GatherFailed, Verdict;
    var known := Filled(h, base, Width(op));
    if AllPresent(h, base, Width(op)) {
      forall i | 0 <= i < |es| ensures es[i] == known[i] { assert base + i in h; }
      assert es == known;
    } else {
      var s :| base <= s < base + Width(op) && FailedAt(h, s) && AllPresent(h, base, s - base);
      var k := LeastFailure(h, op, base, s - base);
      VerdictAt(h, op, runId, base, es, k);
      VerdictAt(h, op, runId, base, known, k);
    }
  }

  /** Every entry of `g` from `base` on is in `h` too. */
  ghost predicate Held(g: History, h: History, base: nat) {
    forall s :: s in g && s >= base ==> s in h && h[s] == g[s]
  }

  /** Every turn of the run that replays what this one replayed, and perhaps more, sees the op do the same. */
  ghost predicate Unchanging(t: Turn, op: Op, base: nat) {
    forall t2: Turn |
      t2.runId == t.runId && BlockMatches(t2.history, op, base) && Held(t.history, t2.history, base) ::
      Perform(t2, op, base) == Perform(t, op, base)
  }

  /**
   * Once a fail-fast fan of children or calls has raised item `k`, no later turn of the run can see it
   * do anything else exactly when every item before `k` has settled.
   */
  lemma FirmExactly(t: Turn, op: Op, base: nat, k: nat)
    requires RemoteFailFast(op) && BlockMatches(t.history, op, base) && FirstAt(t.history, op, base, k)
    ensures Unchanging(t, op, base) <==> AllPresent(t.history, base, k)
  {
    hide Perform, BlockMatches, Verdict, Held;
    if AllPresent(t.history, base, k) {
      forall t2: Turn | t2.runId == t.runId && BlockMatches(t2.history, op, base) && Held(t.history, t2.history, base)
        ensures Perform(t2, op, base) == Perform(t, op, base)
      {
        SameLater(t, t2, op, base, k);
      }
    } else {
      var s :| base <= s < base + k && s !in t.history;
      var i := s - base;
      var t2 := t.(history := t.history[base + i := Contrary(t.history, op, base, k, i)]);
      ContraryMatches(t.history, op, base, k, i);
      ContraryChanges(t, t2, op, base, k, i);
    }
  }

  lemma SameLater(t: Turn, t2: Turn, op: Op, base: nat, k: nat)
    requires RemoteFailFast(op) && BlockMatches(t.history, op, base) && FirstAt(t.history, op, base, k)
    requires t2.runId == t.runId && BlockMatches(t2.history, op, base) && Held(t.history, t2.history, base)
    requires AllPresent(t.history, base, k)
    ensures Perform(t2, op, base) == Perform(t, op, base)
  {
    hide Perform, BlockMatches, Verdict;
    FirstIsFirm(t.history, op, base, k);
    assert FailedAt(t2.history, base + k);
    ToldResumes(t, op, base);
    ToldResumes(t2, op, base);
    FirmStays(t.history, op, t.runId, base, Filled(t2.history, base, Width(op)));
  }

  lemma FirstIsFirm(h: History, op: Op, base: nat, k: nat)
    requires RemoteFailFast(op) && FirstAt(h, op, base, k)
    ensures Told(h, op, base)
    ensures AllPresent(h, base, k) ==> FirmAt(h, op, base)
  {
    if AllPresent(h, base, k) { assert AllPresent(h, base, (base + k) - base); }
  }

  /** A failure of item `i` other than the one raised for item `k`. */
  function Contrary(h: History, op: Op, base: nat, k: nat, i: nat): Entry
    requires FirstAt(h, op, base, k) && i < Width(op)
  {
    var slot := SlotOf(op, base, i);
    Entry(slot.kind, slot.name, Null, Some(h[base + k].error.value.(message := h[base + k].error.value.message + "!")))
  }

  lemma ContraryMatches(h: History, op: Op, base: nat, k: nat, i: nat)
    requires FirstAt(h, op, base, k) && i < k && base + i !in h && BlockMatches(h, op, base)
    ensures var h2 := h[base + i := Contrary(h, op, base, k, i)];
      BlockMatches(h2, op, base) && Held(h, h2, base) && FirstAt(h2, op, base, i)
  {
    hide SlotOf;
    var h2 := h[base + i := Contrary(h, op, base, k, i)];
    forall s | base <= s < base + i ensures !FailedAt(h2, s) { assert !FailedAt(h, s); }
  }

  /** Whatever else has arrived, a contrary failure of an earlier item changes what the fan raises. */
  lemma ContraryChanges(t: Turn, t2: Turn, op: Op, base: nat, k: nat, i: nat)
    requires RemoteFailFast(op) && BlockMatches(t.history, op, base) && FirstAt(t.history, op, base, k) && i < k
    requires BlockMatches(t2.history, op, base) && FirstAt(t2.history, op, base, i)
    requires t2.history[base + i] == Contrary(t.history, op, base, k, i)
    ensures Perform(t, op, base).Resume? && Perform(t2, op, base).Resume?
    ensures Perform(t, op, base).outcome != Perform(t2, op, base).outcome
  {
    hide Perform, BlockMatches, Verdict, RaisedFor, Contrary, Told, FirmAt;
    FirstIsFirm(t.history, op, base, k);
    FirstIsFirm(t2.history, op, base, i);
    ToldResumes(t, op, base);
    ToldResumes(t2, op, base);
    VerdictAt(t.history, op, t.runId, base, Filled(t.history, base, Width(op)), k);
    VerdictAt(t2.history, op, t2.runId, base, Filled(t2.history, base, Width(op)), i);
    RaisedDiffer(t.history, op, base, k, i);
  }

  lemma RaisedDiffer(h: History, op: Op, base: nat, k: nat, i: nat)
    requires FirstAt(h, op, base, k) && i < k
    ensures RaisedFor(op, h[base + k]) != RaisedFor(op, Contrary(h, op, base, k, i))
  {
    hide LabelOf;
    var second := Contrary(h, op, base, k, i);
    var a := ItemError(LabelOf(op, h[base + k]), h[base + k].error.value);
    var b := ItemError(LabelOf(op, second), second.error.value);
    assert |a.error.message| != |b.error.message|;
    assert GatherFailed([a]).items[0] != GatherFailed([b]).items[0];
  }
}
