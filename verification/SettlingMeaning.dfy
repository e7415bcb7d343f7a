/**
 * What it means for a parent to have settled a child, and for a completion to be worth keeping, said
 * outright: in terms of the ids and names checkpoints are written under, the values they hold, and the
 * statuses of runs.
 */
module SettlingMeaning {
  import opened Basics
  import opened FanJoin
  import opened BufferedChildSignals
  import opened BufferedSignalSweep
  import C = CanonicalJson

  // ---------------------------------------------------------------- which children a fold stands for

  /** A fold covers exactly the children whose ids are read off it, whatever index it starts at. */
  lemma CoversExactly(p: string, first: nat, wave: Option<nat>, from: nat, size: nat, index: nat)
    ensures StartsWith(AllFoldedName(p, first, wave), "fan:")
    ensures Covers(Some(Folded(from, size)), index) <==>
      AllChildId(p, first, index, wave) in FoldedChildIds(AllFoldedName(p, first, wave), from, size)
  {
    hide AllChildId, AllFoldedName, FoldedChildIds, Decimal;
    FoldNamesItsChildren(p, first, wave, from, size);
    var ids := FoldedChildIds(AllFoldedName(p, first, wave), from, size);
    if from <= index < from + size { assert ids[index - from] == AllChildId(p, first, index, wave); }
    forall j | 0 <= j < size ensures ids[j] == AllChildId(p, first, index, wave) ==> from + j == index {
      if AllChildId(p, first, from + j, wave) == AllChildId(p, first, index, wave) {
        AllChildIdInjective(p, first, from + j, wave, p, first, index, wave);
      }
    }
  }

  /** The completed fold of children `from` to `from + size` of one fan, or of one wave of it. */
  predicate IsFold(cp: Checkpoint, p: string, first: nat, wave: Option<nat>, from: nat, size: nat) {
    cp.completed && cp.name == AllFoldedName(p, first, wave) && cp.folded == Some(Folded(from, size))
  }

  /** The completed row of a child's signal, holding the same value as its completion. */
  predicate IsSignal(cp: Checkpoint, child: Child) {
    && cp.completed && cp.name == "signal:child:" + child.childId
    && C.CanonicalText(cp.output) == C.CanonicalText(child.completion)
  }

  lemma FoldNamed(p: string, first: nat, wave: Option<nat>)
    ensures StartsWith(AllFoldedName(p, first, wave), "fan:")
  {
    CoversExactly(p, first, wave, 0, 0, 0);
  }

  ghost predicate SignalledOrFolded(rows: Rows, p: string, first: nat, wave: Option<nat>, child: Child) {
    || (exists at :: at in rows && IsSignal(rows[at], child))
    || (exists at, from, size :: at in rows && FoldOfChild(rows[at], p, first, wave, from, size, child))
  }

  /** The fold, if it is one that names the child. */
  ghost predicate FoldOfChild(
      cp: Checkpoint, p: string, first: nat, wave: Option<nat>, from: nat, size: nat, child: Child)
  {
    FoldNamed(p, first, wave);
    IsFold(cp, p, first, wave, from, size) && child.childId in FoldedChildIds(AllFoldedName(p, first, wave), from, size)
  }

  /** The search by name finds a fan child settled exactly by its signal or by a fold that names it. */
  lemma FoundExactly(p: string, rows: Rows, first: nat, index: nat, wave: Option<nat>, child: Child)
    requires OneLine(p) && child.childId == AllChildId(p, first, index, wave)
    requires forall at :: at in rows && rows[at].folded.Some? ==> rows[at].folded.value.from >= 0
    ensures FoundChild(rows, child) <==> SignalledOrFolded(rows, p, first, wave, child)
  {
    hide AllChildId, AllFoldedName, FoldedChildIds, Decimal, SlotOf, C.CanonicalText;
    SlotOfFanChild(p, first, index, wave);
    var slot, expected := SlotOf(child.childId), C.CanonicalText(child.completion);
    FoldNamed(p, first, wave);
    forall at | at in rows && IsSignal(rows[at], child) ensures ShowsSettled(rows[at], slot, expected) { }
    forall at, from, size | at in rows && FoldOfChild(rows[at], p, first, wave, from, size, child)
      ensures ShowsSettled(rows[at], slot, expected)
    {
      CoversExactly(p, first, wave, from, size, index);
    }
    forall at | at in rows && ShowsSettled(rows[at], slot, expected)
      ensures IsSignal(rows[at], child)
        || exists from, size :: FoldOfChild(rows[at], p, first, wave, from, size, child)
    {
      if !IsSignal(rows[at], child) {
        var fold := rows[at].folded.value;
        CoversExactly(p, first, wave, fold.from, fold.size, index);
        assert FoldOfChild(rows[at], p, first, wave, fold.from, fold.size, child);
      }
    }
  }

  /** A lone child is found settled exactly by its signal. */
  lemma LoneFoundExactly(p: string, rows: Rows, n: nat, child: Child)
    requires child.childId == p + ".child." + Decimal(n)
    ensures FoundChild(rows, child) <==> exists at :: at in rows && IsSignal(rows[at], child)
  {
    hide SlotOf, Decimal, C.CanonicalText;
    SlotOfLoneChild(p, n);
    var slot, expected := SlotOf(child.childId), C.CanonicalText(child.completion);
    forall at | at in rows ensures IsSignal(rows[at], child) <==> ShowsSettled(rows[at], slot, expected) { }
  }

  /**
   * In a history laid out as documented, a completed fold settles every child whose id is read off it,
   * those of later waves included, whatever their completions hold.
   */
  lemma FoldSettlesItsChildren(
      p: string, rows: Rows, at: nat, first: nat, wave: Option<nat>, from: nat, size: nat, child: Child)
    requires OneLine(p) && LaidOut(p, rows) && at in rows && IsFold(rows[at], p, first, wave, from, size)
    requires StartsWith(AllFoldedName(p, first, wave), "fan:")
    requires child.childId in FoldedChildIds(AllFoldedName(p, first, wave), from, size)
    ensures SettledChild(rows, child)
  {
    hide AllChildId, AllFoldedName, FoldedChildIds, Decimal, SlotOf, C.CanonicalText, LaidOut;
    FoldNamesItsChildren(p, first, wave, from, size);
    var ids := FoldedChildIds(AllFoldedName(p, first, wave), from, size);
    var j :| 0 <= j < |ids| && ids[j] == child.childId;
    SlotOfFanChild(p, first, from + j, wave);
    CoversExactly(p, first, wave, from, size, from + j);
    assert ShowsSettled(rows[at], SlotOf(child.childId), C.CanonicalText(child.completion));
    assert ChildOf(p, child.childId);
    KeyedMatchesSearch(p, rows, child);
  }

  /** And nothing but such a fold, or its own signal, settles a fan child. */
  lemma SettledExactly(p: string, rows: Rows, first: nat, index: nat, wave: Option<nat>, child: Child)
    requires OneLine(p) && LaidOut(p, rows) && child.childId == AllChildId(p, first, index, wave)
    requires forall at :: at in rows && rows[at].folded.Some? ==> rows[at].folded.value.from >= 0
    ensures SettledChild(rows, child) <==> SignalledOrFolded(rows, p, first, wave, child)
  {
    hide SettledChild, FoundChild, LaidOut, SignalledOrFolded, AllChildId;
    assert ChildOf(p, child.childId);
    KeyedMatchesSearch(p, rows, child);
    FoundExactly(p, rows, first, index, wave, child);
  }

  // ---------------------------------------------------------------- which completions are kept

  /** A run row that says the run may still go on: a failed or dead run can be retried. */
  predicate MayGoOn(w: World, run: string) {
    run in w.runs && w.runs[run] in {Pending, Running, Suspended, Cancelling, BlockedRun, Failed, Dead}
  }

  /** A fan child's completion is kept exactly while its parent may go on and has not settled it. */
  lemma KeptExactly(w: World, p: string, first: nat, index: nat, wave: Option<nat>, child: Child)
    requires child.childId == AllChildId(p, first, index, wave) && OneLine(p)
    ensures NeedsBuffer(w, child) <==>
      MayGoOn(w, p) && !SettledChild(if p in w.checkpoints then w.checkpoints[p] else map[], child)
  {
    hide AllChildId, SettledChild;
    ParentOfMinted(p, first, index, wave, 0);
  }

  /** A completion that names no parent is not kept. */
  lemma OrphansDropped(w: World, child: Child)
    requires ParentRunIdOf(child.childId).None?
    ensures !NeedsBuffer(w, child)
  {
  }

  /** The sweep speaks of rows that hold a child's completion, and of no others. */
  lemma SweptRows(w: World, row: Buffered, child: Child)
    ensures row == Buffered("child:" + child.childId, child.completion) ==>
      (Unneeded(w, row) <==> !NeedsBuffer(w, child))
    ensures !StartsWith(row.token, "child:") ==> !Unneeded(w, row)
  {
    hide NeedsBuffer;
    var token := "child:" + child.childId;
    assert token[..6] == "child:" && token[6..] == child.childId;
  }
}
