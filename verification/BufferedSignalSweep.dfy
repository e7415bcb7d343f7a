/** The sweep that removes buffered completions no parent will consume, a page at a time. */
module BufferedSignalSweep {
  import opened Basics
  import opened FanJoin
  import opened BufferedChildSignals
  import C = CanonicalJson

  datatype Buffered = Buffered(token: string, payload: Option<C.Json>)

  /** The child a buffered row is a completion of, when its token names one. */
  function ChildOfRow(row: Buffered): Option<Child> {
    if StartsWith(row.token, "child:") then Some(Child(row.token[6..], row.payload)) else None
  }

  predicate Unneeded(w: World, row: Buffered) {
    ChildOfRow(row).Some? && !NeedsBuffer(w, ChildOfRow(row).value)
  }

  function ParentOfRow(row: Buffered): Option<string> {
    if ChildOfRow(row).None? then None else ParentRunIdOf(ChildOfRow(row).value.childId)
  }

  /** A page being decided: the run rows that could not be read, and the runs whose checkpoints cannot. */
  datatype Page = Page(world: World, rows: seq<Buffered>, unread: set<string>, failing: set<string>)

  /** Doomed by its own id, or by its parent's run row. */
  predicate DoomedAtSight(page: Page, row: Buffered) {
    && ChildOfRow(row).Some?
    && (ParentOfRow(row).None? ||
        (ParentOfRow(row).value !in page.unread && ParentClosed(StatusOf(page.world, ParentOfRow(row).value))))
  }

  /** To be checked against its parent's checkpoints. */
  predicate Open(page: Page, row: Buffered) {
    && ChildOfRow(row).Some? && ParentOfRow(row).Some? && ParentOfRow(row).value !in page.unread
    && !ParentClosed(StatusOf(page.world, ParentOfRow(row).value))
  }

  /** One of the reads the row's answer needs has failed. */
  predicate ReadFailed(page: Page, row: Buffered) {
    ParentOfRow(row).Some? &&
    (ParentOfRow(row).value in page.unread || (Open(page, row) && ParentOfRow(row).value in page.failing))
  }

  predicate Waits(page: Page, at: nat, parent: string)
    requires at < |page.rows|
  {
    Open(page, page.rows[at]) && ParentOfRow(page.rows[at]) == Some(parent)
  }

  /** The open rows among the first `n`, grouped by parent; parents in the order they were met. */
  ghost predicate Grouped(page: Page, n: nat, open: map<string, seq<nat>>, order: seq<string>)
    requires n <= |page.rows|
  {
    && (forall p :: p in open <==> p in order)
    && (forall p :: p in open ==> GroupOf(page, n, p, open[p]))
    && (forall at, p :: 0 <= at < n && Waits(page, at, p) ==> p in open && at in open[p])
    && (forall a, b :: 0 <= a < b < |order| ==> open[order[a]][0] < open[order[b]][0])
  }

  ghost predicate GroupOf(page: Page, n: nat, p: string, members: seq<nat>)
    requires n <= |page.rows|
  {
    && members != []
    && (forall m :: m in members ==> members[0] <= m < n && Waits(page, m, p))
  }

  /** One more row joins the group of its parent. */
  lemma GroupedAdd(page: Page, n: nat, open: map<string, seq<nat>>, order: seq<string>, p: string)
    requires n < |page.rows| && Grouped(page, n, open, order) && Waits(page, n, p)
    ensures p in open ==> Grouped(page, n + 1, open[p := open[p] + [n]], order)
    ensures p !in open ==> Grouped(page, n + 1, open[p := [n]], order + [p])
  {
    hide Open, ParentOfRow;
    if p in open {
      var open1 := open[p := open[p] + [n]];
      assert GroupOf(page, n, p, open[p]) && open[p][0] in open[p];
      forall q | q in open1 ensures GroupOf(page, n + 1, q, open1[q]) { assert GroupOf(page, n, q, open[q]); }
      forall at, q | 0 <= at < n + 1 && Waits(page, at, q) ensures q in open1 && at in open1[q] {
        if at < n { assert q in open && at in open[q]; }
      }
    } else {
      var open1, order1 := open[p := [n]], order + [p];
      forall q | q in open1 ensures GroupOf(page, n + 1, q, open1[q]) {
        if q != p { assert GroupOf(page, n, q, open[q]); }
      }
      forall a, b | 0 <= a < b < |order1| ensures open1[order1[a]][0] < open1[order1[b]][0] {
        assert order1[a] in order && GroupOf(page, n, order1[a], open[order1[a]]);
        assert open[order1[a]][0] in open[order1[a]];
      }
    }
  }

  lemma GroupedSkip(page: Page, n: nat, open: map<string, seq<nat>>, order: seq<string>)
    requires n < |page.rows| && Grouped(page, n, open, order) && !Open(page, page.rows[n])
    ensures Grouped(page, n + 1, open, order)
  {
    hide Open, ParentOfRow;
    forall q | q in open ensures GroupOf(page, n + 1, q, open[q]) { assert GroupOf(page, n, q, open[q]); }
  }

  /** Every unneeded row of this parent is doomed. */
  ghost predicate GroupDone(page: Page, p: string, doomed: set<nat>) {
    forall at :: 0 <= at < |page.rows| && Waits(page, at, p) && Unneeded(page.world, page.rows[at]) ==> at in doomed
  }

  /** The rows doomed once the first `g` parents have been checked. */
  ghost predicate DoomedSoFar(page: Page, open: map<string, seq<nat>>, order: seq<string>, g: nat, doomed: set<nat>)
    requires g <= |order|
  {
    && (forall at :: at in doomed ==> at < |page.rows| && Unneeded(page.world, page.rows[at]))
    && (forall at :: 0 <= at < |page.rows| && DoomedAtSight(page, page.rows[at]) ==> at in doomed)
    && (forall h :: 0 <= h < g && order[h] !in page.failing ==> GroupDone(page, order[h], doomed))
  }

  /** Every row is doomed at sight, open, not a child's row, or without a readable parent. */
  lemma SightRight(page: Page, row: Buffered)
    ensures DoomedAtSight(page, row) ==> Unneeded(page.world, row)
    ensures Unneeded(page.world, row) && !ReadFailed(page, row) ==> DoomedAtSight(page, row) || Open(page, row)
    ensures Open(page, row) ==>
      (Unneeded(page.world, row) <==>
       SettledChild(RowsOf(page.world, ParentOfRow(row).value), ChildOfRow(row).value))
  {
    hide SettledChild;
  }

  /** What a page's verdict means. */
  ghost predicate Verdict(page: Page, doomed: set<nat>, decided: nat) {
    && decided <= |page.rows|
    && (page.rows != [] ==> decided >= 1)
    && (forall at :: at in doomed ==> at < |page.rows| && Unneeded(page.world, page.rows[at]))
    && (forall at :: 0 <= at < decided && Unneeded(page.world, page.rows[at]) && !ReadFailed(page, page.rows[at]) ==>
          at in doomed)
  }

  /** Checked up to parent `g`, the rows before that parent's first one are decided. */
  lemma VerdictAt(page: Page, open: map<string, seq<nat>>, order: seq<string>, g: nat, doomed: set<nat>, decided: nat)
    requires Grouped(page, |page.rows|, open, order) && g <= |order| && DoomedSoFar(page, open, order, g, doomed)
    requires if g < |order| then order[g] in open && open[order[g]] != [] && decided == open[order[g]][0]
      else decided == |page.rows|
    requires g == |order| || g > 0
    ensures Verdict(page, doomed, decided)
  {
    hide Open, DoomedAtSight, Unneeded, ReadFailed, ParentOfRow, GroupDone, Waits;
    CutAfterFirst(page, open, order, g);
    forall at | 0 <= at < decided && Unneeded(page.world, page.rows[at]) && !ReadFailed(page, page.rows[at])
      ensures at in doomed
    {
      SightRight(page, page.rows[at]);
      if !DoomedAtSight(page, page.rows[at]) {
        OpenRowChecked(page, open, order, g, at, decided);
        var h :| 0 <= h < g && Waits(page, at, order[h]) && order[h] !in page.failing;
        assert GroupDone(page, order[h], doomed);
        DoneRow(page, order[h], doomed, at);
      }
    }
  }

  lemma DoneRow(page: Page, p: string, doomed: set<nat>, at: nat)
    requires GroupDone(page, p, doomed) && at < |page.rows| && Waits(page, at, p) && Unneeded(page.world, page.rows[at])
    ensures at in doomed
  {
  }

  /** The first row of a parent met later is not the first of the page. */
  lemma CutAfterFirst(page: Page, open: map<string, seq<nat>>, order: seq<string>, g: nat)
    requires Grouped(page, |page.rows|, open, order)
    ensures 0 < g < |order| ==> order[g] in open && open[order[g]] != [] && 0 < open[order[g]][0] < |page.rows|
  {
    if 0 < g < |order| {
      assert order[0] in order && order[g] in order;
      assert GroupOf(page, |page.rows|, order[g], open[order[g]]) &&
        GroupOf(page, |page.rows|, order[0], open[order[0]]);
      assert open[order[g]][0] in open[order[g]];
    }
  }

  lemma OpenRowChecked(page: Page, open: map<string, seq<nat>>, order: seq<string>, g: nat, at: nat, decided: nat)
    requires Grouped(page, |page.rows|, open, order) && g <= |order|
    requires if g < |order| then order[g] in open && open[order[g]] != [] && decided == open[order[g]][0]
      else decided == |page.rows|
    requires at < decided <= |page.rows| && Open(page, page.rows[at]) && !ReadFailed(page, page.rows[at])
    ensures exists h :: 0 <= h < g && Waits(page, at, order[h]) && order[h] !in page.failing
  {
    var p := ParentOfRow(page.rows[at]).value;
    assert Waits(page, at, p) && p !in page.failing;
    hide Open, ParentOfRow, ReadFailed;
    var h := ParentMet(page, open, order, at, p);
    hide Waits, GroupOf;
    if g < |order| { FirstsOrdered(page, open, order, g, h); }
  }

  lemma FirstsOrdered(page: Page, open: map<string, seq<nat>>, order: seq<string>, g: nat, h: nat)
    requires Grouped(page, |page.rows|, open, order) && g < |order| && h < |order|
    ensures order[g] in open && order[h] in open && open[order[g]] != [] && open[order[h]] != []
    ensures g <= h ==> open[order[g]][0] <= open[order[h]][0]
  {
    assert order[g] in order && order[h] in order;
    assert GroupOf(page, |page.rows|, order[g], open[order[g]]) && GroupOf(page, |page.rows|, order[h], open[order[h]]);
  }

  lemma ParentMet(page: Page, open: map<string, seq<nat>>, order: seq<string>, at: nat, p: string) returns (h: nat)
    requires Grouped(page, |page.rows|, open, order) && at < |page.rows| && Waits(page, at, p)
    ensures h < |order| && order[h] == p && p in open && open[p] != [] && open[p][0] <= at
  {
    hide Waits;
    assert p in order && at in open[p];
    assert GroupOf(page, |page.rows|, p, open[p]);
    h :| 0 <= h < |order| && order[h] == p;
  }

  /**
   * Decide a page. `late(k)` says whether the deadline has passed when the k-th parent comes up; the
   * first is checked regardless, so a page that is not empty always gets its first rows decided.
   */
  method UnneededChildSignals(page: Page, late: nat -> bool) returns (doomed: set<nat>, decided: nat)
    ensures Verdict(page, doomed, decided)
    ensures (forall k :: !late(k)) ==> decided == |page.rows|
  {
    hide Parts, SplitTail, Unneeded, ReadFailed, SettledChild, Grouped, GroupOf, Verdict, DoomedSoFar;
    doomed := {};
    var open: map<string, seq<nat>>, order: seq<string> := map[], [];
    NothingGrouped(page);
    for n := 0 to |page.rows|
      invariant Grouped(page, n, open, order)
      invariant forall at :: at in doomed <==> 0 <= at < n && DoomedAtSight(page, page.rows[at])
    {
      var row := page.rows[n];
      var child := ChildOfRow(row);
      if child.None? {
        GroupedSkip(page, n, open, order);
        continue;
      }
      var parent := ParentRunIdOf(child.value.childId);
      if parent.None? {
        doomed := doomed + {n};
        GroupedSkip(page, n, open, order);
        continue;
      }
      if parent.value in page.unread {
        GroupedSkip(page, n, open, order);
        continue;
      }
      if ParentClosed(StatusOf(page.world, parent.value)) {
        doomed := doomed + {n};
        GroupedSkip(page, n, open, order);
        continue;
      }
      GroupedAdd(page, n, open, order, parent.value);
      if parent.value in open {
        open := open[parent.value := open[parent.value] + [n]];
      } else {
        open, order := open[parent.value := [n]], order + [parent.value];
      }
    }
    DoomedStart(page, open, order, doomed);
    hide ParentOfRow, DoomedAtSight, Open, Waits;
    decided := |page.rows|;
    var checked := 0;
    for g := 0 to |order|
      invariant checked == g && decided == |page.rows|
      invariant DoomedSoFar(page, open, order, g, doomed)
    {
      GroupKnown(page, open, order, g);
      var group := open[order[g]];
      if checked > 0 && late(checked) {
        decided := group[0];
        VerdictAt(page, open, order, g, doomed, decided);
        return;
      }
      checked := checked + 1;
      var settled := {};
      if order[g] !in page.failing {
        settled := SettledMembers(page, order[g], group);
      }
      DoomedStep(page, open, order, g, doomed, settled);
      doomed := doomed + settled;
    }
    VerdictAt(page, open, order, |order|, doomed, decided);
  }

  lemma NothingGrouped(page: Page)
    ensures Grouped(page, 0, map[], [])
  {
  }

  lemma GroupKnown(page: Page, open: map<string, seq<nat>>, order: seq<string>, g: nat)
    requires Grouped(page, |page.rows|, open, order) && g < |order|
    ensures order[g] in open && open[order[g]] != []
    ensures var group := open[order[g]];
      forall k :: 0 <= k < |group| ==> group[k] < |page.rows| && Waits(page, group[k], order[g])
    ensures forall at :: 0 <= at < |page.rows| && Waits(page, at, order[g]) ==> at in open[order[g]]
  {
    hide Waits;
    assert order[g] in order;
    assert GroupOf(page, |page.rows|, order[g], open[order[g]]);
    var group := open[order[g]];
    assert forall k :: 0 <= k < |group| ==> group[k] in group;
  }

  lemma DoomedStart(page: Page, open: map<string, seq<nat>>, order: seq<string>, doomed: set<nat>)
    requires forall at :: at in doomed <==> 0 <= at < |page.rows| && DoomedAtSight(page, page.rows[at])
    ensures DoomedSoFar(page, open, order, 0, doomed)
  {
    hide DoomedAtSight, Unneeded;
    forall at | at in doomed ensures Unneeded(page.world, page.rows[at]) { SightRight(page, page.rows[at]); }
  }

  lemma DoomedStep(
      page: Page, open: map<string, seq<nat>>, order: seq<string>, g: nat, doomed: set<nat>, settled: set<nat>)
    requires g < |order| && DoomedSoFar(page, open, order, g, doomed)
    requires order[g] !in page.failing ==>
      forall at :: at in settled <==>
        0 <= at < |page.rows| && Waits(page, at, order[g]) && Unneeded(page.world, page.rows[at])
    requires order[g] in page.failing ==> settled == {}
    ensures DoomedSoFar(page, open, order, g + 1, doomed + settled)
  {
    hide DoomedAtSight, Unneeded, Waits;
    forall h | 0 <= h < g + 1 && order[h] !in page.failing ensures GroupDone(page, order[h], doomed + settled) {
      if h < g { assert GroupDone(page, order[h], doomed); }
    }
  }

  /** The members of one parent's group that it already settles: one batch of keyed reads. */
  method SettledMembers(page: Page, p: string, group: seq<nat>) returns (settled: set<nat>)
    requires forall k :: 0 <= k < |group| ==> group[k] < |page.rows| && Waits(page, group[k], p)
    requires forall at :: 0 <= at < |page.rows| && Waits(page, at, p) ==> at in group
    ensures forall at :: at in settled <==>
      0 <= at < |page.rows| && Waits(page, at, p) && Unneeded(page.world, page.rows[at])
  {
    hide Parts, SettledChild, LaidOut, FoundChild, Unneeded;
    var children: seq<Child> := [];
    for k := 0 to |group|
      invariant |children| == k
      invariant forall i :: 0 <= i < k ==> Some(children[i]) == ChildOfRow(page.rows[group[i]])
    {
      children := children + [ChildOfRow(page.rows[group[k]]).value];
    }
    var held := ParentSettles(RowsOf(page.world, p), children);
    settled := set k | 0 <= k < |group| && held[k] :: group[k];
    forall k | 0 <= k < |group| ensures held[k] <==> Unneeded(page.world, page.rows[group[k]]) {
      SightRight(page, page.rows[group[k]]);
    }
    forall at | 0 <= at < |page.rows| && Waits(page, at, p) && Unneeded(page.world, page.rows[at])
      ensures at in settled
    {
      var k :| 0 <= k < |group| && group[k] == at;
    }
  }

  // ---------------------------------------------------------------- a whole pass

  /** The rows some parent may still consume, or that are no child's. */
  function Survivors(w: World, rows: seq<Buffered>): seq<Buffered> {
    if rows == [] then []
    else if Unneeded(w, rows[0]) then Survivors(w, rows[1..])
    else [rows[0]] + Survivors(w, rows[1..])
  }

  /** The rows from `i` on that are not doomed. */
  function Undoomed(rows: seq<Buffered>, doomed: set<nat>, i: nat, end: nat): (kept: seq<Buffered>)
    requires i <= end <= |rows|
    ensures |kept| <= end - i
    decreases end - i
  {
    if i == end then []
    else if i in doomed then Undoomed(rows, doomed, i + 1, end)
    else [rows[i]] + Undoomed(rows, doomed, i + 1, end)
  }

  lemma {:induction false} SurvivorsJoin(w: World, a: seq<Buffered>, b: seq<Buffered>)
    ensures Survivors(w, a + b) == Survivors(w, a) + Survivors(w, b)
  {
    if a == [] {
      assert a + b == b;
    } else {
      assert (a + b)[1..] == a[1..] + b;
      SurvivorsJoin(w, a[1..], b);
    }
  }

  /** Deleting unneeded rows loses no survivor. */
  lemma {:induction false} UndoomedSurvive(w: World, rows: seq<Buffered>, doomed: set<nat>, i: nat, end: nat)
    requires i <= end <= |rows| && forall at :: at in doomed ==> at < |rows| && Unneeded(w, rows[at])
    ensures Survivors(w, Undoomed(rows, doomed, i, end)) == Survivors(w, rows[i..end])
    decreases end - i
  {
    if i < end {
      hide Unneeded;
      UndoomedSurvive(w, rows, doomed, i + 1, end);
      assert rows[i..end][1..] == rows[i + 1..end];
      assert ([rows[i]] + Undoomed(rows, doomed, i + 1, end))[1..] == Undoomed(rows, doomed, i + 1, end);
    }
  }

  /** The unneeded rows left behind are those whose reads failed. */
  ghost predicate OnlyUnread(page: Page, kept: seq<Buffered>) {
    forall r :: r in kept && Unneeded(page.world, r) ==> ReadFailed(page, r)
  }

  lemma VerdictRow(page: Page, doomed: set<nat>, decided: nat, i: nat)
    requires Verdict(page, doomed, decided) && i < decided
    ensures decided <= |page.rows|
    ensures i !in doomed ==> OnlyUnread(page, [page.rows[i]])
  {
    hide Unneeded, ReadFailed;
  }

  lemma UndoomedStep(rows: seq<Buffered>, doomed: set<nat>, i: nat, end: nat)
    requires i <= end <= |rows|
    ensures Undoomed(rows, doomed, i, end) ==
      if i == end then []
      else if i in doomed then Undoomed(rows, doomed, i + 1, end)
      else [rows[i]] + Undoomed(rows, doomed, i + 1, end)
  {
  }

  lemma {:induction false} UndoomedUnread(page: Page, doomed: set<nat>, i: nat, decided: nat)
    requires i <= decided <= |page.rows| && Verdict(page, doomed, decided)
    ensures OnlyUnread(page, Undoomed(page.rows, doomed, i, decided))
    decreases decided - i
  {
    hide *;
    if i < decided {
      UndoomedUnread(page, doomed, i + 1, decided);
      UndoomedStep(page.rows, doomed, i, decided);
      if i !in doomed {
        VerdictRow(page, doomed, decided, i);
        JoinUnread(page, [page.rows[i]], Undoomed(page.rows, doomed, i + 1, decided));
      }
    } else {
      UndoomedStep(page.rows, doomed, i, decided);
      NothingKept(page);
    }
  }

  /** Whether a read fails is a matter of the row, not of the page it is on. */
  lemma UnreadAnyPage(a: Page, b: Page, kept: seq<Buffered>)
    requires a.world == b.world && a.unread == b.unread && a.failing == b.failing && OnlyUnread(a, kept)
    ensures OnlyUnread(b, kept)
  {
    forall r | r in kept && Unneeded(b.world, r) ensures ReadFailed(b, r) {
      assert ReadFailed(a, r);
    }
  }

  lemma JoinUnread(page: Page, a: seq<Buffered>, b: seq<Buffered>)
    requires OnlyUnread(page, a) && OnlyUnread(page, b)
    ensures OnlyUnread(page, a + b)
  {
    hide Unneeded, ReadFailed;
  }

  lemma NothingKept(page: Page)
    ensures OnlyUnread(page, []) && Survivors(page.world, []) == []
  {
  }

  /**
   * Sweep the table page after page, each page resumed where the last was cut. Even when every
   * deadline has already passed the pass ends; it deletes only rows no parent can consume, and every
   * one of those whose reads worked.
   */
  method SweepPass(w: World, table: seq<Buffered>, size: nat, late: (nat, nat) -> bool,
                   unread: set<string>, failing: set<string>) returns (kept: seq<Buffered>)
    requires size >= 1
    ensures Survivors(w, kept) == Survivors(w, table)
    ensures OnlyUnread(Page(w, table, unread, failing), kept)
  {
    hide Unneeded, ReadFailed, OnlyUnread, Survivors, Undoomed;
    var rest := table;
    var call: nat := 0;
    kept := [];
    ghost var whole := Page(w, table, unread, failing);
    NothingKept(whole);
    while rest != []
      invariant Survivors(w, kept) + Survivors(w, rest) == Survivors(w, table)
      invariant OnlyUnread(whole, kept)
      decreases |rest|
    {
      var n := if size < |rest| then size else |rest|;
      var page := Page(w, rest[..n], unread, failing);
      var doomed, decided := UnneededChildSignals(page, (k: nat) => late(call, k));
      var done, left := Undoomed(page.rows, doomed, 0, decided), Undoomed(page.rows, doomed, decided, n);
      UndoomedUnread(page, doomed, 0, decided);
      UnreadAnyPage(page, whole, done);
      PageSurvivors(w, rest, n, doomed, decided);
      SurvivorsJoin(w, kept, done);
      JoinUnread(whole, kept, done);
      kept, rest, call := kept + done, left + rest[n..], call + 1;
    }
  }

  /** What a page keeps and leaves holds the survivors of the rows it was cut from. */
  lemma PageSurvivors(w: World, rest: seq<Buffered>, n: nat, doomed: set<nat>, decided: nat)
    requires decided <= n <= |rest| && forall at :: at in doomed ==> at < n && Unneeded(w, rest[..n][at])
    ensures Survivors(w, Undoomed(rest[..n], doomed, 0, decided)) +
            Survivors(w, Undoomed(rest[..n], doomed, decided, n) + rest[n..]) == Survivors(w, rest)
  {
    hide Unneeded;
    var rows := rest[..n];
    UndoomedSurvive(w, rows, doomed, 0, decided);
    UndoomedSurvive(w, rows, doomed, decided, n);
    SurvivorsJoin(w, Undoomed(rows, doomed, decided, n), rest[n..]);
    SurvivorsJoin(w, rows[0..decided], rows[decided..n] + rest[n..]);
    SurvivorsJoin(w, rows[decided..n], rest[n..]);
    assert rows[0..decided] + (rows[decided..n] + rest[n..]) == rest;
  }
}
