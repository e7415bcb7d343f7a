/**
 * A run's checkpoints reduced for display: its wide fans summarized to one node each, and one fan's
 * members a page at a time. This is the simple reading, over the whole checkpoint list.
 */
module RunDetail {
  import opened Basics
  import opened Ordering
  import FanJoin

  datatype Status = Pending | Running | Completed | Failed

  /**
   * A checkpoint, with what the views read of its output: how many values it folds, and whether it is
   * a completion that says `ok: false`.
   */
  datatype Checkpoint = Checkpoint(
    seqNo: int, name: string, status: Status, group: Option<string>, values: nat, notOk: bool,
    attempts: nat, enqueuedAt: int, startedAt: int, finishedAt: int)

  type Timeline = seq<Checkpoint>

  const CHILD_PREFIX := "signal:child:"
  const FOLDED_PREFIX := "fan:"

  predicate IsFolded(cp: Checkpoint) { StartsWith(cp.name, FOLDED_PREFIX) }

  predicate IsChild(cp: Checkpoint) { StartsWith(cp.name, CHILD_PREFIX) }

  /** How many members a checkpoint stands for. */
  function Weight(cp: Checkpoint): nat { if IsFolded(cp) then cp.values else 1 }

  /** A failed step, or a child whose completion reports a failure. */
  predicate IsFailedMember(cp: Checkpoint) {
    cp.status == Failed || (IsChild(cp) && cp.status == Completed && cp.notOk)
  }

  /** The status a member counts under. */
  function Effective(cp: Checkpoint): Status { if IsFailedMember(cp) then Failed else cp.status }

  predicate Terminal(s: Status) { s != Pending && s != Running }

  /** When a member began: a settled one when it started, another when it was enqueued. */
  function Began(cp: Checkpoint): int { if Terminal(cp.status) then cp.startedAt else cp.enqueuedAt }

  datatype FanSummary = FanSummary(
    group: string, caption: string, firstSeq: Option<int>, lastSeq: Option<int>, size: nat,
    total: Option<nat>, notStarted: Option<nat>, failFast: bool, counts: map<Status, nat>,
    startedAt: Option<int>, finishedAt: Option<int>, failures: Timeline)

  const FAILURES_SHOWN: nat := 20

  // ---------------------------------------------------------------- filters and slices

  function Filter(rows: Timeline, keep: Checkpoint -> bool): Timeline {
    if rows == [] then []
    else if keep(rows[0]) then [rows[0]] + Filter(rows[1..], keep)
    else Filter(rows[1..], keep)
  }

  function SeqOf(cp: Checkpoint): int { cp.seqNo }

  ghost predicate InSeqOrder(rows: Timeline) { StrictBy(rows, SeqOf) }

  lemma {:induction false} FilterMember(rows: Timeline, keep: Checkpoint -> bool, cp: Checkpoint)
    ensures cp in Filter(rows, keep) <==> cp in rows && keep(cp)
  {
    if rows != [] {
      FilterMember(rows[1..], keep, cp);
      assert rows == [rows[0]] + rows[1..];
    }
  }

  lemma {:induction false} FilterSnoc(rows: Timeline, keep: Checkpoint -> bool, cp: Checkpoint)
    ensures Filter(rows + [cp], keep) == Filter(rows, keep) + if keep(cp) then [cp] else []
  {
    if rows == [] {
      assert [] + [cp] == [cp] && [cp][1..] == [];
    } else {
      FilterSnoc(rows[1..], keep, cp);
      assert (rows + [cp])[1..] == rows[1..] + [cp];
    }
  }

  /** A filter keeps the order. */
  lemma {:induction false} FilterOrdered(rows: Timeline, keep: Checkpoint -> bool)
    requires InSeqOrder(rows)
    ensures InSeqOrder(Filter(rows, keep))
  {
    if rows != [] {
      var rest := Filter(rows[1..], keep);
      FilterOrdered(rows[1..], keep);
      forall k | 0 <= k < |rest| ensures rows[0].seqNo < rest[k].seqNo {
        assert rest[k] in rest;
        FilterMember(rows[1..], keep, rest[k]);
        var i :| 0 <= i < |rows[1..]| && rows[1..][i] == rest[k];
        assert rows[i + 1] == rest[k];
      }
    }
  }

  // ---------------------------------------------------------------- what a summary says

  function WeightOf(rows: Timeline, statuses: set<Status>): nat {
    if rows == [] then 0
    else WeightOf(rows[..|rows| - 1], statuses) +
         if Effective(rows[|rows| - 1]) in statuses then Weight(rows[|rows| - 1]) else 0
  }

  const ALL_STATUSES: set<Status> := {Pending, Running, Completed, Failed}

  predicate Occurs(rows: Timeline, s: Status) {
    exists i :: 0 <= i < |rows| && Effective(rows[i]) == s
  }

  /** Members by status, and all of them. */
  ghost predicate Tallies(rows: Timeline, counts: map<Status, nat>, size: nat) {
    && (forall s :: s in counts <==> Occurs(rows, s))
    && (forall s :: s in counts ==> counts[s] == WeightOf(rows, {s}))
    && size == WeightOf(rows, ALL_STATUSES)
  }

  ghost predicate Least(values: set<int>, v: Option<int>) {
    if v.None? then values == {} else v.value in values && forall x :: x in values ==> v.value <= x
  }

  ghost predicate Greatest(values: set<int>, v: Option<int>) {
    if v.None? then values == {} else v.value in values && forall x :: x in values ==> x <= v.value
  }

  function Seqs(rows: Timeline): set<int> { set cp | cp in rows :: cp.seqNo }

  function Begins(rows: Timeline): set<int> { set cp | cp in rows :: Began(cp) }

  function Finishes(rows: Timeline): set<int> { set cp | cp in rows && Terminal(cp.status) :: cp.finishedAt }

  function LabelOf(members: Timeline): string {
    if exists cp :: cp in members && (IsChild(cp) || IsFolded(cp)) then "child runs"
    else
      var first := if members == [] then "" else members[0].name;
      if forall cp :: cp in members ==> cp.name == first then first else "steps"
  }

  function DeclaredSize(group: string): Option<nat> {
    var parsed := FanJoin.ParseFanGroup(Some(group));
    if parsed.Some? then parsed.value.size else None
  }

  function DeclaredFailFast(group: string): bool {
    var parsed := FanJoin.ParseFanGroup(Some(group));
    parsed.Some? && parsed.value.failFast
  }

  function NotStarted(group: string, size: nat): Option<nat> {
    if DeclaredSize(group).None? then None else Some(Max(0, DeclaredSize(group).value - size))
  }

  /** `s` is the summary of the fan `group`, whose members are `members` in seq order. */
  ghost predicate Summarizes(group: string, members: Timeline, s: FanSummary) {
    && s.group == group && s.caption == LabelOf(members)
    && Least(Seqs(members), s.firstSeq) && Greatest(Seqs(members), s.lastSeq)
    && Tallies(members, s.counts, s.size)
    && s.total == DeclaredSize(group) && s.notStarted == NotStarted(group, s.size)
    && s.failFast == DeclaredFailFast(group)
    && Least(Begins(members), s.startedAt) && Greatest(Finishes(members), s.finishedAt)
    && s.failures == First(FAILURES_SHOWN, Filter(members, IsFailedMember))
  }

  /** A fan has only one summary. */
  lemma SummaryUnique(group: string, members: Timeline, a: FanSummary, b: FanSummary)
    requires Summarizes(group, members, a) && Summarizes(group, members, b)
    ensures a == b
  {
    BoundsUnique(Seqs(members), a.firstSeq, b.firstSeq, a.lastSeq, b.lastSeq);
    BoundsUnique(Begins(members), a.startedAt, b.startedAt, None, None);
    BoundsUnique(Finishes(members), None, None, a.finishedAt, b.finishedAt);
    TalliesUnique(members, a.counts, a.size, b.counts, b.size);
    hide Least, Greatest, Tallies, Seqs, Begins, Finishes, LabelOf, DeclaredSize, DeclaredFailFast, NotStarted, Filter;
  }

  lemma BoundsUnique(values: set<int>, a: Option<int>, b: Option<int>, c: Option<int>, d: Option<int>)
    ensures Least(values, a) && Least(values, b) ==> a == b
    ensures Greatest(values, c) && Greatest(values, d) ==> c == d
  {
    if Least(values, a) && Least(values, b) && a.Some? && b.Some? { assert a.value <= b.value <= a.value; }
    if Greatest(values, c) && Greatest(values, d) && c.Some? && d.Some? { assert c.value <= d.value <= c.value; }
  }

  lemma TalliesUnique(rows: Timeline, a: map<Status, nat>, m: nat, b: map<Status, nat>, n: nat)
    requires Tallies(rows, a, m) && Tallies(rows, b, n)
    ensures a == b && m == n
  {
    hide Occurs, WeightOf;
    assert a.Keys == b.Keys;
  }

  lemma BoundsAdd(values: set<int>, v: Option<int>, x: int)
    ensures Least(values, v) ==> Least(values + {x}, Some(if v.Some? then Min(v.value, x) else x))
    ensures Greatest(values, v) ==> Greatest(values + {x}, Some(if v.Some? then Max(v.value, x) else x))
  {
  }

  // ---------------------------------------------------------------- summarizing one fan

  function Added(counts: map<Status, nat>, s: Status, n: nat): map<Status, nat> {
    counts[s := (if s in counts then counts[s] else 0) + n]
  }

  lemma WeightSnoc(rows: Timeline, cp: Checkpoint, statuses: set<Status>)
    ensures WeightOf(rows + [cp], statuses)
      == WeightOf(rows, statuses) + if Effective(cp) in statuses then Weight(cp) else 0
  {
    assert (rows + [cp])[..|rows|] == rows;
  }

  lemma OccursSnoc(rows: Timeline, cp: Checkpoint, s: Status)
    ensures Occurs(rows + [cp], s) <==> Occurs(rows, s) || s == Effective(cp)
  {
    var all := rows + [cp];
    assert forall i :: 0 <= i < |rows| ==> all[i] == rows[i];
    assert all[|rows|] == cp;
  }

  lemma TalliesAdd(rows: Timeline, counts: map<Status, nat>, size: nat, cp: Checkpoint)
    requires Tallies(rows, counts, size)
    ensures Tallies(rows + [cp], Added(counts, Effective(cp), Weight(cp)), size + Weight(cp))
  {
    hide Effective, Weight, Occurs, WeightOf;
    forall s ensures Occurs(rows + [cp], s) <==> Occurs(rows, s) || s == Effective(cp) { OccursSnoc(rows, cp, s); }
    forall s ensures WeightOf(rows + [cp], {s}) == WeightOf(rows, {s}) + if s == Effective(cp) then Weight(cp) else 0 {
      WeightSnoc(rows, cp, {s});
    }
    WeightSnoc(rows, cp, ALL_STATUSES);
    assert Effective(cp) in ALL_STATUSES by { Everything(Effective(cp)); }
    if Effective(cp) !in counts { NoneOccurs(rows, Effective(cp)); }
  }

  lemma Everything(s: Status)
    ensures s in ALL_STATUSES
  {
  }

  lemma {:induction false} NoneOccurs(rows: Timeline, s: Status)
    requires !Occurs(rows, s)
    ensures WeightOf(rows, {s}) == 0
  {
    if rows != [] {
      var front := rows[..|rows| - 1];
      assert forall i :: 0 <= i < |front| ==> front[i] == rows[i];
      NoneOccurs(front, s);
    }
  }

  lemma NoMembers()
    ensures Least(Seqs([]), None) && Least(Begins([]), None)
    ensures Greatest(Seqs([]), None) && Greatest(Finishes([]), None)
    ensures Tallies([], map[], 0) && Filter([], IsFailedMember) == []
  {
  }

  lemma SetsGrow(rows: Timeline, cp: Checkpoint)
    ensures Seqs(rows + [cp]) == Seqs(rows) + {cp.seqNo} && Begins(rows + [cp]) == Begins(rows) + {Began(cp)}
    ensures Finishes(rows + [cp]) == Finishes(rows) + if Terminal(cp.status) then {cp.finishedAt} else {}
  {
    var all := rows + [cp];
    assert forall x :: x in all <==> x in rows || x == cp;
    hide Began, Terminal;
  }

  /** Summarize one fan's members, in seq order. */
  method SummarizeFan(group: string, members: Timeline) returns (s: FanSummary)
    ensures Summarizes(group, members, s) && s.group == group
  {
    hide Tallies, FanJoin.ParseFanGroup, IsFailedMember, Weight, IsFolded, IsChild, Least, Greatest, Seqs, Begins,
         Finishes, LabelOf, DeclaredSize, DeclaredFailFast, NotStarted, Filter;
    var counts: map<Status, nat> := map[];
    var size: nat := 0;
    var failures: Timeline := [];
    var startedAt: Option<int>, finishedAt: Option<int> := None, None;
    var firstSeq: Option<int>, lastSeq: Option<int> := None, None;
    NoMembers();
    assert members[..0] == [];
    for i := 0 to |members|
      invariant Least(Seqs(members[..i]), firstSeq) && Greatest(Seqs(members[..i]), lastSeq)
      invariant Tallies(members[..i], counts, size)
      invariant failures == First(FAILURES_SHOWN, Filter(members[..i], IsFailedMember))
      invariant Least(Begins(members[..i]), startedAt) && Greatest(Finishes(members[..i]), finishedAt)
    {
      var cp, seen := members[i], members[..i];
      assert members[..i + 1] == seen + [cp];
      SetsGrow(seen, cp);
      BoundsAdd(Seqs(seen), firstSeq, cp.seqNo);
      BoundsAdd(Seqs(seen), lastSeq, cp.seqNo);
      BoundsAdd(Begins(seen), startedAt, Began(cp));
      BoundsAdd(Finishes(seen), finishedAt, cp.finishedAt);
      TalliesAdd(seen, counts, size, cp);
      TakeFailed(seen, cp);
      EffectiveFailed(cp);
      firstSeq := Some(if firstSeq.Some? then Min(firstSeq.value, cp.seqNo) else cp.seqNo);
      lastSeq := Some(if lastSeq.Some? then Max(lastSeq.value, cp.seqNo) else cp.seqNo);
      size := size + Weight(cp);
      var status := Effective(cp);
      counts := Added(counts, status, Weight(cp));
      if status == Failed && |failures| < FAILURES_SHOWN { failures := failures + [cp]; }
      if Terminal(cp.status) {
        if startedAt.None? || cp.startedAt < startedAt.value { startedAt := Some(cp.startedAt); }
        if finishedAt.None? || cp.finishedAt > finishedAt.value { finishedAt := Some(cp.finishedAt); }
      } else {
        if startedAt.None? || cp.enqueuedAt < startedAt.value { startedAt := Some(cp.enqueuedAt); }
        assert Finishes(seen) + {} == Finishes(seen);
      }
    }
    assert members[..|members|] == members;
    s := FanSummary(group, LabelOf(members), firstSeq, lastSeq, size, DeclaredSize(group), NotStarted(group, size),
                    DeclaredFailFast(group), counts, startedAt, finishedAt, failures);
  }

  lemma EffectiveFailed(cp: Checkpoint)
    ensures Effective(cp) == Failed <==> IsFailedMember(cp)
  {
  }

  /** The first failures, once one more member has been seen. */
  lemma TakeFailed(rows: Timeline, cp: Checkpoint)
    ensures var before := First(FAILURES_SHOWN, Filter(rows, IsFailedMember));
      First(FAILURES_SHOWN, Filter(rows + [cp], IsFailedMember)) ==
        if IsFailedMember(cp) && |before| < FAILURES_SHOWN then before + [cp] else before
  {
    FilterSnoc(rows, IsFailedMember, cp);
    hide Filter, IsFailedMember;
    assert Filter(rows, IsFailedMember) + [] == Filter(rows, IsFailedMember);
  }

  // ---------------------------------------------------------------- summarizing a run

  function MembersOf(rows: Timeline, group: string): Timeline {
    Filter(rows, (cp: Checkpoint) => cp.group == Some(group))
  }

  /** More members than `over`, or declared wider than that. */
  predicate Wide(rows: Timeline, group: string, over: int) {
    && MembersOf(rows, group) != []
    && (|MembersOf(rows, group)| > over ||
        (if DeclaredSize(group).Some? then DeclaredSize(group).value else 0) > over)
  }

  predicate ListedAlone(rows: Timeline, over: int, cp: Checkpoint) {
    cp.group.None? || !Wide(rows, cp.group.value, over)
  }

  function FirstSeqOf(s: FanSummary): int { if s.firstSeq.Some? then s.firstSeq.value else 0 }

  /** The checkpoints listed one by one, and one summary per wide fan, in seq order. */
  ghost predicate DetailOf(rows: Timeline, over: int, timeline: Timeline, fans: seq<FanSummary>) {
    && timeline == Filter(rows, (cp: Checkpoint) => ListedAlone(rows, over, cp))
    && (forall s :: s in fans ==> Wide(rows, s.group, over) && Summarizes(s.group, MembersOf(rows, s.group), s))
    && (forall g :: Wide(rows, g, over) ==> exists s :: s in fans && s.group == g)
    && StrictBy(fans, FirstSeqOf)
  }

  /** A run has only one such detail. */
  lemma DetailUnique(rows: Timeline, over: int, t: Timeline, a: seq<FanSummary>, u: Timeline, b: seq<FanSummary>)
    requires DetailOf(rows, over, t, a) && DetailOf(rows, over, u, b)
    ensures t == u && a == b
  {
    hide Wide, Summarizes, Filter;
    forall s ensures s in a <==> s in b {
      if s in a {
        var other :| other in b && other.group == s.group;
        SummaryUnique(s.group, MembersOf(rows, s.group), s, other);
      }
      if s in b {
        var other :| other in a && other.group == s.group;
        SummaryUnique(s.group, MembersOf(rows, s.group), s, other);
      }
    }
    StrictUnique(a, b, FirstSeqOf);
  }

  /** The rows seen so far, by group; groups in the order they were met. */
  ghost predicate GroupedBy(rows: Timeline, byGroup: map<string, Timeline>, order: seq<string>) {
    && (forall g :: g in byGroup <==> g in order)
    && (forall g :: g in byGroup ==> byGroup[g] == MembersOf(rows, g))
    && (forall g :: MembersOf(rows, g) != [] <==> g in byGroup)
    && (forall i, k :: 0 <= i < k < |order| ==> order[i] != order[k])
  }

  lemma MembersSnoc(rows: Timeline, cp: Checkpoint, g: string)
    ensures MembersOf(rows + [cp], g) == MembersOf(rows, g) + if cp.group == Some(g) then [cp] else []
  {
    FilterSnoc(rows, (x: Checkpoint) => x.group == Some(g), cp);
  }

  lemma GroupedByAdd(rows: Timeline, cp: Checkpoint, byGroup: map<string, Timeline>, order: seq<string>)
    requires GroupedBy(rows, byGroup, order)
    ensures cp.group.None? ==> GroupedBy(rows + [cp], byGroup, order)
    ensures cp.group.Some? && cp.group.value in byGroup ==>
      GroupedBy(rows + [cp], byGroup[cp.group.value := byGroup[cp.group.value] + [cp]], order)
    ensures cp.group.Some? && cp.group.value !in byGroup ==>
      GroupedBy(rows + [cp], byGroup[cp.group.value := [cp]], order + [cp.group.value])
  {
    hide MembersOf;
    forall g ensures MembersOf(rows + [cp], g) == MembersOf(rows, g) + if cp.group == Some(g) then [cp] else [] {
      MembersSnoc(rows, cp, g);
    }
  }

  /** The fans of two groups start at different seqs. */
  lemma FansApart(rows: Timeline, g: string, h: string, s: FanSummary, t: FanSummary)
    requires InSeqOrder(rows) && g != h && MembersOf(rows, g) != [] && MembersOf(rows, h) != []
    requires Summarizes(g, MembersOf(rows, g), s) && Summarizes(h, MembersOf(rows, h), t)
    ensures FirstSeqOf(s) != FirstSeqOf(t)
  {
    var x := FirstMember(MembersOf(rows, g), s.firstSeq);
    var y := FirstMember(MembersOf(rows, h), t.firstSeq);
    FilterMember(rows, (cp: Checkpoint) => cp.group == Some(g), x);
    FilterMember(rows, (cp: Checkpoint) => cp.group == Some(h), y);
    var i :| 0 <= i < |rows| && rows[i] == x;
    var k :| 0 <= k < |rows| && rows[k] == y;
    assert SeqOf(x) == x.seqNo && SeqOf(y) == y.seqNo;
  }

  lemma FirstMember(members: Timeline, first: Option<int>) returns (cp: Checkpoint)
    requires members != [] && Least(Seqs(members), first)
    ensures cp in members && first == Some(cp.seqNo)
  {
    assert members[0].seqNo in Seqs(members);
    assert first.Some?;
    cp :| cp in members && cp.seqNo == first.value;
  }

  /**
   * Split a run's timeline into the checkpoints listed one by one and the fans drawn as one node each.
   */
  method SummarizeTimeline(rows: Timeline, over: int) returns (timeline: Timeline, fans: seq<FanSummary>)
    requires InSeqOrder(rows)
    ensures DetailOf(rows, over, timeline, fans)
  {
    hide MembersOf, Filter, Summarizes, DeclaredSize;
    var byGroup: map<string, Timeline>, order: seq<string> := map[], [];
    NoGroups();
    assert rows[..0] == [];
    for i := 0 to |rows|
      invariant GroupedBy(rows[..i], byGroup, order)
    {
      var cp := rows[i];
      assert rows[..i + 1] == rows[..i] + [cp];
      GroupedByAdd(rows[..i], cp, byGroup, order);
      if cp.group.None? { continue; }
      if cp.group.value in byGroup {
        byGroup := byGroup[cp.group.value := byGroup[cp.group.value] + [cp]];
      } else {
        byGroup, order := byGroup[cp.group.value := [cp]], order + [cp.group.value];
      }
    }
    assert rows[..|rows|] == rows;
    var summarized: set<string>, found: seq<FanSummary> := {}, [];
    for i := 0 to |order|
      invariant forall g :: g in summarized <==> g in order[..i] && Wide(rows, g, over)
      invariant forall s :: s in found ==> s.group in summarized && Summarizes(s.group, MembersOf(rows, s.group), s)
      invariant forall g :: g in summarized ==> exists s :: s in found && s.group == g
      invariant DistinctBy(found, FirstSeqOf)
    {
      var group := order[i];
      assert order[..i + 1] == order[..i] + [group];
      assert group in order && group !in order[..i];
      var members := byGroup[group];
      var declared := DeclaredSize(group);
      if |members| <= over && (if declared.Some? then declared.value else 0) <= over { continue; }
      summarized := summarized + {group};
      var s := SummarizeFan(group, members);
      forall t | t in found ensures FirstSeqOf(t) != FirstSeqOf(s) { FansApart(rows, t.group, group, t, s); }
      assert forall t :: t in found + [s] <==> t in found || t == s;
      found := found + [s];
    }
    assert order[..|order|] == order;
    assert forall g :: g in summarized <==> Wide(rows, g, over);
    if found == [] {
      NothingWide(rows, over);
      return rows, [];
    }
    timeline := Filter(rows, (cp: Checkpoint) => cp.group.None? || cp.group.value !in summarized);
    FilterSame(rows, (cp: Checkpoint) => cp.group.None? || cp.group.value !in summarized,
               (cp: Checkpoint) => ListedAlone(rows, over, cp));
    fans := SortedBy(found, FirstSeqOf);
    SortedStrict(found, FirstSeqOf);
    forall s ensures s in fans <==> s in found { SortedMember(found, ByKey(FirstSeqOf), s); }
  }

  lemma NoGroups()
    ensures GroupedBy([], map[], [])
  {
  }

  lemma {:induction false} FilterSame(rows: Timeline, p: Checkpoint -> bool, q: Checkpoint -> bool)
    requires forall cp :: cp in rows ==> p(cp) == q(cp)
    ensures Filter(rows, p) == Filter(rows, q)
  {
    if rows != [] { FilterSame(rows[1..], p, q); }
  }

  lemma {:induction false} FilterAll(rows: Timeline, p: Checkpoint -> bool)
    requires forall cp :: cp in rows ==> p(cp)
    ensures Filter(rows, p) == rows
  {
    if rows != [] { FilterAll(rows[1..], p); }
  }

  lemma NothingWide(rows: Timeline, over: int)
    requires forall g :: !Wide(rows, g, over)
    ensures DetailOf(rows, over, rows, [])
  {
    hide Wide;
    FilterAll(rows, (cp: Checkpoint) => ListedAlone(rows, over, cp));
  }
}
