/**
 * What a run's detail and a fan's page show, said outright: by names, statuses, groups and seqs, without
 * the functions the summaries are defined with.
 */
module RunDetailMeaning {
  import opened Basics
  import opened Ordering
  import FanJoin
  import opened RunDetail
  import opened RunDetailStore
  import opened RunDetailFromStore
  import opened RunDetailPages

  // ---------------------------------------------------------------- what one checkpoint counts as

  /** A fold stands for as many members as it folded, any other checkpoint for one. */
  function StandsFor(cp: Checkpoint): nat { if StartsWith(cp.name, "fan:") then cp.values else 1 }

  /** A failed step, or the completed signal of a child whose completion says it failed. */
  predicate HasFailed(cp: Checkpoint) {
    cp.status == Failed || (StartsWith(cp.name, "signal:child:") && cp.status == Completed && cp.notOk)
  }

  function CountsUnder(cp: Checkpoint): Status { if HasFailed(cp) then Failed else cp.status }

  function Total(rows: Timeline, s: Status): nat {
    if rows == [] then 0
    else Total(rows[..|rows| - 1], s) + if CountsUnder(rows[|rows| - 1]) == s then StandsFor(rows[|rows| - 1]) else 0
  }

  lemma CountsRight(cp: Checkpoint)
    ensures Effective(cp) == CountsUnder(cp) && Weight(cp) == StandsFor(cp) && (IsFailedMember(cp) <==> HasFailed(cp))
    ensures IsChild(cp) <==> StartsWith(cp.name, "signal:child:")
    ensures IsFolded(cp) <==> StartsWith(cp.name, "fan:")
  {
  }

  lemma {:induction false} TotalRight(rows: Timeline, s: Status)
    ensures WeightOf(rows, {s}) == Total(rows, s)
  {
    if rows != [] {
      TotalRight(rows[..|rows| - 1], s);
      CountsRight(rows[|rows| - 1]);
    }
  }

  lemma {:induction false} SizeRight(rows: Timeline)
    ensures WeightOf(rows, ALL_STATUSES) ==
      Total(rows, Pending) + Total(rows, Running) + Total(rows, Completed) + Total(rows, Failed)
  {
    if rows != [] {
      SizeRight(rows[..|rows| - 1]);
      CountsRight(rows[|rows| - 1]);
      hide StandsFor, HasFailed, Effective, Weight, CountsUnder;
    }
  }

  // ---------------------------------------------------------------- a fan's summary

  /** The members by status, a status being listed exactly when some member counts under it; and all of them. */
  lemma CountsMean(group: string, members: Timeline, s: FanSummary)
    requires Summarizes(group, members, s)
    ensures forall st :: st in s.counts <==> exists i :: 0 <= i < |members| && CountsUnder(members[i]) == st
    ensures forall st :: st in s.counts ==> s.counts[st] == Total(members, st)
    ensures s.size == Total(members, Pending) + Total(members, Running) + Total(members, Completed)
      + Total(members, Failed)
  {
    hide Least, Greatest, Filter, Total, WeightOf, Effective, CountsUnder;
    SizeRight(members);
    forall cp ensures Effective(cp) == CountsUnder(cp) { CountsRight(cp); }
    forall st ensures WeightOf(members, {st}) == Total(members, st) { TotalRight(members, st); }
    forall st ensures Occurs(members, st) <==> exists i :: 0 <= i < |members| && CountsUnder(members[i]) == st {
      if i :| 0 <= i < |members| && Effective(members[i]) == st { assert CountsUnder(members[i]) == st; }
      if i :| 0 <= i < |members| && CountsUnder(members[i]) == st { assert Effective(members[i]) == st; }
    }
  }

  predicate Settled(cp: Checkpoint) { cp.status == Completed || cp.status == Failed }

  /** When a member began: when it started, once settled; until then, when it was enqueued. */
  function BeganAt(cp: Checkpoint): int { if Settled(cp) then cp.startedAt else cp.enqueuedAt }

  /** `v` is the least of these members' values, or nothing when there is no such member. */
  ghost predicate IsLeast(members: Timeline, counts: Checkpoint -> bool, value: Checkpoint -> int, v: Option<int>) {
    match v
    case None => forall i :: 0 <= i < |members| ==> !counts(members[i])
    case Some(x) =>
      && (forall i :: 0 <= i < |members| && counts(members[i]) ==> x <= value(members[i]))
      && (exists i :: 0 <= i < |members| && counts(members[i]) && x == value(members[i]))
  }

  ghost predicate IsGreatest(members: Timeline, counts: Checkpoint -> bool, value: Checkpoint -> int, v: Option<int>) {
    IsLeast(members, counts, (cp: Checkpoint) => -value(cp), if v.None? then None else Some(-v.value))
  }

  /** The seqs and times it spans. */
  lemma BoundsMean(group: string, members: Timeline, s: FanSummary)
    requires Summarizes(group, members, s)
    ensures IsLeast(members, cp => true, (cp: Checkpoint) => cp.seqNo, s.firstSeq)
    ensures IsGreatest(members, cp => true, (cp: Checkpoint) => cp.seqNo, s.lastSeq)
    ensures IsLeast(members, cp => true, BeganAt, s.startedAt)
    ensures IsGreatest(members, Settled, (cp: Checkpoint) => cp.finishedAt, s.finishedAt)
  {
    hide Tallies, Filter;
    forall i | 0 <= i < |members|
      ensures members[i].seqNo in Seqs(members) && BeganAt(members[i]) in Begins(members)
      ensures Settled(members[i]) ==> members[i].finishedAt in Finishes(members)
    {
      assert members[i] in members;
      assert Began(members[i]) == BeganAt(members[i]);
    }
    LeastSeq(members, s.firstSeq);
    GreatestSeq(members, s.lastSeq);
    LeastBegan(members, s.startedAt);
    GreatestFinished(members, s.finishedAt);
  }

  lemma LeastSeq(members: Timeline, v: Option<int>)
    requires Least(Seqs(members), v)
    ensures IsLeast(members, cp => true, (cp: Checkpoint) => cp.seqNo, v)
  {
    forall i | 0 <= i < |members| ensures members[i].seqNo in Seqs(members) { assert members[i] in members; }
    if v.Some? {
      var cp :| cp in members && cp.seqNo == v.value;
      var i :| 0 <= i < |members| && members[i] == cp;
    }
  }

  lemma GreatestSeq(members: Timeline, v: Option<int>)
    requires Greatest(Seqs(members), v)
    ensures IsGreatest(members, cp => true, (cp: Checkpoint) => cp.seqNo, v)
  {
    forall i | 0 <= i < |members| ensures members[i].seqNo in Seqs(members) { assert members[i] in members; }
    if v.Some? {
      var cp :| cp in members && cp.seqNo == v.value;
      var i :| 0 <= i < |members| && members[i] == cp;
    }
  }

  lemma LeastBegan(members: Timeline, v: Option<int>)
    requires Least(Begins(members), v)
    ensures IsLeast(members, cp => true, BeganAt, v)
  {
    forall i | 0 <= i < |members| ensures BeganAt(members[i]) in Begins(members) {
      assert members[i] in members && Began(members[i]) == BeganAt(members[i]);
    }
    if v.Some? {
      var cp :| cp in members && Began(cp) == v.value;
      var i :| 0 <= i < |members| && members[i] == cp;
      assert BeganAt(members[i]) == v.value;
    }
  }

  lemma GreatestFinished(members: Timeline, v: Option<int>)
    requires Greatest(Finishes(members), v)
    ensures IsGreatest(members, Settled, (cp: Checkpoint) => cp.finishedAt, v)
  {
    forall i | 0 <= i < |members| && Settled(members[i]) ensures members[i].finishedAt in Finishes(members) {
      assert members[i] in members;
    }
    if v.Some? {
      var cp :| cp in members && Terminal(cp.status) && cp.finishedAt == v.value;
      var i :| 0 <= i < |members| && members[i] == cp;
      assert Settled(members[i]);
    }
  }

  predicate OfChildren(cp: Checkpoint) { StartsWith(cp.name, "signal:child:") || StartsWith(cp.name, "fan:") }

  /** It is captioned as child runs when it has any; else by its members' name, when they share one; else as steps. */
  lemma CaptionMeans(group: string, members: Timeline, s: FanSummary)
    requires Summarizes(group, members, s) && members != []
    ensures (exists i :: 0 <= i < |members| && OfChildren(members[i])) ==> s.caption == "child runs"
    ensures (forall i :: 0 <= i < |members| ==> !OfChildren(members[i]) && members[i].name == members[0].name) ==>
      s.caption == members[0].name
    ensures (forall i :: 0 <= i < |members| ==> !OfChildren(members[i])) ==>
      (exists i :: 0 <= i < |members| && members[i].name != members[0].name) ==> s.caption == "steps"
  {
    hide Least, Greatest, Tallies, Filter;
    forall cp ensures IsChild(cp) || IsFolded(cp) <==> OfChildren(cp) { CountsRight(cp); }
    hide IsChild, IsFolded, OfChildren;
    if i :| 0 <= i < |members| && OfChildren(members[i]) {
      assert members[i] in members;
    }
    if i :| 0 <= i < |members| && members[i].name != members[0].name {
      assert members[i] in members;
    }
  }

  /** What its group declares: how many it is to have, how many of those never started, and whether it fails fast. */
  lemma DeclarationMeans(first: nat, size: nat, mode: FanJoin.Mode, members: Timeline, s: FanSummary)
    requires s.group in [FanJoin.AllGroup(first, size, mode), FanJoin.StepFanGroup(first, size, mode)]
    requires Summarizes(s.group, members, s)
    ensures s.total == Some(size) && (s.failFast <==> mode == FanJoin.FailFast)
    ensures s.notStarted == Some(if size <= s.size then 0 else size - s.size)
  {
    hide Least, Greatest, Tallies, Filter, LabelOf, FanJoin.ParseFanGroup, FanJoin.AllGroup, FanJoin.StepFanGroup;
    FanJoin.GroupRoundTrip(first, size, mode);
  }

  /** A group that declares nothing says nothing of that. */
  lemma NothingDeclared(group: string, members: Timeline, s: FanSummary)
    requires FanJoin.ParseFanGroup(Some(group)).None? && Summarizes(group, members, s)
    ensures s.total == None && s.notStarted == None && !s.failFast
  {
    hide Least, Greatest, Tallies, Filter, LabelOf, FanJoin.ParseFanGroup;
  }

  /** The failures it shows: the first twenty failed members, in seq order. */
  lemma FailuresMean(group: string, members: Timeline, s: FanSummary)
    requires Summarizes(group, members, s) && InSeqOrder(members)
    ensures |s.failures| <= 20 && InSeqOrder(s.failures)
    ensures forall cp :: cp in s.failures ==> cp in members && HasFailed(cp)
    ensures forall cp :: cp in members && HasFailed(cp) && cp !in s.failures ==>
      |s.failures| == 20 && forall shown :: shown in s.failures ==> shown.seqNo < cp.seqNo
  {
    hide Least, Greatest, Tallies, LabelOf;
    var failed := Filter(members, IsFailedMember);
    FilterOrdered(members, IsFailedMember);
    forall cp ensures cp in failed <==> cp in members && HasFailed(cp) {
      FilterMember(members, IsFailedMember, cp);
      CountsRight(cp);
    }
    FirstShown(failed, s.failures);
    hide Filter, HasFailed;
  }

  lemma FirstShown(failed: Timeline, shown: Timeline)
    requires InSeqOrder(failed) && shown == First(20, failed)
    ensures |shown| <= 20 && InSeqOrder(shown)
    ensures forall cp :: cp in shown ==> cp in failed
    ensures forall cp :: cp in failed && cp !in shown ==> |shown| == 20
    ensures forall cp, other :: cp in failed && cp !in shown && other in shown ==> other.seqNo < cp.seqNo
  {
    assert forall i :: 0 <= i < |shown| ==> shown[i] == failed[i] && failed[i] in shown;
    forall cp, other | cp in failed && cp !in shown && other in shown
      ensures |shown| == 20 && other.seqNo < cp.seqNo
    {
      ShownBefore(failed, shown, cp, other);
    }
    if cp :| cp in failed && cp !in shown { ShownFull(failed, shown, cp); }
  }

  lemma ShownFull(failed: Timeline, shown: Timeline, cp: Checkpoint)
    requires shown == First(20, failed) && cp in failed && cp !in shown
    ensures |shown| == 20
  {
    var i :| 0 <= i < |failed| && failed[i] == cp;
    assert i >= |shown|;
  }

  lemma ShownBefore(failed: Timeline, shown: Timeline, cp: Checkpoint, other: Checkpoint)
    requires InSeqOrder(failed) && shown == First(20, failed) && cp in failed && cp !in shown && other in shown
    ensures |shown| == 20 && other.seqNo < cp.seqNo
  {
    var i :| 0 <= i < |failed| && failed[i] == cp;
    var k :| 0 <= k < |shown| && shown[k] == other;
    assert i >= |shown|;
    assert SeqOf(failed[k]) < SeqOf(failed[i]);
  }

  // ---------------------------------------------------------------- a run's detail

  predicate InGroup(cp: Checkpoint, group: string) { cp.group == Some(group) }

  /** A group's members are the rows of that group, in order. */
  lemma MembersMean(rows: Timeline, group: string, cp: Checkpoint)
    ensures cp in MembersOf(rows, group) <==> cp in rows && InGroup(cp, group)
    ensures InSeqOrder(rows) ==> InSeqOrder(MembersOf(rows, group))
  {
    FilterMember(rows, (x: Checkpoint) => x.group == Some(group), cp);
    if InSeqOrder(rows) { FilterOrdered(rows, (x: Checkpoint) => x.group == Some(group)); }
  }

  /** A fan is summarized when it has members and either more of them than `over` or more declared. */
  lemma WideMeans(rows: Timeline, group: string, over: int)
    ensures Wide(rows, group, over) <==>
      MembersOf(rows, group) != [] && (|MembersOf(rows, group)| > over || DeclaredIn(group) > over)
  {
    hide MembersOf, FanJoin.ParseFanGroup;
  }

  /** The size a group declares, or none. */
  function DeclaredIn(group: string): nat {
    match FanJoin.ParseFanGroup(Some(group))
    case None => 0
    case Some(fan) => match fan.size { case None => 0 case Some(size) => size }
  }

  lemma WideHasFirst(rows: Timeline, over: int, s: FanSummary)
    requires Wide(rows, s.group, over) && Summarizes(s.group, MembersOf(rows, s.group), s)
    ensures s.firstSeq.Some?
  {
    hide Tallies, Filter, LabelOf, FanJoin.ParseFanGroup;
    assert MembersOf(rows, s.group)[0].seqNo in Seqs(MembersOf(rows, s.group));
  }

  /** What is listed one by one is what is in no wide fan, in order; each wide fan has one summary, in seq order. */
  lemma DetailMeans(rows: Timeline, over: int, timeline: Timeline, fans: seq<FanSummary>)
    requires InSeqOrder(rows) && DetailOf(rows, over, timeline, fans)
    ensures InSeqOrder(timeline)
    ensures forall cp :: cp in timeline <==> cp in rows && (cp.group.Some? ==> !Wide(rows, cp.group.value, over))
    ensures forall g :: Wide(rows, g, over) <==> exists s :: s in fans && s.group == g
    ensures forall s :: s in fans ==> s.firstSeq.Some?
    ensures forall i, k :: 0 <= i < k < |fans| ==> fans[i].firstSeq.value < fans[k].firstSeq.value
    ensures forall s :: s in fans ==> Summarizes(s.group, MembersOf(rows, s.group), s)
  {
    hide Wide, Summarizes, MembersOf;
    forall s | s in fans ensures s.firstSeq.Some? { WideHasFirst(rows, over, s); }
    assert forall i, k :: 0 <= i < k < |fans| ==> FirstSeqOf(fans[i]) < FirstSeqOf(fans[k]);
    FilterOrdered(rows, (cp: Checkpoint) => ListedAlone(rows, over, cp));
    forall cp ensures cp in timeline <==> cp in rows && (cp.group.Some? ==> !Wide(rows, cp.group.value, over)) {
      FilterMember(rows, (x: Checkpoint) => ListedAlone(rows, over, x), cp);
    }
    hide Filter;
  }

  // ---------------------------------------------------------------- a store's buckets and queries

  /** The kinds of name a bucket keeps apart. */
  lemma KindsMean(name: string)
    ensures KindOfName(name) == ChildKind <==> StartsWith(name, "signal:child:")
    ensures KindOfName(name) == FoldedKind <==> StartsWith(name, "fan:")
    ensures KindOfName(name) == SpawnKind <==> StartsWith(name, "spawn:")
  {
    if StartsWith(name, "signal:child:") { assert name[..13][0] == 's' && name[..13][1] == 'i'; }
    if StartsWith(name, "fan:") { assert name[..4][0] == 'f'; }
    if StartsWith(name, "spawn:") { assert name[..6][0] == 's' && name[..6][1] == 'p'; }
  }

  /** A query selects by group, by groups left out, by status and by prefix, each only when it is asked for. */
  lemma QueryMeans(rows: Timeline, q: Query, cp: Checkpoint)
    requires InSeqOrder(rows) && q.offset == 0 && q.limit == None
    ensures cp in QueryCheckpointsOf(rows, q) <==>
      && cp in rows
      && (q.group.Some? ==> cp.group == q.group)
      && (cp.group.Some? ==> cp.group.value !in q.excludeGroups)
      && (q.statuses.Some? ==> cp.status in q.statuses.value)
      && (q.prefix.Some? ==> StartsWith(cp.name, q.prefix.value))
    ensures InSeqOrder(QueryCheckpointsOf(rows, q))
  {
    var keep := (x: Checkpoint) => Selects(q, x);
    QueryReads(rows, q, keep);
    FilterOrdered(rows, keep);
    FilterMember(rows, keep, cp);
    hide StartsWith;
  }

  /** An offset skips that many, and a limit takes no more than that many of the rest. */
  lemma SliceMeans(rows: Timeline, offset: nat, limit: Option<nat>)
    ensures var page := Slice(rows, offset, limit);
      var left := if offset < |rows| then |rows| - offset else 0;
      && |page| == (if limit.Some? && limit.value < left then limit.value else left)
      && forall i :: 0 <= i < |page| ==> page[i] == rows[offset + i]
  {
  }

  // ---------------------------------------------------------------- a fan's page

  /** The members a page is cut from: all of the group, or those that failed, in order. */
  lemma PageMeans(rows: Timeline, group: string, q: FanPageQuery) returns (matching: Timeline)
    requires InSeqOrder(rows)
    ensures InSeqOrder(matching)
    ensures forall cp :: cp in matching <==> cp in rows && InGroup(cp, group) && (q.failedOnly ==> HasFailed(cp))
    ensures var (items, total) := PageFan(rows, group, q);
      total == |matching| && items == Slice(matching, FanPageBounds(q).0, Some(FanPageBounds(q).1))
  {
    var keep := (cp: Checkpoint) => cp.group == Some(group) && (!q.failedOnly || IsFailedMember(cp));
    matching := Filter(rows, keep);
    FilterOrdered(rows, keep);
    forall cp ensures cp in matching <==> cp in rows && InGroup(cp, group) && (q.failedOnly ==> HasFailed(cp)) {
      FilterMember(rows, keep, cp);
      CountsRight(cp);
    }
    hide HasFailed, IsFailedMember;
  }

  /** Offsets below zero mean zero, and limits out of range the nearest in it; what is not a number means 0 and 100. */
  lemma BoundsClamped(q: FanPageQuery)
    ensures var (offset, limit) := FanPageBounds(q);
      && (q.offset.None? || !q.offset.value.Finite? ==> offset == 0)
      && (q.limit.None? || !q.limit.value.Finite? ==> limit == 100)
      && (q.offset.Some? && q.offset.value.Finite? ==>
            (if q.offset.value.value < 0.0 then offset == 0
             else offset as real <= q.offset.value.value < offset as real + 1.0))
      && (q.limit.Some? && q.limit.value.Finite? ==>
            (if q.limit.value.value < 1.0 then limit == 1
             else if q.limit.value.value >= 500.0 then limit == 500
             else limit as real <= q.limit.value.value < limit as real + 1.0))
  {
  }
}
