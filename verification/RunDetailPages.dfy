/** A run's detail and a fan's pages from the store, and that they are the ones made of the whole list. */
module RunDetailPages {
  import opened Basics
  import opened Ordering
  import opened RunDetail
  import opened RunDetailStore
  import opened RunDetailFromStore
  import opened RunDetailViews

  // ---------------------------------------------------------------- one group's buckets

  function GroupStats(stats: seq<Stat>, group: string): seq<Stat> {
    if stats == [] then []
    else
      GroupStats(stats[..|stats| - 1], group) +
      if stats[|stats| - 1].key.group == Some(group) then [stats[|stats| - 1]] else []
  }

  lemma {:induction false} GroupStatsMember(stats: seq<Stat>, group: string, b: Stat)
    ensures b in GroupStats(stats, group) <==> b in stats && b.key.group == Some(group)
  {
    if stats != [] {
      GroupStatsMember(stats[..|stats| - 1], group, b);
      assert stats == stats[..|stats| - 1] + [stats[|stats| - 1]];
    }
  }

  lemma {:induction false} GroupStatsDistinct(stats: seq<Stat>, group: string)
    requires DistinctStats(stats)
    ensures DistinctStats(GroupStats(stats, group))
  {
    if stats != [] {
      var front, last := stats[..|stats| - 1], stats[|stats| - 1];
      GroupStatsDistinct(front, group);
      var kept := GroupStats(front, group);
      forall i | 0 <= i < |kept| ensures kept[i].key != last.key {
        GroupStatsMember(front, group, kept[i]);
        var k :| 0 <= k < |front| && front[k] == kept[i];
        assert stats[k] == kept[i];
      }
    }
  }

  /** A run's buckets of one group aggregate that group's members. */
  lemma GroupAggregates(stats: seq<Stat>, rows: Timeline, group: string)
    requires Aggregates(stats, rows)
    ensures Aggregates(GroupStats(stats, group), MembersOf(rows, group))
  {
    var kept, members := GroupStats(stats, group), MembersOf(rows, group);
    GroupStatsDistinct(stats, group);
    hide Reduces, Filter, GroupStats;
    forall i | 0 <= i < |kept| ensures Reduces(kept[i], RowsWith(members, kept[i].key)) {
      GroupStatsMember(stats, group, kept[i]);
      BucketReduces(stats, rows, kept[i]);
      SameRows(rows, group, kept[i].key);
    }
    forall cp | cp in members ensures HasKey(kept, KeyOf(cp)) {
      GroupHasKey(stats, rows, group, cp);
    }
  }

  lemma GroupHasKey(stats: seq<Stat>, rows: Timeline, group: string, cp: Checkpoint)
    requires Aggregates(stats, rows) && cp in MembersOf(rows, group)
    ensures HasKey(GroupStats(stats, group), KeyOf(cp))
  {
    hide Reduces, Filter, GroupStats, Aggregates;
    FilterMember(rows, (x: Checkpoint) => x.group == Some(group), cp);
    var b := BucketFor(stats, rows, cp);
    GroupStatsMember(stats, group, b);
    KeyStatus(cp);
    var kept := GroupStats(stats, group);
    var i :| 0 <= i < |kept| && kept[i] == b;
  }

  lemma SameRows(rows: Timeline, group: string, key: Key)
    requires key.group == Some(group)
    ensures RowsWith(MembersOf(rows, group), key) == RowsWith(rows, key)
  {
    FilterTwice(rows, (cp: Checkpoint) => cp.group == Some(group), (cp: Checkpoint) => KeyOf(cp) == key,
                (cp: Checkpoint) => KeyOf(cp) == key);
  }

  function TotalOf(stats: seq<Stat>): nat { SumWhere(stats, (k: Key) => true) }

  /** A group's buckets count its members. */
  lemma TotalIsMembers(stats: seq<Stat>, members: Timeline)
    requires Aggregates(stats, members)
    ensures TotalOf(stats) == |members|
    ensures stats == [] <==> members == []
  {
    AggregatesCount(stats, members);
    SumIsCount(stats, members, (k: Key) => true);
    FilterAll(members, (cp: Checkpoint) => ((k: Key) => true)(KeyOf(cp)));
    EmptyOrFirst(members);
    if stats != [] {
      BucketReduces(stats, members, stats[0]);
      var cp := RowsWith(members, stats[0].key)[0];
      InBucket(members, stats[0].key, cp);
    }
  }

  // ---------------------------------------------------------------- a run's detail

  /** The buckets seen so far, by group; groups in the order they were met. */
  ghost predicate StatsByGroup(stats: seq<Stat>, byGroup: map<string, seq<Stat>>, order: seq<string>) {
    && (forall g :: g in byGroup <==> g in order)
    && (forall g :: g in byGroup ==> byGroup[g] == GroupStats(stats, g))
    && (forall g :: GroupStats(stats, g) != [] <==> g in byGroup)
    && (forall i, k :: 0 <= i < k < |order| ==> order[i] != order[k])
  }

  lemma GroupStatsSnoc(stats: seq<Stat>, b: Stat, g: string)
    ensures GroupStats(stats + [b], g) == GroupStats(stats, g) + if b.key.group == Some(g) then [b] else []
  {
    assert (stats + [b])[..|stats|] == stats;
  }

  lemma StatsByGroupAdd(stats: seq<Stat>, b: Stat, byGroup: map<string, seq<Stat>>, order: seq<string>)
    requires StatsByGroup(stats, byGroup, order)
    ensures b.key.group.None? ==> StatsByGroup(stats + [b], byGroup, order)
    ensures b.key.group.Some? && b.key.group.value in byGroup ==>
      StatsByGroup(stats + [b], byGroup[b.key.group.value := byGroup[b.key.group.value] + [b]], order)
    ensures b.key.group.Some? && b.key.group.value !in byGroup ==>
      StatsByGroup(stats + [b], byGroup[b.key.group.value := [b]], order + [b.key.group.value])
  {
    hide GroupStats;
    forall g ensures GroupStats(stats + [b], g) == GroupStats(stats, g) + if b.key.group == Some(g) then [b] else [] {
      GroupStatsSnoc(stats, b, g);
    }
  }

  /** The rows of a run's buckets, grouped. */
  method GroupBuckets(all: seq<Stat>) returns (byGroup: map<string, seq<Stat>>, order: seq<string>)
    ensures StatsByGroup(all, byGroup, order)
  {
    hide GroupStats;
    byGroup, order := map[], [];
    assert all[..0] == [];
    NoStats();
    for i := 0 to |all|
      invariant StatsByGroup(all[..i], byGroup, order)
    {
      var b := all[i];
      assert all[..i + 1] == all[..i] + [b];
      StatsByGroupAdd(all[..i], b, byGroup, order);
      if b.key.group.None? { continue; }
      if b.key.group.value in byGroup {
        byGroup := byGroup[b.key.group.value := byGroup[b.key.group.value] + [b]];
      } else {
        byGroup, order := byGroup[b.key.group.value := [b]], order + [b.key.group.value];
      }
    }
    assert all[..|all|] == all;
  }

  lemma NoStats()
    ensures StatsByGroup([], map[], [])
  {
  }

  /**
   * The detail of a run read through the store's aggregates. Whatever order the store gives its buckets
   * in, it is the detail made of the whole checkpoint list.
   */
  method SummarizeRunFromStore(rows: Timeline, over: int, stats: Option<seq<Stat>>)
    returns (timeline: Timeline, fans: seq<FanSummary>)
    requires InSeqOrder(rows) && (stats.Some? ==> Aggregates(stats.value, rows))
    ensures DetailOf(rows, over, timeline, fans)
  {
    hide MembersOf, Filter, Summarizes, DeclaredSize, GroupStats, Aggregates, QueryCheckpointsOf, IsFolded;
    var all: seq<Stat>;
    if stats.Some? {
      all := stats.value;
    } else {
      all := CheckpointStatsOf(rows, None);
      FilterAll(rows, (cp: Checkpoint) => InGroup(cp, None));
    }
    var byGroup, order := GroupBuckets(all);
    var wide := WideGroups(rows, over, all, byGroup, order);
    var excluded := set g | g in wide;
    timeline := QueryCheckpointsOf(rows, AllRows.(excludeGroups := excluded));
    QueryReads(rows, AllRows.(excludeGroups := excluded), (cp: Checkpoint) => ListedAlone(rows, over, cp));
    fans := SummarizeGroups(rows, all, byGroup, wide);
  }

  /** The groups with more members than `over`, or declared wider. */
  method WideGroups(rows: Timeline, over: int, all: seq<Stat>, byGroup: map<string, seq<Stat>>, order: seq<string>)
    returns (wide: seq<string>)
    requires Aggregates(all, rows) && StatsByGroup(all, byGroup, order)
    ensures forall g :: g in wide <==> Wide(rows, g, over)
    ensures forall i, k :: 0 <= i < k < |wide| ==> wide[i] != wide[k]
    ensures forall g :: g in wide ==> g in byGroup
  {
    hide MembersOf, DeclaredSize, GroupStats, Aggregates;
    wide := [];
    for i := 0 to |order|
      invariant forall g :: g in wide <==> g in order[..i] && Wide(rows, g, over)
      invariant forall i, k :: 0 <= i < k < |wide| ==> wide[i] != wide[k]
    {
      var group := order[i];
      assert order[..i + 1] == order[..i] + [group];
      assert group in order && group !in order[..i];
      GroupAggregates(all, rows, group);
      TotalIsMembers(byGroup[group], MembersOf(rows, group));
      var declared := DeclaredSize(group);
      if TotalOf(byGroup[group]) > over || (if declared.Some? then declared.value else 0) > over {
        wide := wide + [group];
      }
    }
    assert order[..|order|] == order;
    WideGroupsKnown(all, rows, byGroup, order, over);
  }

  /** One summary for each of these groups, in seq order. */
  method SummarizeGroups(rows: Timeline, all: seq<Stat>, byGroup: map<string, seq<Stat>>, groups: seq<string>)
    returns (fans: seq<FanSummary>)
    requires InSeqOrder(rows) && Aggregates(all, rows)
    requires forall g :: g in groups ==> g in byGroup && byGroup[g] == GroupStats(all, g) && MembersOf(rows, g) != []
    requires forall i, k :: 0 <= i < k < |groups| ==> groups[i] != groups[k]
    ensures forall s :: s in fans ==> s.group in groups && Summarizes(s.group, MembersOf(rows, s.group), s)
    ensures forall g :: g in groups ==> exists s :: s in fans && s.group == g
    ensures StrictBy(fans, FirstSeqOf)
  {
    hide MembersOf, Filter, Summarizes, GroupStats, Aggregates, IsFolded;
    var folded := ReadFolded(rows, all);
    var found: seq<FanSummary> := [];
    for i := 0 to |groups|
      invariant forall s :: s in found ==> s.group in groups[..i] && Summarizes(s.group, MembersOf(rows, s.group), s)
      invariant forall g :: g in groups[..i] ==> exists s :: s in found && s.group == g
      invariant DistinctBy(found, FirstSeqOf)
    {
      var group := groups[i];
      assert groups[..i + 1] == groups[..i] + [group];
      assert group in groups && group !in groups[..i];
      GroupAggregates(all, rows, group);
      FoldedOfGroup(rows, group);
      var s := SummarizeFanFromStats(rows, group, byGroup[group],
        Filter(folded, (cp: Checkpoint) => cp.group == Some(group)));
      forall t | t in found ensures FirstSeqOf(t) != FirstSeqOf(s) {
        assert t.group in groups;
        FansApart(rows, t.group, group, t, s);
      }
      assert forall t :: t in found + [s] <==> t in found || t == s;
      found := found + [s];
    }
    assert groups[..|groups|] == groups;
    fans := SortedBy(found, FirstSeqOf);
    SortedStrict(found, FirstSeqOf);
    forall s ensures s in fans <==> s in found { SortedMember(found, ByKey(FirstSeqOf), s); }
  }

  lemma WideGroupsKnown(all: seq<Stat>, rows: Timeline, byGroup: map<string, seq<Stat>>, order: seq<string>, over: int)
    requires Aggregates(all, rows) && StatsByGroup(all, byGroup, order)
    ensures forall g :: Wide(rows, g, over) ==> g in order
  {
    hide Aggregates, GroupStats, MembersOf;
    forall g | Wide(rows, g, over) ensures g in order {
      GroupAggregates(all, rows, g);
      TotalIsMembers(GroupStats(all, g), MembersOf(rows, g));
    }
  }

  /** Every folded row, when there is a bucket of them. */
  method ReadFolded(rows: Timeline, all: seq<Stat>) returns (folded: Timeline)
    requires InSeqOrder(rows) && Aggregates(all, rows)
    ensures folded == Filter(rows, IsFolded)
  {
    hide Aggregates, Filter, QueryCheckpointsOf, IsFolded;
    if exists b :: b in all && b.key.kind == FoldedKind {
      FoldedRead(rows);
      folded := QueryCheckpointsOf(rows, AllRows.(prefix := Some(FOLDED_PREFIX)));
    } else {
      forall cp ensures IsFolded(cp) == (KeyOf(cp).kind == FoldedKind) { KindsAgree(cp); }
      NoSuchRow(all, rows, (k: Key) => k.kind == FoldedKind, IsFolded);
      folded := [];
    }
  }

  lemma FoldedRead(rows: Timeline)
    requires InSeqOrder(rows)
    ensures QueryCheckpointsOf(rows, AllRows.(prefix := Some(FOLDED_PREFIX))) == Filter(rows, IsFolded)
  {
    QueryReads(rows, AllRows.(prefix := Some(FOLDED_PREFIX)), IsFolded);
  }

  lemma FoldedOfGroup(rows: Timeline, group: string)
    ensures Filter(Filter(rows, IsFolded), (cp: Checkpoint) => cp.group == Some(group)) ==
      Filter(MembersOf(rows, group), IsFolded)
  {
    FilterTwice(rows, IsFolded, (cp: Checkpoint) => cp.group == Some(group),
                (cp: Checkpoint) => IsFolded(cp) && cp.group == Some(group));
    FilterTwice(rows, (cp: Checkpoint) => cp.group == Some(group), IsFolded,
                (cp: Checkpoint) => IsFolded(cp) && cp.group == Some(group));
  }

  // ---------------------------------------------------------------- a fan's pages

  /** A number a caller gives: finite, or not a usable one. */
  datatype Num = Finite(value: real) | NotFinite

  datatype FanPageQuery = FanPageQuery(offset: Option<Num>, limit: Option<Num>, failedOnly: bool)

  function Floored(n: Option<Num>): Option<int> {
    if n.Some? && n.value.Finite? then Some(n.value.value.Floor) else None
  }

  /** A query's offset and limit, clamped to sane bounds. */
  function FanPageBounds(q: FanPageQuery): (bounds: (nat, nat))
    ensures 1 <= bounds.1 <= 500
    ensures Floored(q.offset).Some? && Floored(q.offset).value >= 0 ==> bounds.0 == Floored(q.offset).value
    ensures Floored(q.limit).Some? && 1 <= Floored(q.limit).value <= 500 ==> bounds.1 == Floored(q.limit).value
  {
    (if Floored(q.offset).Some? then Max(0, Floored(q.offset).value) else 0,
     if Floored(q.limit).Some? then Min(500, Max(1, Floored(q.limit).value)) else 100)
  }

  /** One page of a fan's members, out of the whole list. */
  function PageFan(rows: Timeline, group: string, q: FanPageQuery): (Timeline, nat) {
    var matching := Filter(rows, (cp: Checkpoint) => cp.group == Some(group) && (!q.failedOnly || IsFailedMember(cp)));
    var (offset, limit) := FanPageBounds(q);
    (Slice(matching, offset, Some(limit)), |matching|)
  }

  lemma PageFanMembers(rows: Timeline, group: string, q: FanPageQuery)
    ensures var (offset, limit) := FanPageBounds(q);
      var matching := if q.failedOnly then Filter(MembersOf(rows, group), IsFailedMember) else MembersOf(rows, group);
      PageFan(rows, group, q) == (Slice(matching, offset, Some(limit)), |matching|)
  {
    hide IsFailedMember;
    var both := (cp: Checkpoint) => cp.group == Some(group) && (!q.failedOnly || IsFailedMember(cp));
    if q.failedOnly {
      FilterTwice(rows, (cp: Checkpoint) => cp.group == Some(group), IsFailedMember, both);
    } else {
      FilterSame(rows, (cp: Checkpoint) => cp.group == Some(group), both);
    }
  }

  /** A page, read from the store a page at a time; the same page and total as out of the whole list. */
  method PageFanFromStore(rows: Timeline, group: string, q: FanPageQuery, stats: Option<seq<Stat>>)
    returns (items: Timeline, total: nat)
    requires InSeqOrder(rows) && (stats.Some? ==> Aggregates(stats.value, MembersOf(rows, group)))
    ensures (items, total) == PageFan(rows, group, q)
  {
    hide MembersOf, Filter, Aggregates, QueryCheckpointsOf, PageFan, FanPageBounds, SumWhere, IsFailedMember,
         FailedChildren, FailedRows, InSeqOrder, FailedQuery, SortedBy, TotalOf;
    PageFanMembers(rows, group, q);
    var buckets: seq<Stat>;
    if stats.Some? {
      buckets := stats.value;
    } else {
      buckets := CheckpointStatsOf(rows, Some(group));
      OnlyGroupMembers(rows, group);
    }
    ghost var members := MembersOf(rows, group);
    MembersOrdered(rows, group);
    var (offset, limit) := FanPageBounds(q);
    if !q.failedOnly {
      TotalIsMembers(buckets, members);
      total := TotalOf(buckets);
      items := [];
      if total > offset {
        MembersRead(rows, group, offset, Some(limit));
        items := QueryCheckpointsOf(rows, AllRows.(group := Some(group), offset := offset, limit := Some(limit)));
      }
      return;
    }
    FailedTotal(buckets, members);
    FailuresMerge(members);
    MergedLength(FailedRows(members), FailedChildren(members));
    var failedStatus := SumWhere(buckets, (k: Key) => k.status == Failed);
    var completed, failed := ReadChildren(rows, group, buckets);
    total := failedStatus + |failed|;
    if total <= offset { return [], total; }
    if |failed| == 0 {
      FailedRead(rows, group, offset, Some(limit));
      items := QueryCheckpointsOf(rows, FailedQuery(group, offset, Some(limit)));
      return;
    }
    FailedRead(rows, group, 0, Some(offset + limit));
    var failedRows := QueryCheckpointsOf(rows, FailedQuery(group, 0, Some(offset + limit)));
    FirstFailures(members, offset + limit, offset + limit);
    var merged := SortedBy(failedRows + failed, SeqOf);
    SliceOfFirst(merged, Filter(members, IsFailedMember), offset, limit);
    items := Slice(merged, offset, Some(limit));
  }

  lemma OnlyGroupMembers(rows: Timeline, group: string)
    ensures OnlyGroup(rows, Some(group)) == MembersOf(rows, group)
  {
    FilterSame(rows, (cp: Checkpoint) => InGroup(cp, Some(group)), (cp: Checkpoint) => cp.group == Some(group));
  }

  lemma MembersRead(rows: Timeline, group: string, offset: nat, limit: Option<nat>)
    requires InSeqOrder(rows)
    ensures QueryCheckpointsOf(rows, AllRows.(group := Some(group), offset := offset, limit := limit)) ==
      Slice(MembersOf(rows, group), offset, limit)
  {
    QueryReads(rows, AllRows.(group := Some(group), offset := offset, limit := limit),
               (cp: Checkpoint) => cp.group == Some(group));
  }

  lemma FailedTotal(stats: seq<Stat>, members: Timeline)
    requires Aggregates(stats, members)
    ensures SumWhere(stats, (k: Key) => k.status == Failed) == |FailedRows(members)|
  {
    AggregatesCount(stats, members);
    SumIsCount(stats, members, (k: Key) => k.status == Failed);
    FilterSame(members, (cp: Checkpoint) => ((k: Key) => k.status == Failed)(KeyOf(cp)),
               (cp: Checkpoint) => cp.status == Failed);
  }

  lemma {:induction false} MergedLength(a: Timeline, b: Timeline)
    ensures |Merged(a, b, SeqOf)| == |a| + |b|
    ensures b == [] ==> Merged(a, b, SeqOf) == a
    decreases |a| + |b|
  {
    if a != [] && b != [] {
      if SeqOf(a[0]) < SeqOf(b[0]) { MergedLength(a[1..], b); } else { MergedLength(a, b[1..]); }
    }
  }

  lemma SliceOfFirst(a: Timeline, b: Timeline, offset: nat, limit: nat)
    requires First(offset + limit, a) == First(offset + limit, b)
    ensures Slice(a, offset, Some(limit)) == Slice(b, offset, Some(limit))
  {
    SliceCut(a, offset, limit);
    SliceCut(b, offset, limit);
  }

  lemma SliceCut(a: Timeline, offset: nat, limit: nat)
    ensures Slice(a, offset, Some(limit)) == Slice(First(offset + limit, a), offset, None)
  {
  }
}
