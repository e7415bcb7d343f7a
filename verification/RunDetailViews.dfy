/** The store's views: a fan's summary, a run's detail and a fan's page, each equal to the simple one. */
module RunDetailViews {
  import opened Basics
  import opened Ordering
  import opened RunDetail
  import opened RunDetailStore
  import opened RunDetailFromStore

  // ---------------------------------------------------------------- counting by bucket

  /** Buckets whose rows count one each, under their own status. */
  predicate PlainKey(k: Key) { k.kind != FoldedKind && !(k.kind == ChildKind && k.status == Completed) }

  predicate PlainRow(cp: Checkpoint) { !IsFolded(cp) && !CompletedChild(cp) }

  predicate CompletedChild(cp: Checkpoint) { IsChild(cp) && cp.status == Completed }

  function PlainIn(statuses: set<Status>): Key -> bool { (k: Key) => PlainKey(k) && k.status in statuses }

  lemma PlainAgrees(cp: Checkpoint)
    ensures PlainKey(KeyOf(cp)) <==> PlainRow(cp)
    ensures PlainRow(cp) ==> Weight(cp) == 1 && Effective(cp) == cp.status
    ensures CompletedChild(cp) ==> !IsFolded(cp) && Weight(cp) == 1
  {
    KindsAgree(cp);
    hide KindOfName, IsChild, IsFolded;
  }

  lemma {:induction false} SumSnoc(stats: seq<Stat>, b: Stat, want: Key -> bool)
    ensures SumWhere(stats + [b], want) == SumWhere(stats, want) + if want(b.key) then b.count else 0
  {
    if stats == [] {
      assert [] + [b] == [b] && [b][1..] == [];
    } else {
      SumSnoc(stats[1..], b, want);
      assert (stats + [b])[1..] == stats[1..] + [b];
    }
  }

  lemma {:induction false} PlainWeight(rows: Timeline, statuses: set<Status>)
    ensures |RowsWhere(rows, PlainIn(statuses))| == WeightOf(Filter(rows, PlainRow), statuses)
  {
    hide PlainKey, PlainRow, KeyOf, Weight, Effective, Filter;
    if rows != [] {
      var front, cp := rows[..|rows| - 1], rows[|rows| - 1];
      assert rows == front + [cp];
      PlainWeight(front, statuses);
      PlainAgrees(cp);
      FilterSnoc(front, (x: Checkpoint) => PlainIn(statuses)(KeyOf(x)), cp);
      FilterSnoc(front, PlainRow, cp);
      WeightSnoc(Filter(front, PlainRow), cp, statuses);
      assert KeyOf(cp).status == cp.status by { KeyStatus(cp); }
      assert Filter(front, PlainRow) + [] == Filter(front, PlainRow);
    } else {
      NothingFiltered(statuses);
    }
  }

  lemma KeyStatus(cp: Checkpoint)
    ensures KeyOf(cp).status == cp.status && KeyOf(cp).group == cp.group
  {
  }

  lemma NothingFiltered(statuses: set<Status>)
    ensures RowsWhere([], PlainIn(statuses)) == [] && Filter([], PlainRow) == [] && WeightOf([], statuses) == 0
  {
  }

  /** What the plain buckets add up to. */
  ghost predicate PlainTallied(stats: seq<Stat>, counts: map<Status, nat>, size: nat) {
    && (forall s :: s in counts <==> exists i :: 0 <= i < |stats| && PlainKey(stats[i].key) && stats[i].key.status == s)
    && (forall s :: s in counts ==> counts[s] == SumWhere(stats, PlainIn({s})))
    && size == SumWhere(stats, PlainIn(ALL_STATUSES))
  }

  lemma {:induction false} NoPlain(stats: seq<Stat>, s: Status)
    requires forall i :: 0 <= i < |stats| ==> !(PlainKey(stats[i].key) && stats[i].key.status == s)
    ensures SumWhere(stats, PlainIn({s})) == 0
  {
    if stats != [] {
      assert forall i :: 0 <= i < |stats[1..]| ==> stats[1..][i] == stats[i + 1];
      NoPlain(stats[1..], s);
    }
  }

  lemma PlainTalliedAdd(stats: seq<Stat>, counts: map<Status, nat>, size: nat, b: Stat)
    requires PlainTallied(stats, counts, size)
    ensures PlainKey(b.key) ==> PlainTallied(stats + [b], Added(counts, b.key.status, b.count), size + b.count)
    ensures !PlainKey(b.key) ==> PlainTallied(stats + [b], counts, size)
  {
    hide PlainKey, SumWhere;
    var all := stats + [b];
    assert all[|stats|] == b && forall i :: 0 <= i < |stats| ==> all[i] == stats[i];
    forall s ensures SumWhere(all, PlainIn({s})) == SumWhere(stats, PlainIn({s})) +
      if PlainKey(b.key) && b.key.status == s then b.count else 0
    {
      SumSnoc(stats, b, PlainIn({s}));
    }
    SumSnoc(stats, b, PlainIn(ALL_STATUSES));
    Everything(b.key.status);
    if b.key.status !in counts { NoPlain(stats, b.key.status); }
  }

  /** Added up over all buckets, they tally the plain rows. */
  lemma PlainTallies(stats: seq<Stat>, rows: Timeline, counts: map<Status, nat>, size: nat)
    requires Aggregates(stats, rows) && PlainTallied(stats, counts, size)
    ensures Tallies(Filter(rows, PlainRow), counts, size)
  {
    hide PlainTallied, PlainRow, Filter, Aggregates, Occurs, WeightOf;
    forall s
      ensures s in counts <==> Occurs(Filter(rows, PlainRow), s)
      ensures s in counts ==> counts[s] == WeightOf(Filter(rows, PlainRow), {s})
    {
      PlainStatus(stats, rows, counts, size, s);
    }
    PlainStatus(stats, rows, counts, size, Failed);
  }

  lemma PlainStatus(stats: seq<Stat>, rows: Timeline, counts: map<Status, nat>, size: nat, s: Status)
    requires Aggregates(stats, rows) && PlainTallied(stats, counts, size)
    ensures s in counts <==> Occurs(Filter(rows, PlainRow), s)
    ensures s in counts ==> counts[s] == WeightOf(Filter(rows, PlainRow), {s})
    ensures size == WeightOf(Filter(rows, PlainRow), ALL_STATUSES)
  {
    hide PlainKey, PlainIn, PlainRow, KeyOf, Filter, Aggregates, Occurs, SumWhere, WeightOf;
    PlainOccurs(stats, rows, s);
    PlainSum(stats, rows, {s});
    PlainSum(stats, rows, ALL_STATUSES);
  }

  lemma PlainSum(stats: seq<Stat>, rows: Timeline, statuses: set<Status>)
    requires Aggregates(stats, rows)
    ensures SumWhere(stats, PlainIn(statuses)) == WeightOf(Filter(rows, PlainRow), statuses)
  {
    hide *;
    AggregatesCount(stats, rows);
    SumIsCount(stats, rows, PlainIn(statuses));
    PlainWeight(rows, statuses);
  }

  lemma PlainOccurs(stats: seq<Stat>, rows: Timeline, s: Status)
    requires Aggregates(stats, rows)
    ensures Occurs(Filter(rows, PlainRow), s) <==>
      exists i :: 0 <= i < |stats| && PlainKey(stats[i].key) && stats[i].key.status == s
  {
    hide PlainKey, PlainRow, KeyOf, Filter, Aggregates, RowsWith, Effective, Weight;
    var plain := Filter(rows, PlainRow);
    if i :| 0 <= i < |plain| && Effective(plain[i]) == s {
      var cp := plain[i];
      FilterMember(rows, PlainRow, cp);
      PlainAgrees(cp);
      KeyStatus(cp);
      var b := BucketFor(stats, rows, cp);
      var k :| 0 <= k < |stats| && stats[k] == b;
    }
    if i :| 0 <= i < |stats| && PlainKey(stats[i].key) && stats[i].key.status == s {
      BucketReduces(stats, rows, stats[i]);
      var cp := RowsWith(rows, stats[i].key)[0];
      InBucket(rows, stats[i].key, cp);
      PlainAgrees(cp);
      KeyStatus(cp);
      FilterMember(rows, PlainRow, cp);
      var k :| 0 <= k < |plain| && plain[k] == cp;
    }
  }

  // ---------------------------------------------------------------- plain, folded and finished children

  lemma {:induction false} WeightJoin(a: Timeline, b: Timeline, statuses: set<Status>)
    ensures WeightOf(a + b, statuses) == WeightOf(a, statuses) + WeightOf(b, statuses)
  {
    hide Weight, Effective;
    if b == [] {
      assert a + b == a;
    } else {
      assert (a + b)[..|a + b| - 1] == a + b[..|b| - 1] && (a + b)[|a + b| - 1] == b[|b| - 1];
      WeightJoin(a, b[..|b| - 1], statuses);
    }
  }

  function Parts(rows: Timeline): Timeline {
    Filter(rows, PlainRow) + Filter(rows, IsFolded) + Filter(rows, CompletedChild)
  }

  lemma {:induction false} PartsWeight(rows: Timeline, statuses: set<Status>)
    ensures WeightOf(Filter(rows, PlainRow), statuses) + WeightOf(Filter(rows, IsFolded), statuses) +
            WeightOf(Filter(rows, CompletedChild), statuses) == WeightOf(rows, statuses)
  {
    if rows != [] {
      var front, cp := rows[..|rows| - 1], rows[|rows| - 1];
      assert rows == front + [cp];
      PartsWeight(front, statuses);
      PlainAgrees(cp);
      OnePart(cp);
      hide PlainRow, IsFolded, CompletedChild, Weight, Effective, Filter;
      PartSnoc(front, cp, PlainRow, statuses);
      PartSnoc(front, cp, IsFolded, statuses);
      PartSnoc(front, cp, CompletedChild, statuses);
    }
  }

  lemma OnePart(cp: Checkpoint)
    ensures 1 ==
      (if PlainRow(cp) then 1 else 0) + (if IsFolded(cp) then 1 else 0) + (if CompletedChild(cp) then 1 else 0)
  {
    PlainAgrees(cp);
    hide IsFolded, IsChild;
  }

  lemma PartSnoc(front: Timeline, cp: Checkpoint, keep: Checkpoint -> bool, statuses: set<Status>)
    ensures WeightOf(Filter(front + [cp], keep), statuses) == WeightOf(Filter(front, keep), statuses) +
      if keep(cp) && Effective(cp) in statuses then Weight(cp) else 0
  {
    hide Weight, Effective, Filter;
    FilterSnoc(front, keep, cp);
    WeightSnoc(Filter(front, keep), cp, statuses);
    assert Filter(front, keep) + [] == Filter(front, keep);
  }

  lemma PartsOccur(rows: Timeline, s: Status)
    ensures Occurs(Parts(rows), s) <==> Occurs(rows, s)
  {
    hide PlainRow, IsFolded, CompletedChild, Effective, Filter;
    var parts := Parts(rows);
    if i :| 0 <= i < |parts| && Effective(parts[i]) == s {
      assert parts[i] in Parts(rows);
      InParts(rows, parts[i]);
      var k :| 0 <= k < |rows| && rows[k] == parts[i];
    }
    if i :| 0 <= i < |rows| && Effective(rows[i]) == s {
      InParts(rows, rows[i]);
      var k :| 0 <= k < |parts| && parts[k] == rows[i];
    }
  }

  lemma InParts(rows: Timeline, cp: Checkpoint)
    ensures cp in Parts(rows) <==> cp in rows
  {
    FilterMember(rows, PlainRow, cp);
    FilterMember(rows, IsFolded, cp);
    FilterMember(rows, CompletedChild, cp);
    OnePart(cp);
    hide PlainRow, IsFolded, CompletedChild, Filter;
  }

  /** Counted part by part or in order, the members tally the same. */
  lemma PartsTally(rows: Timeline, counts: map<Status, nat>, size: nat)
    requires Tallies(Parts(rows), counts, size)
    ensures Tallies(rows, counts, size)
  {
    forall s ensures Occurs(Parts(rows), s) <==> Occurs(rows, s) { PartsOccur(rows, s); }
    forall ss ensures WeightOf(Parts(rows), ss) == WeightOf(rows, ss) {
      WeightJoin(Filter(rows, PlainRow) + Filter(rows, IsFolded), Filter(rows, CompletedChild), ss);
      WeightJoin(Filter(rows, PlainRow), Filter(rows, IsFolded), ss);
      PartsWeight(rows, ss);
      hide Filter, WeightOf, PlainRow, IsFolded, CompletedChild;
    }
    hide Parts, Occurs, WeightOf;
  }

  // ---------------------------------------------------------------- failures

  function FailedRows(rows: Timeline): Timeline { Filter(rows, (cp: Checkpoint) => cp.status == Failed) }

  function FailedChildren(rows: Timeline): Timeline { Filter(Filter(rows, CompletedChild), IsFailedMember) }

  /** The failed members are the failed rows and the failed children, merged in seq order. */
  lemma FailuresMerge(rows: Timeline)
    requires InSeqOrder(rows)
    ensures StrictBy(FailedRows(rows), SeqOf) && StrictBy(FailedChildren(rows), SeqOf)
    ensures forall x, y :: x in FailedRows(rows) && y in FailedChildren(rows) ==> SeqOf(x) != SeqOf(y)
    ensures Merged(FailedRows(rows), FailedChildren(rows), SeqOf) == Filter(rows, IsFailedMember)
  {
    var a, b := FailedRows(rows), FailedChildren(rows);
    FilterOrdered(rows, (cp: Checkpoint) => cp.status == Failed);
    FilterOrdered(rows, CompletedChild);
    FilterOrdered(Filter(rows, CompletedChild), IsFailedMember);
    FilterOrdered(rows, IsFailedMember);
    forall x ensures x in a <==> x in rows && x.status == Failed {
      FilterMember(rows, (cp: Checkpoint) => cp.status == Failed, x);
    }
    forall y ensures y in b <==> y in rows && CompletedChild(y) && IsFailedMember(y) {
      FilterMember(rows, CompletedChild, y);
      FilterMember(Filter(rows, CompletedChild), IsFailedMember, y);
    }
    FailedApart(rows, a, b);
    MergedStrict(a, b, SeqOf);
    forall x ensures x in Merged(a, b, SeqOf) <==> x in Filter(rows, IsFailedMember) {
      MergedMember(a, b, SeqOf, x);
      FilterMember(rows, IsFailedMember, x);
      hide FailedRows, FailedChildren, Filter, IsChild;
    }
    StrictUnique(Merged(a, b, SeqOf), Filter(rows, IsFailedMember), SeqOf);
  }

  lemma FailedApart(rows: Timeline, a: Timeline, b: Timeline)
    requires InSeqOrder(rows)
    requires forall x :: x in a ==> x in rows && x.status == Failed
    requires forall y :: y in b ==> y in rows && CompletedChild(y)
    ensures forall x, y :: x in a && y in b ==> SeqOf(x) != SeqOf(y)
  {
    forall x, y | x in a && y in b ensures SeqOf(x) != SeqOf(y) {
      var i :| 0 <= i < |rows| && rows[i] == x;
      var k :| 0 <= k < |rows| && rows[k] == y;
      assert x.status != y.status;
    }
  }

  /** The first failures, from the first failed rows and all the failed children. */
  lemma FirstFailures(rows: Timeline, n: nat, m: nat)
    requires InSeqOrder(rows) && n <= m
    ensures First(n, SortedBy(First(m, FailedRows(rows)) + FailedChildren(rows), SeqOf)) ==
      First(n, Filter(rows, IsFailedMember))
  {
    FailuresMerge(rows);
    var a, b := FailedRows(rows), FailedChildren(rows);
    hide FailedRows, FailedChildren, Filter;
    assert forall x :: x in First(m, a) ==> x in a;
    SortMerges(First(m, a), b, SeqOf);
    FirstOfMerge(n, m, a, b, SeqOf);
  }

  /** A kind of bucket is there exactly when such a row is. */
  lemma NoSuchRow(stats: seq<Stat>, rows: Timeline, want: Key -> bool, keep: Checkpoint -> bool)
    requires Aggregates(stats, rows) && forall cp :: keep(cp) == want(KeyOf(cp))
    requires forall b :: b in stats ==> !want(b.key)
    ensures Filter(rows, keep) == []
  {
    hide Aggregates, KeyOf;
    var kept := Filter(rows, keep);
    if kept != [] {
      var cp := kept[0];
      FilterMember(rows, keep, cp);
      var b := BucketFor(stats, rows, cp);
      assert false;
    }
  }

  // ---------------------------------------------------------------- one fan from its buckets

  predicate OfCompletedChildren(b: Stat) { b.key.kind == ChildKind && b.key.status == Completed }

  function ChildrenQuery(
      group: string): Query { Query(Some(group), {}, Some({Completed}), Some(CHILD_PREFIX), 0, None) }

  function FailedQuery(group: string, offset: nat, limit: Option<nat>): Query {
    Query(Some(group), {}, Some({Failed}), None, offset, limit)
  }

  lemma ChildrenRead(rows: Timeline, group: string)
    requires InSeqOrder(rows)
    ensures QueryCheckpointsOf(rows, ChildrenQuery(group)) == Filter(MembersOf(rows, group), CompletedChild)
  {
    GroupQuery(rows, ChildrenQuery(group), group, CompletedChild);
  }

  lemma FailedRead(rows: Timeline, group: string, offset: nat, limit: Option<nat>)
    requires InSeqOrder(rows)
    ensures QueryCheckpointsOf(rows, FailedQuery(group, offset, limit)) ==
      Slice(FailedRows(MembersOf(rows, group)), offset, limit)
  {
    GroupQuery(rows, FailedQuery(group, offset, limit), group, (cp: Checkpoint) => cp.status == Failed);
  }

  /**
   * The completed children of a fan, and those of them that failed: only their payload tells, so they
   * are read, and only when there is a bucket of them.
   */
  method ReadChildren(rows: Timeline, group: string, buckets: seq<Stat>) returns (completed: Timeline, failed: Timeline)
    requires InSeqOrder(rows) && Aggregates(buckets, MembersOf(rows, group))
    ensures completed == Filter(MembersOf(rows, group), CompletedChild)
    ensures failed == FailedChildren(MembersOf(rows, group))
  {
    hide Filter, MembersOf, Aggregates, QueryCheckpointsOf;
    if !exists b :: b in buckets && OfCompletedChildren(b) {
      forall cp ensures CompletedChild(cp) == (KeyOf(cp).kind == ChildKind && KeyOf(cp).status == Completed) {
        KindsAgree(cp);
      }
      NoSuchRow(buckets, MembersOf(rows, group), (k: Key) => k.kind == ChildKind && k.status == Completed,
                CompletedChild);
      assert Filter([], IsFailedMember) == [] by { NoMembers(); }
      return [], [];
    }
    ChildrenRead(rows, group);
    completed := QueryCheckpointsOf(rows, ChildrenQuery(group));
    failed := Filter(completed, IsFailedMember);
  }

  /** Summarize one fan from its buckets, its folded rows and a few reads. */
  method SummarizeFanFromStats(rows: Timeline, group: string, buckets: seq<Stat>, folded: Timeline)
    returns (s: FanSummary)
    requires InSeqOrder(rows) && Aggregates(buckets, MembersOf(rows, group))
    requires folded == Filter(MembersOf(rows, group), IsFolded)
    ensures Summarizes(group, MembersOf(rows, group), s) && s.group == group
  {
    var counts, size, firstSeq, lastSeq, startedAt, finishedAt := FromBuckets(rows, group, buckets);
    var caption := LabelFromBuckets(rows, group, buckets);
    var failures;
    counts, size, failures := WithPayloads(rows, group, buckets, folded, counts, size);
    s := FanSummary(group, caption, firstSeq, lastSeq, size, DeclaredSize(group), NotStarted(group, size),
                    DeclaredFailFast(group), counts, startedAt, finishedAt, failures);
    hide MembersOf, LabelOf, DeclaredSize, DeclaredFailFast, NotStarted, Tallies, Least, Greatest, Filter, First;
  }

  /** What the buckets alone say: the plain counts, and all the bounds. */
  method FromBuckets(rows: Timeline, group: string, buckets: seq<Stat>)
    returns (counts: map<Status, nat>, size: nat, firstSeq: Option<int>, lastSeq: Option<int>, startedAt: Option<int>,
             finishedAt: Option<int>)
    requires Aggregates(buckets, MembersOf(rows, group))
    ensures var members := MembersOf(rows, group);
      && Tallies(Filter(members, PlainRow), counts, size)
      && Least(Seqs(members), firstSeq) && Greatest(Seqs(members), lastSeq)
      && Least(Begins(members), startedAt) && Greatest(Finishes(members), finishedAt)
  {
    hide MembersOf, Aggregates, PlainTallied, PlainKey, Filter, Least, Greatest, MinSeqs, MaxSeqs, MinBegins,
      MaxFinishes;
    counts, size := map[], 0;
    firstSeq, lastSeq, startedAt, finishedAt := None, None, None, None;
    NoBucketsYet();
    assert buckets[..0] == [];
    for i := 0 to |buckets|
      invariant PlainTallied(buckets[..i], counts, size)
      invariant Least(MinSeqs(buckets[..i]), firstSeq) && Greatest(MaxSeqs(buckets[..i]), lastSeq)
      invariant Least(MinBegins(buckets[..i]), startedAt) && Greatest(MaxFinishes(buckets[..i]), finishedAt)
    {
      var b, seen := buckets[i], buckets[..i];
      assert buckets[..i + 1] == seen + [b];
      BucketBoundsGrow(seen, b, firstSeq, lastSeq, startedAt, finishedAt);
      PlainTalliedAdd(seen, counts, size, b);
      firstSeq := Some(if firstSeq.Some? then Min(firstSeq.value, b.minSeq) else b.minSeq);
      lastSeq := Some(if lastSeq.Some? then Max(lastSeq.value, b.maxSeq) else b.maxSeq);
      if Terminal(b.key.status) {
        if startedAt.None? || b.minStartedAt < startedAt.value { startedAt := Some(b.minStartedAt); }
        if finishedAt.None? || b.maxFinishedAt > finishedAt.value { finishedAt := Some(b.maxFinishedAt); }
      } else if startedAt.None? || b.minEnqueuedAt < startedAt.value {
        startedAt := Some(b.minEnqueuedAt);
      }
      if PlainKey(b.key) {
        counts := Added(counts, b.key.status, b.count);
        size := size + b.count;
      }
    }
    assert buckets[..|buckets|] == buckets;
    var members := MembersOf(rows, group);
    PlainTallies(buckets, members, counts, size);
    SeqBounds(buckets, members, firstSeq, lastSeq);
    BeginBounds(buckets, members, startedAt);
    FinishBounds(buckets, members, finishedAt);
  }

  lemma NoBucketsYet()
    ensures PlainTallied([], map[], 0)
    ensures Least(MinSeqs([]), None) && Greatest(MaxSeqs([]), None)
    ensures Least(MinBegins([]), None) && Greatest(MaxFinishes([]), None)
  {
  }

  lemma BucketBoundsGrow(
      seen: seq<Stat>, b: Stat, lo: Option<int>, hi: Option<int>, began: Option<int>, ended: Option<int>)
    requires Least(MinSeqs(seen), lo) && Greatest(MaxSeqs(seen), hi)
    requires Least(MinBegins(seen), began) && Greatest(MaxFinishes(seen), ended)
    ensures Least(MinSeqs(seen + [b]), Some(if lo.Some? then Min(lo.value, b.minSeq) else b.minSeq))
    ensures Greatest(MaxSeqs(seen + [b]), Some(if hi.Some? then Max(hi.value, b.maxSeq) else b.maxSeq))
    ensures Least(MinBegins(seen + [b]), Some(if began.Some? then Min(began.value, BeganAt(b)) else BeganAt(b)))
    ensures if Terminal(b.key.status)
      then Greatest(MaxFinishes(seen + [b]),
        Some(if ended.Some? then Max(ended.value, b.maxFinishedAt) else b.maxFinishedAt))
      else Greatest(MaxFinishes(seen + [b]), ended)
  {
    StatSetsGrow(seen, b);
    BoundsAdd(MinSeqs(seen), lo, b.minSeq);
    BoundsAdd(MaxSeqs(seen), hi, b.maxSeq);
    BoundsAdd(MinBegins(seen), began, BeganAt(b));
    BoundsAdd(MaxFinishes(seen), ended, b.maxFinishedAt);
    hide *;
  }

  lemma StatSetsGrow(seen: seq<Stat>, b: Stat)
    ensures MinSeqs(seen + [b]) == MinSeqs(seen) + {b.minSeq} && MaxSeqs(seen + [b]) == MaxSeqs(seen) + {b.maxSeq}
    ensures MinBegins(seen + [b]) == MinBegins(seen) + {BeganAt(b)}
    ensures MaxFinishes(seen + [b])
      == if Terminal(b.key.status) then MaxFinishes(seen) + {b.maxFinishedAt} else MaxFinishes(seen)
  {
    hide BeganAt, Terminal;
    assert forall x :: x in seen + [b] <==> x in seen || x == b;
  }

  method LabelFromBuckets(rows: Timeline, group: string, buckets: seq<Stat>) returns (caption: string)
    requires Aggregates(buckets, MembersOf(rows, group))
    ensures caption == LabelOf(MembersOf(rows, group))
  {
    hide MembersOf, Aggregates, LabelOf, TextBefore, LeastName, GreatestName, MinNames, MaxNames;
    var childRuns := false;
    var minName: Option<string>, maxName: Option<string> := None, None;
    for i := 0 to |buckets|
      invariant childRuns <==> exists b :: b in buckets[..i] && OfChildRuns(b)
      invariant i == 0 ==> minName.None? && maxName.None?
      invariant i > 0 ==> minName.Some? && maxName.Some?
      invariant i > 0 ==> LeastName(MinNames(buckets[..i]), minName.value)
      invariant i > 0 ==> GreatestName(MaxNames(buckets[..i]), maxName.value)
    {
      var b, seen := buckets[i], buckets[..i];
      assert buckets[..i + 1] == seen + [b];
      assert forall x :: x in seen + [b] <==> x in seen || x == b;
      BucketNamesGrow(seen, b, minName, maxName);
      if minName.None? || TextBefore(b.minName, minName.value) { minName := Some(b.minName); }
      if maxName.None? || TextBefore(maxName.value, b.maxName) { maxName := Some(b.maxName); }
      childRuns := childRuns || OfChildRuns(b);
    }
    assert buckets[..|buckets|] == buckets;
    LabelAgrees(buckets, MembersOf(rows, group), minName, maxName);
    caption := LabelFrom(childRuns, minName, maxName);
  }

  lemma BucketNamesGrow(seen: seq<Stat>, b: Stat, lo: Option<string>, hi: Option<string>)
    requires seen != [] ==> lo.Some? && hi.Some?
    requires seen != [] ==> LeastName(MinNames(seen), lo.value) && GreatestName(MaxNames(seen), hi.value)
    requires seen == [] ==> lo.None? && hi.None?
    ensures LeastName(MinNames(seen + [b]), if lo.None? || TextBefore(b.minName, lo.value) then b.minName else lo.value)
    ensures GreatestName(MaxNames(seen + [b]),
                         if hi.None? || TextBefore(hi.value, b.maxName) then b.maxName else hi.value)
  {
    hide TextBefore;
    assert forall x :: x in seen + [b] <==> x in seen || x == b;
    assert MinNames(seen + [b]) == MinNames(seen) + {b.minName} && MaxNames(seen + [b]) == MaxNames(seen) + {b.maxName};
    TextOrderTotal(b.minName, b.minName);
    TextOrderTotal(b.maxName, b.maxName);
    if seen != [] {
      LeastNameAdd(MinNames(seen), lo.value, b.minName);
      GreatestNameAdd(MaxNames(seen), hi.value, b.maxName);
    }
  }

  /** Add the folded rows and the completed children, by their payload, and find the first failures. */
  method WithPayloads(
      rows: Timeline, group: string, buckets: seq<Stat>, folded: Timeline, plain: map<Status, nat>, plainSize: nat)
    returns (counts: map<Status, nat>, size: nat, failures: Timeline)
    requires InSeqOrder(rows) && Aggregates(buckets, MembersOf(rows, group))
    requires folded == Filter(MembersOf(rows, group), IsFolded)
    requires Tallies(Filter(MembersOf(rows, group), PlainRow), plain, plainSize)
    ensures Tallies(MembersOf(rows, group), counts, size)
    ensures failures == First(FAILURES_SHOWN, Filter(MembersOf(rows, group), IsFailedMember))
  {
    hide MembersOf, Aggregates, Tallies, Filter, QueryCheckpointsOf, IsFailedMember, Weight, IsFolded;
    var members := MembersOf(rows, group);
    counts, size := plain, plainSize;
    var done := Filter(members, PlainRow);
    assert done + folded[..0] == done;
    for i := 0 to |folded|
      invariant Tallies(done + folded[..i], counts, size)
    {
      var cp := folded[i];
      TalliesAdd(done + folded[..i], counts, size, cp);
      assert done + folded[..i] + [cp] == done + folded[..i + 1];
      counts := Added(counts, if IsFailedMember(cp) then Failed else cp.status, Weight(cp));
      size := size + Weight(cp);
    }
    done := done + folded;
    assert folded[..|folded|] == folded;
    var completed, failedChildren := ReadChildren(rows, group, buckets);
    assert done + completed[..0] == done;
    for i := 0 to |completed|
      invariant Tallies(done + completed[..i], counts, size)
    {
      var cp := completed[i];
      CompletedMember(members, completed, cp);
      TalliesAdd(done + completed[..i], counts, size, cp);
      assert done + completed[..i] + [cp] == done + completed[..i + 1];
      counts := Added(counts, if IsFailedMember(cp) then Failed else Completed, 1);
      size := size + 1;
    }
    assert completed[..|completed|] == completed;
    PartsTally(members, counts, size);
    var failedRows := [];
    if exists b :: b in buckets && b.key.status == Failed {
      FailedRead(rows, group, 0, Some(FAILURES_SHOWN));
      failedRows := QueryCheckpointsOf(rows, FailedQuery(group, 0, Some(FAILURES_SHOWN)));
    } else {
      NoSuchRow(buckets, members, (k: Key) => k.status == Failed, (cp: Checkpoint) => cp.status == Failed);
    }
    MembersOrdered(rows, group);
    FirstFailures(members, FAILURES_SHOWN, FAILURES_SHOWN);
    assert failedRows == First(FAILURES_SHOWN, FailedRows(members));
    failures := First(FAILURES_SHOWN, SortedBy(failedRows + failedChildren, SeqOf));
  }

  lemma MembersOrdered(rows: Timeline, group: string)
    requires InSeqOrder(rows)
    ensures InSeqOrder(MembersOf(rows, group))
  {
    FilterOrdered(rows, (cp: Checkpoint) => cp.group == Some(group));
  }

  lemma CompletedMember(members: Timeline, completed: Timeline, cp: Checkpoint)
    requires completed == Filter(members, CompletedChild) && cp in completed
    ensures Weight(cp) == 1 && Effective(cp) == if IsFailedMember(cp) then Failed else Completed
  {
    FilterMember(members, CompletedChild, cp);
    PlainAgrees(cp);
  }
}
