/**
 * The same detail read through a store's aggregates: one bucket per group, status and kind of name,
 * and a few queries for the rows the buckets cannot judge.
 */
module RunDetailStore {
  import opened Basics
  import opened RunDetail

  datatype NameKind = ChildKind | FoldedKind | SpawnKind | StepKind

  function KindOfName(name: string): NameKind {
    if StartsWith(name, CHILD_PREFIX) then ChildKind
    else if StartsWith(name, FOLDED_PREFIX) then FoldedKind
    else if StartsWith(name, "spawn:") then SpawnKind
    else StepKind
  }

  lemma KindsAgree(cp: Checkpoint)
    ensures KindOfName(cp.name) == ChildKind <==> IsChild(cp)
    ensures KindOfName(cp.name) == FoldedKind <==> IsFolded(cp)
  {
    assert CHILD_PREFIX[0] == 's' && FOLDED_PREFIX[0] == 'f';
    assert IsChild(cp) ==> cp.name[..|CHILD_PREFIX|][0] == 's';
    assert IsFolded(cp) ==> cp.name[..|FOLDED_PREFIX|][0] == 'f';
  }

  datatype Key = Key(group: Option<string>, status: Status, kind: NameKind)

  function KeyOf(cp: Checkpoint): Key { Key(cp.group, cp.status, KindOfName(cp.name)) }

  /** One bucket: the checkpoints sharing a key, reduced to aggregates. */
  datatype Stat = Stat(
    key: Key, count: nat, minSeq: int, maxSeq: int, minName: string, maxName: string,
    minEnqueuedAt: int, minStartedAt: int, maxStartedAt: int, maxFinishedAt: int, sumAttempts: nat)

  // ---------------------------------------------------------------- what aggregates promise

  function RowsWith(rows: Timeline, key: Key): Timeline {
    Filter(rows, (cp: Checkpoint) => KeyOf(cp) == key)
  }

  function Names(rows: Timeline): set<string> { set cp | cp in rows :: cp.name }

  function Enqueues(rows: Timeline): set<int> { set cp | cp in rows :: cp.enqueuedAt }

  function Starts(rows: Timeline): set<int> { set cp | cp in rows :: cp.startedAt }

  function Ends(rows: Timeline): set<int> { set cp | cp in rows :: cp.finishedAt }

  function Attempts(rows: Timeline): nat {
    if rows == [] then 0 else Attempts(rows[..|rows| - 1]) + rows[|rows| - 1].attempts
  }

  ghost predicate LeastName(
      names: set<string>, v: string) { v in names && forall x :: x in names ==> !TextBefore(x, v) }

  ghost predicate GreatestName(
      names: set<string>, v: string) { v in names && forall x :: x in names ==> !TextBefore(v, x) }

  /** `b` aggregates exactly these rows. */
  ghost predicate Reduces(b: Stat, rows: Timeline) {
    && rows != [] && b.count == |rows|
    && Least(Seqs(rows), Some(b.minSeq)) && Greatest(Seqs(rows), Some(b.maxSeq))
    && LeastName(Names(rows), b.minName) && GreatestName(Names(rows), b.maxName)
    && Least(Enqueues(rows), Some(b.minEnqueuedAt))
    && Least(Starts(rows), Some(b.minStartedAt)) && Greatest(Starts(rows), Some(b.maxStartedAt))
    && Greatest(Ends(rows), Some(b.maxFinishedAt))
    && b.sumAttempts == Attempts(rows)
  }

  ghost predicate DistinctStats(stats: seq<Stat>) {
    forall i, k :: 0 <= i < k < |stats| ==> stats[i].key != stats[k].key
  }

  /** One bucket per key that occurs, in any order: what a store's grouping must give. */
  ghost predicate Aggregates(stats: seq<Stat>, rows: Timeline) {
    && DistinctStats(stats)
    && (forall i :: 0 <= i < |stats| ==> Reduces(stats[i], RowsWith(rows, stats[i].key)))
    && (forall cp :: cp in rows ==> HasKey(stats, KeyOf(cp)))
  }

  ghost predicate HasKey(stats: seq<Stat>, key: Key) { exists i :: 0 <= i < |stats| && stats[i].key == key }

  // ---------------------------------------------------------------- the reference aggregation

  function FirstOf(cp: Checkpoint): Stat {
    Stat(KeyOf(cp), 1, cp.seqNo, cp.seqNo, cp.name, cp.name, cp.enqueuedAt, cp.startedAt, cp.startedAt, cp.finishedAt,
         cp.attempts)
  }

  function Joined(b: Stat, cp: Checkpoint): Stat {
    b.(count := b.count + 1, minSeq := Min(b.minSeq, cp.seqNo), maxSeq := Max(b.maxSeq, cp.seqNo),
       minName := if TextBefore(cp.name, b.minName) then cp.name else b.minName,
       maxName := if TextBefore(b.maxName, cp.name) then cp.name else b.maxName,
       minEnqueuedAt := Min(b.minEnqueuedAt, cp.enqueuedAt), minStartedAt := Min(b.minStartedAt, cp.startedAt),
       maxStartedAt := Max(b.maxStartedAt, cp.startedAt), maxFinishedAt := Max(b.maxFinishedAt, cp.finishedAt),
       sumAttempts := b.sumAttempts + cp.attempts)
  }

  lemma ColumnsGrow(rows: Timeline, cp: Checkpoint)
    ensures Seqs(rows + [cp]) == Seqs(rows) + {cp.seqNo} && Names(rows + [cp]) == Names(rows) + {cp.name}
    ensures Enqueues(rows + [cp]) == Enqueues(rows) + {cp.enqueuedAt}
    ensures Starts(rows + [cp]) == Starts(rows) + {cp.startedAt} && Ends(rows + [cp]) == Ends(rows) + {cp.finishedAt}
    ensures Attempts(rows + [cp]) == Attempts(rows) + cp.attempts
  {
    var all := rows + [cp];
    assert forall x :: x in all <==> x in rows || x == cp;
    assert all[..|rows|] == rows;
  }

  lemma LeastNameAdd(names: set<string>, lo: string, x: string)
    requires LeastName(names, lo)
    ensures LeastName(names + {x}, if TextBefore(x, lo) then x else lo)
  {
    hide TextBefore;
    forall y | y in names ensures TextBefore(x, lo) ==> !TextBefore(y, x) {
      if TextBefore(x, lo) && TextBefore(y, x) { TextOrderTransitive(y, x, lo); }
    }
    TextOrderTotal(x, x);
  }

  lemma GreatestNameAdd(names: set<string>, hi: string, x: string)
    requires GreatestName(names, hi)
    ensures GreatestName(names + {x}, if TextBefore(hi, x) then x else hi)
  {
    hide TextBefore;
    forall y | y in names ensures TextBefore(hi, x) ==> !TextBefore(x, y) {
      if TextBefore(hi, x) && TextBefore(x, y) { TextOrderTransitive(hi, x, y); }
    }
    TextOrderTotal(x, x);
  }

  lemma SeqsJoin(rows: Timeline, cp: Checkpoint, lo: int, hi: int)
    requires Least(Seqs(rows), Some(lo)) && Greatest(Seqs(rows), Some(hi))
    ensures Least(Seqs(rows + [cp]), Some(Min(lo, cp.seqNo))) && Greatest(Seqs(rows + [cp]), Some(Max(hi, cp.seqNo)))
  {
    ColumnsGrow(rows, cp);
    hide *;
    BoundsAdd(Seqs(rows), Some(lo), cp.seqNo);
    BoundsAdd(Seqs(rows), Some(hi), cp.seqNo);
  }

  lemma NamesJoin(rows: Timeline, cp: Checkpoint, lo: string, hi: string)
    requires LeastName(Names(rows), lo) && GreatestName(Names(rows), hi)
    ensures LeastName(Names(rows + [cp]), if TextBefore(cp.name, lo) then cp.name else lo)
    ensures GreatestName(Names(rows + [cp]), if TextBefore(hi, cp.name) then cp.name else hi)
  {
    ColumnsGrow(rows, cp);
    hide *;
    LeastNameAdd(Names(rows), lo, cp.name);
    GreatestNameAdd(Names(rows), hi, cp.name);
  }

  lemma StartsJoin(rows: Timeline, cp: Checkpoint, lo: int, hi: int)
    requires Least(Starts(rows), Some(lo)) && Greatest(Starts(rows), Some(hi))
    ensures Least(Starts(rows + [cp]), Some(Min(lo, cp.startedAt)))
    ensures Greatest(Starts(rows + [cp]), Some(Max(hi, cp.startedAt)))
  {
    ColumnsGrow(rows, cp);
    hide *;
    BoundsAdd(Starts(rows), Some(lo), cp.startedAt);
    BoundsAdd(Starts(rows), Some(hi), cp.startedAt);
  }

  lemma EdgesJoin(rows: Timeline, cp: Checkpoint, lo: int, hi: int)
    requires Least(Enqueues(rows), Some(lo)) && Greatest(Ends(rows), Some(hi))
    ensures Least(Enqueues(rows + [cp]), Some(Min(lo, cp.enqueuedAt)))
    ensures Greatest(Ends(rows + [cp]), Some(Max(hi, cp.finishedAt)))
    ensures Attempts(rows + [cp]) == Attempts(rows) + cp.attempts
  {
    ColumnsGrow(rows, cp);
    hide *;
    BoundsAdd(Enqueues(rows), Some(lo), cp.enqueuedAt);
    BoundsAdd(Ends(rows), Some(hi), cp.finishedAt);
  }

  /** One more row joins a bucket. */
  lemma ReducesJoin(b: Stat, rows: Timeline, cp: Checkpoint)
    requires Reduces(b, rows)
    ensures Reduces(Joined(b, cp), rows + [cp])
  {
    JoinedFields(b, cp);
    SeqsJoin(rows, cp, b.minSeq, b.maxSeq);
    NamesJoin(rows, cp, b.minName, b.maxName);
    StartsJoin(rows, cp, b.minStartedAt, b.maxStartedAt);
    EdgesJoin(rows, cp, b.minEnqueuedAt, b.maxFinishedAt);
    hide Least, Greatest, LeastName, GreatestName, Seqs, Names, Enqueues, Starts, Ends, Attempts, TextBefore, Joined,
         Min, Max, KeyOf;
  }

  lemma JoinedFields(b: Stat, cp: Checkpoint)
    ensures var j := Joined(b, cp);
      && j.count == b.count + 1 && j.minSeq == Min(b.minSeq, cp.seqNo) && j.maxSeq == Max(b.maxSeq, cp.seqNo)
      && j.minName == (if TextBefore(cp.name, b.minName) then cp.name else b.minName)
      && j.maxName == (if TextBefore(b.maxName, cp.name) then cp.name else b.maxName)
      && j.minEnqueuedAt == Min(b.minEnqueuedAt, cp.enqueuedAt) && j.minStartedAt == Min(b.minStartedAt, cp.startedAt)
      && j.maxStartedAt == Max(b.maxStartedAt, cp.startedAt) && j.maxFinishedAt == Max(b.maxFinishedAt, cp.finishedAt)
      && j.sumAttempts == b.sumAttempts + cp.attempts && j.key == b.key
  {
    hide TextBefore;
  }

  lemma ReducesFirst(cp: Checkpoint)
    ensures Reduces(FirstOf(cp), [cp])
  {
    TextOrderTotal(cp.name, cp.name);
    assert [cp][..0] == [];
    assert Attempts([cp]) == Attempts([]) + cp.attempts;
  }

  /** The buckets so far, by key; keys in the order they were met. */
  ghost predicate Bucketed(rows: Timeline, buckets: map<Key, Stat>, order: seq<Key>) {
    && (forall k :: k in buckets <==> k in order)
    && (forall i, k :: 0 <= i < k < |order| ==> order[i] != order[k])
    && (forall k :: BucketRight(rows, buckets, k))
  }

  ghost predicate BucketRight(rows: Timeline, buckets: map<Key, Stat>, k: Key) {
    && (k in buckets <==> RowsWith(rows, k) != [])
    && (k in buckets ==> buckets[k].key == k && Reduces(buckets[k], RowsWith(rows, k)))
  }

  lemma RowsWithSnoc(rows: Timeline, cp: Checkpoint, key: Key)
    ensures RowsWith(rows + [cp], key) == RowsWith(rows, key) + if KeyOf(cp) == key then [cp] else []
  {
    FilterSnoc(rows, (x: Checkpoint) => KeyOf(x) == key, cp);
  }

  lemma BucketedJoin(rows: Timeline, cp: Checkpoint, buckets: map<Key, Stat>, order: seq<Key>)
    requires Bucketed(rows, buckets, order) && KeyOf(cp) in buckets
    ensures Bucketed(rows + [cp], buckets[KeyOf(cp) := Joined(buckets[KeyOf(cp)], cp)], order)
  {
    var key := KeyOf(cp);
    var joined := Joined(buckets[key], cp);
    assert joined.key == buckets[key].key;
    hide Reduces, RowsWith, KeyOf, Joined;
    assert BucketRight(rows, buckets, key);
    assert buckets[key].key == key;
    ReducesJoin(buckets[key], RowsWith(rows, key), cp);
    var all, after := rows + [cp], buckets[key := joined];
    forall k ensures BucketRight(all, after, k) {
      assert BucketRight(rows, buckets, k);
      RowsWithSnoc(rows, cp, k);
      if k != key { assert RowsWith(rows, k) + [] == RowsWith(rows, k); }
    }
  }

  lemma BucketedNew(rows: Timeline, cp: Checkpoint, buckets: map<Key, Stat>, order: seq<Key>)
    requires Bucketed(rows, buckets, order) && KeyOf(cp) !in buckets
    ensures Bucketed(rows + [cp], buckets[KeyOf(cp) := FirstOf(cp)], order + [KeyOf(cp)])
  {
    var key := KeyOf(cp);
    var first := FirstOf(cp);
    assert first.key == key;
    ReducesFirst(cp);
    hide Reduces, RowsWith, KeyOf, FirstOf;
    assert BucketRight(rows, buckets, key);
    assert [] + [cp] == [cp];
    var all, after := rows + [cp], buckets[key := first];
    forall k ensures BucketRight(all, after, k) {
      assert BucketRight(rows, buckets, k);
      RowsWithSnoc(rows, cp, k);
      if k != key { assert RowsWith(rows, k) + [] == RowsWith(rows, k); }
    }
  }

  predicate InGroup(cp: Checkpoint, group: Option<string>) { group.None? || cp.group == group }

  function OnlyGroup(rows: Timeline, group: Option<string>): Timeline {
    Filter(rows, (cp: Checkpoint) => InGroup(cp, group))
  }

  /** The aggregation over checkpoints already in memory, of one group when `group` is given. */
  method CheckpointStatsOf(rows: Timeline, group: Option<string>) returns (stats: seq<Stat>)
    ensures Aggregates(stats, OnlyGroup(rows, group))
  {
    hide Reduces, RowsWith, Filter, TextBefore, KindOfName, Joined;
    var buckets: map<Key, Stat>, order: seq<Key> := map[], [];
    NothingBucketed(group);
    assert rows[..0] == [];
    for i := 0 to |rows|
      invariant Bucketed(OnlyGroup(rows[..i], group), buckets, order)
    {
      var cp, seen := rows[i], OnlyGroup(rows[..i], group);
      assert rows[..i + 1] == rows[..i] + [cp];
      FilterSnoc(rows[..i], (x: Checkpoint) => InGroup(x, group), cp);
      if group.Some? && cp.group != group {
        assert seen + [] == seen;
        continue;
      }
      var key := KeyOf(cp);
      if key in buckets {
        BucketedJoin(seen, cp, buckets, order);
        buckets := buckets[key := Joined(buckets[key], cp)];
      } else {
        BucketedNew(seen, cp, buckets, order);
        buckets, order := buckets[key := FirstOf(cp)], order + [key];
      }
    }
    assert rows[..|rows|] == rows;
    stats := [];
    for i := 0 to |order|
      invariant |stats| == i && forall k :: 0 <= k < i ==> order[k] in buckets && stats[k] == buckets[order[k]]
    {
      assert order[i] in order;
      stats := stats + [buckets[order[i]]];
    }
    BucketsAggregate(OnlyGroup(rows, group), buckets, order, stats);
  }

  lemma NothingBucketed(group: Option<string>)
    ensures OnlyGroup([], group) == [] && Bucketed([], map[], [])
  {
    forall k ensures BucketRight([], map[], k) { assert RowsWith([], k) == []; }
  }

  lemma BucketsAggregate(rows: Timeline, buckets: map<Key, Stat>, order: seq<Key>, stats: seq<Stat>)
    requires Bucketed(rows, buckets, order) && |stats| == |order|
    requires forall k :: 0 <= k < |order| ==> order[k] in buckets && stats[k] == buckets[order[k]]
    ensures Aggregates(stats, rows)
  {
    hide Reduces;
    forall i | 0 <= i < |stats| ensures stats[i].key == order[i] && Reduces(stats[i], RowsWith(rows, stats[i].key)) {
      assert order[i] in order && BucketRight(rows, buckets, order[i]);
    }
    forall cp | cp in rows ensures HasKey(stats, KeyOf(cp)) {
      FilterMember(rows, (x: Checkpoint) => KeyOf(x) == KeyOf(cp), cp);
      hide RowsWith, KeyOf;
      assert BucketRight(rows, buckets, KeyOf(cp));
      assert KeyOf(cp) in order;
      var i :| 0 <= i < |order| && order[i] == KeyOf(cp);
      assert stats[i].key == KeyOf(cp);
    }
  }

  // ---------------------------------------------------------------- sums over buckets

  function SumWhere(stats: seq<Stat>, want: Key -> bool): nat {
    if stats == [] then 0 else (if want(stats[0].key) then stats[0].count else 0) + SumWhere(stats[1..], want)
  }

  function RowsWhere(rows: Timeline, want: Key -> bool): Timeline {
    Filter(rows, (cp: Checkpoint) => want(KeyOf(cp)))
  }

  function RowsWithout(rows: Timeline, key: Key): Timeline {
    Filter(rows, (cp: Checkpoint) => KeyOf(cp) != key)
  }

  /** Setting one key's rows aside splits any count by key. */
  lemma {:induction false} CountSplits(rows: Timeline, key: Key, want: Key -> bool)
    ensures |RowsWhere(rows, want)| ==
      (if want(key) then |RowsWith(rows, key)| else 0) + |RowsWhere(RowsWithout(rows, key), want)|
  {
    hide KeyOf;
    if rows != [] {
      CountSplits(rows[1..], key, want);
      if KeyOf(rows[0]) != key { assert RowsWithout(rows, key)[1..] == RowsWithout(rows[1..], key); }
    }
  }

  lemma {:induction false} OthersUntouched(rows: Timeline, key: Key, other: Key)
    requires key != other
    ensures RowsWith(RowsWithout(rows, key), other) == RowsWith(rows, other)
  {
    hide KeyOf;
    if rows != [] {
      OthersUntouched(rows[1..], key, other);
      if KeyOf(rows[0]) != key { assert RowsWithout(rows, key)[1..] == RowsWithout(rows[1..], key); }
    }
  }

  ghost predicate CountsMatch(stats: seq<Stat>, rows: Timeline) {
    && DistinctStats(stats)
    && (forall i :: 0 <= i < |stats| ==> stats[i].count == |RowsWith(rows, stats[i].key)|)
    && (forall cp :: cp in rows ==> HasKey(stats, KeyOf(cp)))
  }

  lemma CountsMatchRest(stats: seq<Stat>, rows: Timeline)
    requires stats != [] && CountsMatch(stats, rows)
    ensures CountsMatch(stats[1..], RowsWithout(rows, stats[0].key))
  {
    hide KeyOf, RowsWith, RowsWithout;
    var rest, left := stats[1..], RowsWithout(rows, stats[0].key);
    forall i | 0 <= i < |rest| ensures rest[i].count == |RowsWith(left, rest[i].key)| {
      assert rest[i] == stats[i + 1];
      OthersUntouched(rows, stats[0].key, rest[i].key);
    }
    forall cp | cp in left ensures HasKey(rest, KeyOf(cp)) {
      LeftOver(rows, stats[0].key, cp);
      var i :| 0 <= i < |stats| && stats[i].key == KeyOf(cp);
      assert rest[i - 1].key == KeyOf(cp);
    }
  }

  lemma LeftOver(rows: Timeline, key: Key, cp: Checkpoint)
    ensures cp in RowsWithout(rows, key) <==> cp in rows && KeyOf(cp) != key
  {
    FilterMember(rows, (x: Checkpoint) => KeyOf(x) != key, cp);
  }

  /** Any count by key is the sum of the counts of its buckets. */
  lemma {:induction false} SumIsCount(stats: seq<Stat>, rows: Timeline, want: Key -> bool)
    requires CountsMatch(stats, rows)
    ensures SumWhere(stats, want) == |RowsWhere(rows, want)|
    decreases |stats|
  {
    if stats == [] {
      EmptyOrFirst(rows);
    } else {
      hide KeyOf, RowsWith, RowsWithout, RowsWhere;
      CountsMatchRest(stats, rows);
      SumIsCount(stats[1..], RowsWithout(rows, stats[0].key), want);
      CountSplits(rows, stats[0].key, want);
    }
  }

  lemma EmptyOrFirst(rows: Timeline)
    ensures rows == [] || rows[0] in rows
  {
  }

  lemma AggregatesCount(stats: seq<Stat>, rows: Timeline)
    requires Aggregates(stats, rows)
    ensures CountsMatch(stats, rows)
  {
    hide RowsWith, KeyOf;
  }
}
