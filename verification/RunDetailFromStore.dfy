/** Detail views answered from buckets and queries, and why they are the simple views. */
module RunDetailFromStore {
  import opened Basics
  import opened Ordering
  import opened RunDetail
  import opened RunDetailStore

  // ---------------------------------------------------------------- queries

  datatype Query = Query(
    group: Option<string>, excludeGroups: set<string>, statuses: Option<set<Status>>, prefix: Option<string>,
    offset: nat, limit: Option<nat>)

  predicate Selects(q: Query, cp: Checkpoint) {
    && (q.group.None? || cp.group == q.group)
    && (cp.group.None? || cp.group.value !in q.excludeGroups)
    && (q.statuses.None? || cp.status in q.statuses.value)
    && (q.prefix.None? || StartsWith(cp.name, q.prefix.value))
  }

  function Slice(rows: Timeline, offset: nat, limit: Option<nat>): Timeline {
    var rest := if offset < |rows| then rows[offset..] else [];
    if limit.None? then rest else First(limit.value, rest)
  }

  function QueryCheckpointsOf(rows: Timeline, q: Query): Timeline {
    Slice(SortedBy(Filter(rows, (cp: Checkpoint) => Selects(q, cp)), SeqOf), q.offset, q.limit)
  }

  /** A query of a list in seq order selects and slices. */
  lemma QueryReads(rows: Timeline, q: Query, keep: Checkpoint -> bool)
    requires InSeqOrder(rows) && forall cp :: cp in rows ==> keep(cp) == Selects(q, cp)
    ensures QueryCheckpointsOf(rows, q) == Slice(Filter(rows, keep), q.offset, q.limit)
  {
    hide Selects;
    FilterSame(rows, (cp: Checkpoint) => Selects(q, cp), keep);
    FilterOrdered(rows, keep);
    SortedAlready(Filter(rows, keep), SeqOf);
  }

  lemma {:induction false} FilterTwice(
      rows: Timeline, p: Checkpoint -> bool, q: Checkpoint -> bool, both: Checkpoint -> bool)
    requires forall cp :: cp in rows ==> both(cp) == (p(cp) && q(cp))
    ensures Filter(Filter(rows, p), q) == Filter(rows, both)
  {
    if rows != [] {
      FilterTwice(rows[1..], p, q, both);
      if p(rows[0]) { assert Filter(rows, p)[1..] == Filter(rows[1..], p); }
    }
  }

  const AllRows := Query(None, {}, None, None, 0, None)

  /** A query within one group reads the group's members. */
  lemma GroupQuery(rows: Timeline, q: Query, group: string, keep: Checkpoint -> bool)
    requires InSeqOrder(rows) && q.group == Some(group) && q.excludeGroups == {}
    requires forall cp :: keep(cp) == Selects(q.(group := None), cp)
    ensures QueryCheckpointsOf(rows, q) == Slice(Filter(MembersOf(rows, group), keep), q.offset, q.limit)
  {
    QueryReads(rows, q, (cp: Checkpoint) => Selects(q, cp));
    FilterTwice(rows, (cp: Checkpoint) => cp.group == Some(group), keep, (cp: Checkpoint) => Selects(q, cp));
  }

  // ---------------------------------------------------------------- bounds over buckets

  /** If each bucket's bound is a row's, and each row is within a bucket's, the bound of the bounds is the rows'. */
  lemma LeastOfLeasts(rows: set<int>, bounds: set<int>, v: Option<int>)
    requires Least(bounds, v) && bounds <= rows && forall x :: x in rows ==> exists m :: m in bounds && m <= x
    ensures Least(rows, v)
  {
    if v.None? { assert !exists x :: x in rows; }
  }

  lemma GreatestOfGreatests(rows: set<int>, bounds: set<int>, v: Option<int>)
    requires Greatest(bounds, v) && bounds <= rows && forall x :: x in rows ==> exists m :: m in bounds && x <= m
    ensures Greatest(rows, v)
  {
    if v.None? { assert !exists x :: x in rows; }
  }

  function MinSeqs(stats: seq<Stat>): set<int> { set b | b in stats :: b.minSeq }

  function MaxSeqs(stats: seq<Stat>): set<int> { set b | b in stats :: b.maxSeq }

  function BeganAt(b: Stat): int { if Terminal(b.key.status) then b.minStartedAt else b.minEnqueuedAt }

  function MinBegins(stats: seq<Stat>): set<int> { set b | b in stats :: BeganAt(b) }

  function MaxFinishes(stats: seq<Stat>): set<int> { set b | b in stats && Terminal(b.key.status) :: b.maxFinishedAt }

  /** A bucket's rows are among the rows, and share its key. */
  lemma InBucket(rows: Timeline, key: Key, cp: Checkpoint)
    ensures cp in RowsWith(rows, key) <==> cp in rows && KeyOf(cp) == key
  {
    FilterMember(rows, (x: Checkpoint) => KeyOf(x) == key, cp);
  }

  lemma BucketFor(stats: seq<Stat>, rows: Timeline, cp: Checkpoint) returns (b: Stat)
    requires Aggregates(stats, rows) && cp in rows
    ensures b in stats && b.key == KeyOf(cp) && Reduces(b, RowsWith(rows, b.key)) && cp in RowsWith(rows, b.key)
  {
    hide RowsWith, Reduces, KeyOf;
    assert HasKey(stats, KeyOf(cp));
    var i :| 0 <= i < |stats| && stats[i].key == KeyOf(cp);
    b := stats[i];
    InBucket(rows, b.key, cp);
  }

  lemma BucketReduces(stats: seq<Stat>, rows: Timeline, b: Stat)
    requires Aggregates(stats, rows) && b in stats
    ensures Reduces(b, RowsWith(rows, b.key))
  {
    hide RowsWith, Reduces, KeyOf;
    var i :| 0 <= i < |stats| && stats[i] == b;
  }

  lemma SeqBounds(stats: seq<Stat>, rows: Timeline, lo: Option<int>, hi: Option<int>)
    requires Aggregates(stats, rows) && Least(MinSeqs(stats), lo) && Greatest(MaxSeqs(stats), hi)
    ensures Least(Seqs(rows), lo) && Greatest(Seqs(rows), hi)
  {
    hide *;
    FirstSeqBound(stats, rows, lo);
    LastSeqBound(stats, rows, hi);
  }

  lemma FirstSeqBound(stats: seq<Stat>, rows: Timeline, lo: Option<int>)
    requires Aggregates(stats, rows) && Least(MinSeqs(stats), lo)
    ensures Least(Seqs(rows), lo)
  {
    hide RowsWith, KeyOf, Aggregates, Reduces, Least;
    forall b | b in stats ensures b.minSeq in Seqs(rows) {
      BucketReduces(stats, rows, b);
      BucketSeqs(rows, b);
    }
    forall cp | cp in rows ensures exists m :: m in MinSeqs(stats) && m <= cp.seqNo {
      var b := BucketFor(stats, rows, cp);
      RowSeq(rows, b, cp);
      assert b.minSeq in MinSeqs(stats);
    }
    LeastOfLeasts(Seqs(rows), MinSeqs(stats), lo);
  }

  lemma LastSeqBound(stats: seq<Stat>, rows: Timeline, hi: Option<int>)
    requires Aggregates(stats, rows) && Greatest(MaxSeqs(stats), hi)
    ensures Greatest(Seqs(rows), hi)
  {
    hide RowsWith, KeyOf, Aggregates, Reduces, Greatest;
    forall b | b in stats ensures b.maxSeq in Seqs(rows) {
      BucketReduces(stats, rows, b);
      BucketSeqs(rows, b);
    }
    forall cp | cp in rows ensures exists m :: m in MaxSeqs(stats) && cp.seqNo <= m {
      var b := BucketFor(stats, rows, cp);
      RowSeq(rows, b, cp);
      assert b.maxSeq in MaxSeqs(stats);
    }
    GreatestOfGreatests(Seqs(rows), MaxSeqs(stats), hi);
  }

  lemma BucketSeqs(rows: Timeline, b: Stat)
    requires Reduces(b, RowsWith(rows, b.key))
    ensures b.minSeq in Seqs(rows) && b.maxSeq in Seqs(rows)
  {
    hide RowsWith, KeyOf;
    var x :| x in RowsWith(rows, b.key) && x.seqNo == b.minSeq;
    var y :| y in RowsWith(rows, b.key) && y.seqNo == b.maxSeq;
    InBucket(rows, b.key, x);
    InBucket(rows, b.key, y);
  }

  lemma RowSeq(rows: Timeline, b: Stat, cp: Checkpoint)
    requires Reduces(b, RowsWith(rows, b.key)) && cp in RowsWith(rows, b.key)
    ensures b.minSeq <= cp.seqNo <= b.maxSeq
    ensures cp in rows && cp.seqNo in Seqs(rows)
  {
    InBucket(rows, b.key, cp);
    hide RowsWith, KeyOf;
    assert cp.seqNo in Seqs(RowsWith(rows, b.key));
  }

  lemma BeginBounds(stats: seq<Stat>, rows: Timeline, lo: Option<int>)
    requires Aggregates(stats, rows) && Least(MinBegins(stats), lo)
    ensures Least(Begins(rows), lo)
  {
    hide RowsWith, Aggregates;
    forall b | b in stats ensures BeganAt(b) in Begins(rows) {
      BucketReduces(stats, rows, b);
      var x :| x in RowsWith(rows, b.key)
        && (if Terminal(b.key.status) then x.startedAt else x.enqueuedAt) == BeganAt(b);
      InBucket(rows, b.key, x);
      assert Began(x) == BeganAt(b);
    }
    forall cp | cp in rows ensures exists m :: m in MinBegins(stats) && m <= Began(cp) {
      var b := BucketFor(stats, rows, cp);
      assert BeganAt(b) in MinBegins(stats);
      assert cp.startedAt in Starts(RowsWith(rows, b.key)) && cp.enqueuedAt in Enqueues(RowsWith(rows, b.key));
    }
    LeastOfLeasts(Begins(rows), MinBegins(stats), lo);
  }

  lemma FinishBounds(stats: seq<Stat>, rows: Timeline, hi: Option<int>)
    requires Aggregates(stats, rows) && Greatest(MaxFinishes(stats), hi)
    ensures Greatest(Finishes(rows), hi)
  {
    hide RowsWith, Aggregates;
    forall b | b in stats && Terminal(b.key.status) ensures b.maxFinishedAt in Finishes(rows) {
      BucketReduces(stats, rows, b);
      var x :| x in RowsWith(rows, b.key) && x.finishedAt == b.maxFinishedAt;
      InBucket(rows, b.key, x);
    }
    forall cp | cp in rows && Terminal(cp.status) ensures exists m :: m in MaxFinishes(stats) && cp.finishedAt <= m {
      var b := BucketFor(stats, rows, cp);
      assert b.maxFinishedAt in MaxFinishes(stats);
      assert cp.finishedAt in Ends(RowsWith(rows, b.key));
    }
    GreatestOfGreatests(Finishes(rows), MaxFinishes(stats), hi);
  }

  // ---------------------------------------------------------------- the label

  function MinNames(stats: seq<Stat>): set<string> { set b | b in stats :: b.minName }

  function MaxNames(stats: seq<Stat>): set<string> { set b | b in stats :: b.maxName }

  predicate OfChildRuns(b: Stat) { b.key.kind == ChildKind || b.key.kind == FoldedKind }

  function LabelFrom(childRuns: bool, lo: Option<string>, hi: Option<string>): string {
    if childRuns then "child runs" else if lo == hi then (if lo.Some? then lo.value else "") else "steps"
  }

  lemma LabelAgrees(stats: seq<Stat>, rows: Timeline, lo: Option<string>, hi: Option<string>)
    requires Aggregates(stats, rows)
    requires if stats == [] then lo.None? && hi.None?
      else lo.Some? && hi.Some? && LeastName(MinNames(stats), lo.value) && GreatestName(MaxNames(stats), hi.value)
    ensures LabelFrom(exists b :: b in stats && OfChildRuns(b), lo, hi) == LabelOf(rows)
  {
    hide RowsWith, Aggregates, TextBefore, IsChild, IsFolded, KindOfName;
    ChildRunsAgree(stats, rows);
    if stats == [] {
      assert rows == [] by { NoBuckets(rows); }
    } else {
      BucketReduces(stats, rows, stats[0]);
      var some :| some in RowsWith(rows, stats[0].key);
      InBucket(rows, stats[0].key, some);
      NamesBetween(stats, rows, lo.value, hi.value);
      if lo == hi {
        forall cp | cp in rows ensures cp.name == lo.value { TextOrderTotal(cp.name, lo.value); }
      } else if forall cp :: cp in rows ==> cp.name == rows[0].name {
        OneName(stats, rows, rows[0].name);
      }
    }
  }

  lemma NoBuckets(rows: Timeline)
    requires Aggregates([], rows)
    ensures rows == []
  {
    EmptyOrFirst(rows);
  }

  lemma ChildRunsAgree(stats: seq<Stat>, rows: Timeline)
    requires Aggregates(stats, rows)
    ensures (exists b :: b in stats && OfChildRuns(b)) <==> (exists cp :: cp in rows && (IsChild(cp) || IsFolded(cp)))
  {
    hide RowsWith, Aggregates, IsChild, IsFolded, KindOfName;
    if b :| b in stats && OfChildRuns(b) {
      BucketReduces(stats, rows, b);
      var cp :| cp in RowsWith(rows, b.key);
      InBucket(rows, b.key, cp);
      KindsAgree(cp);
    }
    if cp :| cp in rows && (IsChild(cp) || IsFolded(cp)) {
      var b := BucketFor(stats, rows, cp);
      KindsAgree(cp);
      assert OfChildRuns(b);
    }
  }

  lemma NamesBetween(stats: seq<Stat>, rows: Timeline, lo: string, hi: string)
    requires Aggregates(stats, rows) && LeastName(MinNames(stats), lo) && GreatestName(MaxNames(stats), hi)
    ensures forall cp :: cp in rows ==> !TextBefore(cp.name, lo) && !TextBefore(hi, cp.name)
  {
    hide RowsWith, Aggregates, TextBefore;
    forall cp | cp in rows ensures !TextBefore(cp.name, lo) && !TextBefore(hi, cp.name) {
      var b := BucketFor(stats, rows, cp);
      assert b.minName in MinNames(stats) && b.maxName in MaxNames(stats);
      assert cp.name in Names(RowsWith(rows, b.key));
      TextOrderTotal(cp.name, b.minName);
      TextOrderTotal(cp.name, b.maxName);
      if TextBefore(b.minName, cp.name) && TextBefore(cp.name, lo) { TextOrderTransitive(b.minName, cp.name, lo); }
      if TextBefore(cp.name, b.maxName) && TextBefore(hi, cp.name) { TextOrderTransitive(hi, cp.name, b.maxName); }
    }
  }

  lemma OneName(stats: seq<Stat>, rows: Timeline, name: string)
    requires Aggregates(stats, rows) && forall cp :: cp in rows ==> cp.name == name
    ensures forall b :: b in stats ==> b.minName == name && b.maxName == name
  {
    hide RowsWith, Aggregates, TextBefore;
    forall b | b in stats ensures b.minName == name && b.maxName == name {
      BucketReduces(stats, rows, b);
      var x :| x in RowsWith(rows, b.key) && x.name == b.minName;
      var y :| y in RowsWith(rows, b.key) && y.name == b.maxName;
      InBucket(rows, b.key, x);
      InBucket(rows, b.key, y);
    }
  }
}
