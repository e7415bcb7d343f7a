/** Sorting, by any order or by an integer key, and what a strictly sorted list is determined by. */
module Ordering {

  ghost predicate StrictBy<T>(xs: seq<T>, key: T -> int) {
    forall i, k :: 0 <= i < k < |xs| ==> key(xs[i]) < key(xs[k])
  }

  ghost predicate DistinctBy<T>(xs: seq<T>, key: T -> int) {
    forall i, k :: 0 <= i < k < |xs| ==> key(xs[i]) != key(xs[k])
  }

  /** Strictly ascending under an order. */
  ghost predicate Ascending<T(!new)>(xs: seq<T>, before: (T, T) -> bool) {
    forall i, k :: 0 <= i < k < |xs| ==> before(xs[i], xs[k])
  }

  function Inserted<T>(x: T, xs: seq<T>, before: (T, T) -> bool): seq<T> {
    if xs == [] || !before(xs[0], x) then [x] + xs else [xs[0]] + Inserted(x, xs[1..], before)
  }

  /** Stable, as the last element inserted goes in front of its equals. */
  function Sorted<T>(xs: seq<T>, before: (T, T) -> bool): seq<T> {
    if xs == [] then [] else Inserted(xs[0], Sorted(xs[1..], before), before)
  }

  function ByKey<T>(key: T -> int): (T, T) -> bool { (a: T, b: T) => key(a) < key(b) }

  function SortedBy<T>(xs: seq<T>, key: T -> int): seq<T> { Sorted(xs, ByKey(key)) }

  lemma {:induction false} InsertedMember<T>(x: T, xs: seq<T>, before: (T, T) -> bool, y: T)
    ensures y in Inserted(x, xs, before) <==> y == x || y in xs
  {
    if xs != [] && before(xs[0], x) {
      InsertedMember(x, xs[1..], before, y);
      assert xs == [xs[0]] + xs[1..];
    }
  }

  lemma {:induction false} SortedMember<T>(xs: seq<T>, before: (T, T) -> bool, y: T)
    ensures y in Sorted(xs, before) <==> y in xs
  {
    if xs != [] {
      SortedMember(xs[1..], before, y);
      InsertedMember(xs[0], Sorted(xs[1..], before), before, y);
      assert xs == [xs[0]] + xs[1..];
    }
  }

  ghost predicate Transitive<T(!new)>(before: (T, T) -> bool) {
    forall a, b, c :: before(a, b) && before(b, c) ==> before(a, c)
  }

  /** Inserting an element that compares with all there are keeps the order. */
  lemma {:induction false} InsertedAscending<T(!new)>(x: T, xs: seq<T>, before: (T, T) -> bool)
    requires Transitive(before) && Ascending(xs, before) && forall y :: y in xs ==> before(x, y) || before(y, x)
    ensures Ascending(Inserted(x, xs, before), before)
  {
    if xs != [] && before(xs[0], x) {
      var rest := Inserted(x, xs[1..], before);
      assert forall y :: y in xs[1..] ==> y in xs;
      InsertedAscending(x, xs[1..], before);
      forall k | 0 <= k < |rest| ensures before(xs[0], rest[k]) {
        InsertedMember(x, xs[1..], before, rest[k]);
        if rest[k] != x {
          var i :| 0 <= i < |xs[1..]| && xs[1..][i] == rest[k];
          assert xs[i + 1] == rest[k];
        }
      }
    } else if xs != [] {
      assert xs[0] in xs;
      forall k | 0 <= k < |xs| ensures before(x, xs[k]) { }
    }
  }

  lemma InsertedStrict<T(!new)>(x: T, xs: seq<T>, key: T -> int)
    requires StrictBy(xs, key) && forall y :: y in xs ==> key(y) != key(x)
    ensures StrictBy(Inserted(x, xs, ByKey(key)), key)
  {
    InsertedAscending(x, xs, ByKey(key));
  }

  lemma {:induction false} SortedStrict<T(!new)>(xs: seq<T>, key: T -> int)
    requires DistinctBy(xs, key)
    ensures StrictBy(SortedBy(xs, key), key)
  {
    if xs != [] {
      var rest := SortedBy(xs[1..], key);
      SortedStrict(xs[1..], key);
      forall y | y in rest ensures key(y) != key(xs[0]) {
        SortedMember(xs[1..], ByKey(key), y);
        var i :| 0 <= i < |xs[1..]| && xs[1..][i] == y;
        assert xs[i + 1] == y;
      }
      InsertedStrict(xs[0], rest, key);
    }
  }

  lemma StrictHead<T>(xs: seq<T>, key: T -> int, y: T)
    requires xs != [] && StrictBy(xs, key)
    ensures y in xs ==> key(xs[0]) <= key(y)
    ensures StrictBy(xs[1..], key)
    ensures y in xs[1..] <==> y in xs && y != xs[0]
  {
    assert xs == [xs[0]] + xs[1..];
    if y in xs[1..] {
      var i :| 0 <= i < |xs[1..]| && xs[1..][i] == y;
      assert xs[i + 1] == y;
    }
  }

  /** A strictly sorted list is determined by its elements. */
  lemma {:induction false} StrictUnique<T>(a: seq<T>, b: seq<T>, key: T -> int)
    requires StrictBy(a, key) && StrictBy(b, key) && forall x :: x in a <==> x in b
    ensures a == b
  {
    assert b != [] ==> b[0] in b && b[0] in a;
    assert a != [] ==> a[0] in a && a[0] in b;
    if a != [] {
      StrictHead(a, key, b[0]);
      StrictHead(b, key, a[0]);
      SameHead(a, b, key);
      forall x ensures x in a[1..] <==> x in b[1..] {
        StrictHead(a, key, x);
        StrictHead(b, key, x);
      }
      StrictUnique(a[1..], b[1..], key);
      assert a == [a[0]] + a[1..] && b == [b[0]] + b[1..];
    }
  }

  lemma SameHead<T>(a: seq<T>, b: seq<T>, key: T -> int)
    requires StrictBy(a, key) && a != [] && b != [] && b[0] in a && key(a[0]) == key(b[0])
    ensures a[0] == b[0]
  {
  }

  /** Sorting leaves a strictly sorted list alone. */
  lemma SortedAlready<T(!new)>(xs: seq<T>, key: T -> int)
    requires StrictBy(xs, key)
    ensures SortedBy(xs, key) == xs
  {
    SortedStrict(xs, key);
    forall x ensures x in SortedBy(xs, key) <==> x in xs { SortedMember(xs, ByKey(key), x); }
    StrictUnique(SortedBy(xs, key), xs, key);
  }

  // ---------------------------------------------------------------- merging

  function Merged<T>(a: seq<T>, b: seq<T>, key: T -> int): seq<T> {
    if a == [] then b
    else if b == [] then a
    else if key(a[0]) < key(b[0]) then [a[0]] + Merged(a[1..], b, key)
    else [b[0]] + Merged(a, b[1..], key)
  }

  lemma {:induction false} MergedMember<T>(a: seq<T>, b: seq<T>, key: T -> int, x: T)
    ensures x in Merged(a, b, key) <==> x in a || x in b
  {
    if a != [] && b != [] {
      assert a == [a[0]] + a[1..] && b == [b[0]] + b[1..];
      if key(a[0]) < key(b[0]) { MergedMember(a[1..], b, key, x); } else { MergedMember(a, b[1..], key, x); }
    }
  }

  lemma {:induction false} MergedStrict<T>(a: seq<T>, b: seq<T>, key: T -> int)
    requires StrictBy(a, key) && StrictBy(b, key) && forall x, y :: x in a && y in b ==> key(x) != key(y)
    ensures StrictBy(Merged(a, b, key), key)
  {
    if a != [] && b != [] {
      if key(a[0]) < key(b[0]) {
        StrictHead(a, key, a[0]);
        forall x | x in a[1..] ensures x in a { }
        MergedStrict(a[1..], b, key);
        HeadBelow(a[0], a[1..], b, key);
      } else {
        StrictHead(b, key, b[0]);
        forall x | x in b[1..] ensures x in b { }
        MergedStrict(a, b[1..], key);
        HeadBelow(b[0], a, b[1..], key);
      }
    }
  }

  lemma HeadBelow<T>(x: T, a: seq<T>, b: seq<T>, key: T -> int)
    requires StrictBy(Merged(a, b, key), key)
    requires forall y :: y in a || y in b ==> key(x) < key(y)
    ensures StrictBy([x] + Merged(a, b, key), key)
  {
    var rest := Merged(a, b, key);
    forall k | 0 <= k < |rest| ensures key(x) < key(rest[k]) {
      MergedMember(a, b, key, rest[k]);
    }
  }

  /** Sorting two strictly sorted lists of different keys together merges them. */
  lemma SortMerges<T(!new)>(a: seq<T>, b: seq<T>, key: T -> int)
    requires StrictBy(a, key) && StrictBy(b, key) && forall x, y :: x in a && y in b ==> key(x) != key(y)
    ensures SortedBy(a + b, key) == Merged(a, b, key)
  {
    assert DistinctBy(a + b, key);
    SortedStrict(a + b, key);
    MergedStrict(a, b, key);
    forall x ensures x in SortedBy(a + b, key) <==> x in Merged(a, b, key) {
      SortedMember(a + b, ByKey(key), x);
      MergedMember(a, b, key, x);
    }
    StrictUnique(SortedBy(a + b, key), Merged(a, b, key), key);
  }

  function First<T>(n: nat, xs: seq<T>): seq<T> { if n < |xs| then xs[..n] else xs }

  /** The first `n` of a merge need no more than the first `n` of either list. */
  lemma {:induction false} FirstOfMerge<T>(n: nat, m: nat, a: seq<T>, b: seq<T>, key: T -> int)
    requires n <= m
    ensures First(n, Merged(First(m, a), b, key)) == First(n, Merged(a, b, key))
    decreases n, |a| + |b|
  {
    var short := First(m, a);
    if n > 0 && a != [] && b != [] {
      assert short != [] && short[0] == a[0];
      if key(a[0]) < key(b[0]) {
        FirstOfMerge(n - 1, m - 1, a[1..], b, key);
        assert short[1..] == First(m - 1, a[1..]);
        FirstCons(n, a[0], Merged(short[1..], b, key));
        FirstCons(n, a[0], Merged(a[1..], b, key));
      } else {
        FirstOfMerge(n - 1, m, a, b[1..], key);
        FirstCons(n, b[0], Merged(short, b[1..], key));
        FirstCons(n, b[0], Merged(a, b[1..], key));
      }
    }
  }

  lemma FirstCons<T>(n: nat, x: T, xs: seq<T>)
    requires n > 0
    ensures First(n, [x] + xs) == [x] + First(n - 1, xs)
  {
  }
}
