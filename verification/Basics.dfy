/** Small vocabulary shared by the other modules: optional values and decimal numerals. */
module Basics {

  datatype Option<+T> = None | Some(value: T)

  predicate IsDigit(c: char) { '0' <= c <= '9' }

  predicate AllDigits(s: string) {
    forall i :: 0 <= i < |s| ==> IsDigit(s[i])
  }

  function DigitValue(c: char): (v: nat)
    requires IsDigit(c)
    ensures v < 10
  {
    c as nat - '0' as nat
  }

  function DigitChar(d: nat): (c: char)
    requires d < 10
    ensures IsDigit(c) && DigitValue(c) == d
  {
    (d + '0' as nat) as char
  }

  /** The number a digit string denotes; leading zeros are allowed, as they are to `Number(...)`. */
  function Parse(s: string): nat
    requires AllDigits(s)
  {
    if s == [] then 0 else Parse(s[..|s| - 1]) * 10 + DigitValue(s[|s| - 1])
  }

  /** The decimal numeral of `n`, without leading zeros. */
  function Decimal(n: nat): (s: string)
    ensures s != [] && AllDigits(s) && Parse(s) == n
  {
    if n < 10 then
      [DigitChar(n)]
    else
      var front := Decimal(n / 10);
      var s := front + [DigitChar(n % 10)];
      assert s[..|s| - 1] == front;
      s
  }

  /** Distinct numbers have distinct numerals. */
  lemma DecimalInjective(m: nat, n: nat)
    requires Decimal(m) == Decimal(n)
    ensures m == n
  {
    assert Parse(Decimal(m)) == Parse(Decimal(n));
  }

  predicate StartsWith(s: string, prefix: string) {
    |prefix| <= |s| && s[..|prefix|] == prefix
  }

  function Min(a: int, b: int): int { if a <= b then a else b }

  function Max(a: int, b: int): int { if a >= b then a else b }

  // ---------------------------------------------------------------- lexicographic order

  /** `a` comes before `b`, units compared by rank. */
  predicate Precedes<T(==)>(a: seq<T>, b: seq<T>, rank: T -> int) {
    if b == [] then false
    else if a == [] then true
    else if a[0] != b[0] then rank(a[0]) < rank(b[0])
    else Precedes(a[1..], b[1..], rank)
  }

  lemma {:induction false} PrecedesTotal<T>(a: seq<T>, b: seq<T>, rank: T -> int)
    requires forall x, y :: x != y ==> rank(x) != rank(y)
    ensures !Precedes(a, a, rank)
    ensures a != b ==> (Precedes(a, b, rank) <==> !Precedes(b, a, rank))
  {
    if a != [] && b != [] {
      PrecedesTotal(a[1..], b[1..], rank);
      assert a == [a[0]] + a[1..] && b == [b[0]] + b[1..];
    } else if a != [] {
      PrecedesTotal(a[1..], a[1..], rank);
    }
  }

  lemma {:induction false} PrecedesTransitive<T>(a: seq<T>, b: seq<T>, c: seq<T>, rank: T -> int)
    requires Precedes(a, b, rank) && Precedes(b, c, rank)
    ensures Precedes(a, c, rank)
  {
    if a != [] && a[0] == b[0] == c[0] { PrecedesTransitive(a[1..], b[1..], c[1..], rank); }
  }

  function CharRank(c: char): int { c as int }

  predicate TextBefore(a: string, b: string) { Precedes(a, b, CharRank) }

  lemma TextOrderTotal(a: string, b: string)
    ensures !TextBefore(a, a)
    ensures a != b ==> (TextBefore(a, b) <==> !TextBefore(b, a))
  {
    PrecedesTotal(a, b, CharRank);
  }

  lemma TextOrderTransitive(a: string, b: string, c: string)
    requires TextBefore(a, b) && TextBefore(b, c)
    ensures TextBefore(a, c)
  {
    PrecedesTransitive(a, b, c, CharRank);
  }

  // ---------------------------------------------------------------- sizes

  lemma SubsetSize<T>(a: set<T>, b: set<T>)
    requires a <= b
    ensures |a| <= |b|
  {
    assert b == a + (b - a);
  }
}
