/**
 * The canonical text is faithful: two values have the same text exactly when they are the same JSON
 * value up to the order of object keys.
 */
module CanonicalJsonFaithful {
  import opened Basics
  import opened CanonicalJson
  import opened Ordering

  // ---------------------------------------------------------------- strings read back

  lemma HexInjective(c: int, d: int)
    requires 0 <= c < 16 && 0 <= d < 16 && Hex(c) == Hex(d)
    ensures c == d
  {
  }

  lemma UnicodeEscapeInjective(u: Unit, v: Unit)
    requires UnicodeEscape(u) == UnicodeEscape(v)
    ensures u == v
  {
    var s, t := UnicodeEscape(u), UnicodeEscape(v);
    assert s[2] == t[2] && s[3] == t[3] && s[4] == t[4] && s[5] == t[5];
    HexInjective(u / 4096, v / 4096);
    HexInjective(u / 256 % 16, v / 256 % 16);
    HexInjective(u / 16 % 16, v / 16 % 16);
    HexInjective(u % 16, v % 16);
    Digits(u);
    Digits(v);
  }

  lemma Digits(u: Unit)
    ensures u == u / 4096 * 4096 + u / 256 % 16 * 256 + u / 16 % 16 * 16 + u % 16
  {
    assert u / 256 / 16 == u / 4096;
    assert u / 16 / 16 == u / 256;
  }

  /** Two pieces that begin the same text stand for the same units and are equally long. */
  lemma PieceReadsBack(s: Text, t: Text, x: Text, y: Text)
    requires s != [] && t != [] && Piece(s) + x == Piece(t) + y
    ensures PieceLength(s) == PieceLength(t) && s[..PieceLength(s)] == t[..PieceLength(t)] && x == y
  {
    var p, q := Piece(s), Piece(t);
    assert (p + x)[0] == p[0] && (q + y)[0] == q[0];
    if |p| > 1 { assert (p + x)[1] == p[1]; }
    if |q| > 1 { assert (q + y)[1] == q[1]; }
    PieceShape(s);
    PieceShape(t);
    assert |p| == |q|;
    assert p == (p + x)[..|p|] && q == (q + y)[..|q|];
    assert x == (p + x)[|p|..] && y == (q + y)[|q|..];
    if |p| == 6 {
      UnicodeEscapeInjective(s[0], t[0]);
      assert s[..1] == [s[0]] && t[..1] == [t[0]];
    }
  }

  /** The first two units of a piece tell its kind. */
  lemma PieceShape(s: Text)
    requires s != []
    ensures var p := Piece(s);
      || (|p| == 1 && p == [s[0]] == s[..1] && PieceLength(s) == 1 &&
          p[0] != BACKSLASH && p[0] != QUOTE && !IsHigh(p[0]))
      || (|p| == 2 && PieceLength(s) == 2 && p == s[..2] && IsHigh(p[0]))
      || (|p| == 2 && p[0] == BACKSLASH && p[1] != LETTER_U && PieceLength(s) == 1 && ShortEscape(s[0]) == Some(p[1]))
      || (|p| == 6 && p[0] == BACKSLASH && p[1] == LETTER_U && PieceLength(s) == 1 && p == UnicodeEscape(s[0]))
  {
  }

  /** An escaped string ends at its closing quote, and reads back as the units it was made from. */
  lemma {:induction false} EscapedReadsBack(s: Text, t: Text, x: Text, y: Text)
    requires Escaped(s) + [QUOTE] + x == Escaped(t) + [QUOTE] + y
    ensures s == t && x == y
    decreases |s|
  {
    hide Piece, PieceLength;
    var left, right := Escaped(s) + [QUOTE] + x, Escaped(t) + [QUOTE] + y;
    EscapedStart(s, x);
    EscapedStart(t, y);
    if s == [] {
      assert left[1..] == x && right[1..] == y;
    } else {
      var m, n := PieceLength(s), PieceLength(t);
      var restS, restT := Escaped(s[m..]) + [QUOTE] + x, Escaped(t[n..]) + [QUOTE] + y;
      assert left == Piece(s) + restS && right == Piece(t) + restT;
      PieceReadsBack(s, t, restS, restT);
      EscapedReadsBack(s[m..], t[n..], x, y);
      assert s == s[..m] + s[m..] && t == t[..n] + t[n..];
    }
  }

  lemma EscapedStart(s: Text, x: Text)
    ensures (Escaped(s) + [QUOTE] + x)[0] == QUOTE <==> s == []
  {
    if s != [] {
      PieceShape(s);
      assert (Escaped(s) + [QUOTE] + x)[0] == Piece(s)[0];
    }
  }

  lemma QuotedReadsBack(s: Text, t: Text, x: Text, y: Text)
    requires Quoted(s) + x == Quoted(t) + y
    ensures s == t && x == y
  {
    var left, right := Escaped(s) + [QUOTE] + x, Escaped(t) + [QUOTE] + y;
    assert Quoted(s) + x == [QUOTE] + left && Quoted(t) + y == [QUOTE] + right;
    assert ([QUOTE] + left)[1..] == left && ([QUOTE] + right)[1..] == right;
    EscapedReadsBack(s, t, x, y);
  }

  // ---------------------------------------------------------------- values read back

  /** What can follow a value inside a text. */
  predicate Delimited(x: Text) {
    x == [] || x[0] == COMMA || x[0] == CLOSE_BRACKET || x[0] == CLOSE_BRACE
  }

  lemma {:induction false} NumeralReadsBack(s: Text, t: Text, x: Text, y: Text)
    requires forall i :: 0 <= i < |s| ==> IsNumeralUnit(s[i])
    requires forall i :: 0 <= i < |t| ==> IsNumeralUnit(t[i])
    requires Delimited(x) && Delimited(y) && s + x == t + y
    ensures s == t && x == y
  {
    if |s| < |t| { Overlap(s, t, x, y); }
    if |t| < |s| { Overlap(t, s, y, x); }
    var left, right := s + x, t + y;
    assert s == left[..|s|] && t == right[..|t|];
    assert x == left[|s|..] && y == right[|t|..];
  }

  /** When one part of a text is shorter than another, what follows it begins inside the other. */
  lemma Overlap(s: Text, t: Text, x: Text, y: Text)
    requires s + x == t + y && |s| < |t|
    ensures x != [] && x[0] == t[|s|]
  {
    var left, right := s + x, t + y;
    assert |left| == |right|;
    assert left[|s|] == x[0] && right[|s|] == t[|s|];
  }

  /** The constructor a text's first unit announces. */
  function KindOf(u: Unit): nat {
    if u == 110 then 0
    else if u == 116 || u == 102 then 1
    else if IsNumeralUnit(u) then 2
    else if u == QUOTE then 3
    else if u == OPEN_BRACKET then 4
    else if u == OPEN_BRACE then 5
    else 6
  }

  lemma PrintStart(j: Json)
    ensures Print(j) != []
    ensures KindOf(Print(j)[0]) ==
      match j case Null => 0 case Bool(_) => 1 case Number(_) => 2 case Str(_) => 3 case Arr(_) => 4 case Obj(_) => 5
  {
  }

  lemma BoolReadsBack(a: bool, b: bool, x: Text, y: Text)
    requires BoolText(a) + x == BoolText(b) + y
    ensures a == b && x == y
  {
    assert (BoolText(a) + x)[0] == BoolText(a)[0] && (BoolText(b) + y)[0] == BoolText(b)[0];
    assert x == (BoolText(a) + x)[|BoolText(a)|..] && y == (BoolText(b) + y)[|BoolText(b)|..];
  }

  /** A printed value followed by a delimiter, or by nothing, reads back in one way only. */
  lemma {:induction false} PrintReadsBack(a: Json, b: Json, x: Text, y: Text)
    requires Delimited(x) && Delimited(y) && Print(a) + x == Print(b) + y
    ensures a == b && x == y
    decreases a, 1
  {
    PrintStart(a);
    PrintStart(b);
    assert (Print(a) + x)[0] == Print(a)[0] && (Print(b) + y)[0] == Print(b)[0];
    match a {
      case Null => assert x == (NullText + x)[4..] && y == (NullText + y)[4..];
      case Bool(_) => BoolReadsBack(a.b, b.b, x, y);
      case Number(_) => NumeralReadsBack(a.numeral, b.numeral, x, y);
      case Str(_) => QuotedReadsBack(a.text, b.text, x, y);
      case Arr(_) => ArrReadsBack(a.items, b.items, x, y);
      case Obj(_) => ObjReadsBack(a.fields, b.fields, x, y);
    }
  }

  lemma {:induction false} ArrReadsBack(a: seq<Json>, b: seq<Json>, x: Text, y: Text)
    requires Print(Arr(a)) + x == Print(Arr(b)) + y
    ensures a == b && x == y
    decreases a, 2
  {
    var left, right := Join(Prints(a)) + [CLOSE_BRACKET] + x, Join(Prints(b)) + [CLOSE_BRACKET] + y;
    assert Print(Arr(a)) + x == [OPEN_BRACKET] + left && Print(Arr(b)) + y == [OPEN_BRACKET] + right;
    assert left == ([OPEN_BRACKET] + left)[1..] && right == ([OPEN_BRACKET] + right)[1..];
    if a != [] { FirstItem(a, x); }
    if b != [] { FirstItem(b, y); }
    if a == [] || b == [] {
      assert Join(Prints([])) == [];
      if a == [] { assert left == [CLOSE_BRACKET] + x && left[1..] == x; }
      if b == [] { assert right == [CLOSE_BRACKET] + y && right[1..] == y; }
    } else {
      var restA := JoinRest(Prints(a[1..])) + [CLOSE_BRACKET] + x;
      var restB := JoinRest(Prints(b[1..])) + [CLOSE_BRACKET] + y;
      RestDelimited(Prints(a[1..]), [CLOSE_BRACKET] + x);
      RestDelimited(Prints(b[1..]), [CLOSE_BRACKET] + y);
      PrintReadsBack(a[0], b[0], restA, restB);
      ItemsReadBack(a[1..], b[1..], x, y);
      assert a == [a[0]] + a[1..] && b == [b[0]] + b[1..];
    }
  }

  lemma Regroup(p: Text, rest: Text, end: Text, x: Text)
    ensures p + rest + end + x == p + (rest + end + x)
    ensures rest + end + x == rest + (end + x)
  {
  }

  lemma FirstItem(a: seq<Json>, x: Text)
    requires a != []
    ensures Join(Prints(a)) + [CLOSE_BRACKET] + x == Print(a[0]) + (JoinRest(Prints(a[1..])) + [CLOSE_BRACKET] + x)
    ensures (Join(Prints(a)) + [CLOSE_BRACKET] + x)[0] != CLOSE_BRACKET
  {
    assert Prints(a)[1..] == Prints(a[1..]);
    assert Join(Prints(a)) == Print(a[0]) + JoinRest(Prints(a[1..]));
    PrintStart(a[0]);
    hide *;
    Regroup(Print(a[0]), JoinRest(Prints(a[1..])), [CLOSE_BRACKET], x);
  }

  lemma RestDelimited(texts: seq<Text>, x: Text)
    requires x != [] && Delimited(x)
    ensures Delimited(JoinRest(texts) + x)
  {
  }

  lemma {:induction false} ItemsReadBack(a: seq<Json>, b: seq<Json>, x: Text, y: Text)
    requires JoinRest(Prints(a)) + [CLOSE_BRACKET] + x == JoinRest(Prints(b)) + [CLOSE_BRACKET] + y
    ensures a == b && x == y
    decreases a, 0
  {
    if a != [] { NextItem(a, x); }
    if b != [] { NextItem(b, y); }
    var left, right := JoinRest(Prints(a)) + [CLOSE_BRACKET] + x, JoinRest(Prints(b)) + [CLOSE_BRACKET] + y;
    if a == [] || b == [] {
      assert JoinRest(Prints([])) == [];
      if a == [] { assert left == [CLOSE_BRACKET] + x && left[1..] == x; }
      if b == [] { assert right == [CLOSE_BRACKET] + y && right[1..] == y; }
    } else {
      var restA := JoinRest(Prints(a[1..])) + [CLOSE_BRACKET] + x;
      var restB := JoinRest(Prints(b[1..])) + [CLOSE_BRACKET] + y;
      assert left[1..] == Print(a[0]) + restA && right[1..] == Print(b[0]) + restB;
      RestDelimited(Prints(a[1..]), [CLOSE_BRACKET] + x);
      RestDelimited(Prints(b[1..]), [CLOSE_BRACKET] + y);
      PrintReadsBack(a[0], b[0], restA, restB);
      ItemsReadBack(a[1..], b[1..], x, y);
      assert a == [a[0]] + a[1..] && b == [b[0]] + b[1..];
    }
  }

  lemma ItemTexts(a: seq<Json>)
    requires a != []
    ensures Prints(a) == [Print(a[0])] + Prints(a[1..]) && Prints(a)[1..] == Prints(a[1..])
  {
  }

  lemma NextItem(a: seq<Json>, x: Text)
    requires a != []
    ensures JoinRest(Prints(a)) + [CLOSE_BRACKET] + x ==
      [COMMA] + (Print(a[0]) + (JoinRest(Prints(a[1..])) + [CLOSE_BRACKET] + x))
  {
    ItemTexts(a);
    var texts := Prints(a);
    var p, rest := Print(a[0]), JoinRest(texts[1..]);
    assert JoinRest(texts) == [COMMA] + p + rest;
    hide *;
    Regroup([COMMA] + p, rest, [CLOSE_BRACKET], x);
    assert [COMMA] + p + (rest + [CLOSE_BRACKET] + x) == [COMMA] + (p + (rest + [CLOSE_BRACKET] + x));
  }

  lemma ObjText(fields: seq<Entry<Json>>, x: Text)
    ensures Print(Obj(fields)) + x == [OPEN_BRACE] + (Join(EntryTexts(PrintEntries(fields))) + [CLOSE_BRACE] + x)
  {
  }

  lemma {:induction false} ObjReadsBack(a: seq<Entry<Json>>, b: seq<Entry<Json>>, x: Text, y: Text)
    requires Print(Obj(a)) + x == Print(Obj(b)) + y
    ensures a == b && x == y
    decreases a, 2
  {
    var left := Join(EntryTexts(PrintEntries(a))) + [CLOSE_BRACE] + x;
    var right := Join(EntryTexts(PrintEntries(b))) + [CLOSE_BRACE] + y;
    hide Print, JoinRest;
    ObjText(a, x);
    ObjText(b, y);
    assert left == ([OPEN_BRACE] + left)[1..] && right == ([OPEN_BRACE] + right)[1..];
    if a != [] { FirstField(a, x); }
    if b != [] { FirstField(b, y); }
    if a == [] || b == [] {
      assert Join(EntryTexts(PrintEntries([]))) == [];
      if a == [] { assert left == [CLOSE_BRACE] + x && left[1..] == x; }
      if b == [] { assert right == [CLOSE_BRACE] + y && right[1..] == y; }
    } else {
      FieldReadsBack(a, b, x, y);
      FieldsReadBack(a[1..], b[1..], x, y);
      assert a == [a[0]] + a[1..] && b == [b[0]] + b[1..];
    }
  }

  /** What follows the first field of an object. */
  function AfterField(fields: seq<Entry<Json>>, x: Text): Text
    requires fields != []
  {
    JoinRest(EntryTexts(PrintEntries(fields[1..]))) + [CLOSE_BRACE] + x
  }

  function FieldText(e: Entry<Json>): Text { Quoted(e.key) + [COLON] + Print(e.value) }

  lemma {:induction false} FieldReadsBack(a: seq<Entry<Json>>, b: seq<Entry<Json>>, x: Text, y: Text)
    requires a != [] && b != []
    requires FieldText(a[0]) + AfterField(a, x) == FieldText(b[0]) + AfterField(b, y)
    ensures a[0] == b[0] && AfterField(a, x) == AfterField(b, y)
    decreases a, 0
  {
    FieldEnd(a, x);
    FieldEnd(b, y);
    hide FieldText, AfterField, Quoted, Print;
    var left := [COLON] + (Print(a[0].value) + AfterField(a, x));
    var right := [COLON] + (Print(b[0].value) + AfterField(b, y));
    QuotedReadsBack(a[0].key, b[0].key, left, right);
    assert left[1..] == Print(a[0].value) + AfterField(a, x) && right[1..] == Print(b[0].value) + AfterField(b, y);
    PrintReadsBack(a[0].value, b[0].value, AfterField(a, x), AfterField(b, y));
  }

  lemma FieldEnd(a: seq<Entry<Json>>, x: Text)
    requires a != []
    ensures FieldText(a[0]) + AfterField(a, x) == Quoted(a[0].key) + ([COLON] + (Print(a[0].value) + AfterField(a, x)))
    ensures Delimited(AfterField(a, x))
  {
    var rest := JoinRest(EntryTexts(PrintEntries(a[1..])));
    RestDelimited(EntryTexts(PrintEntries(a[1..])), [CLOSE_BRACE] + x);
    Regroup([], rest, [CLOSE_BRACE], x);
    var k, v := Quoted(a[0].key), Print(a[0].value);
    assert FieldText(a[0]) == k + [COLON] + v;
    Regroup(k, [COLON], v, AfterField(a, x));
    Regroup([], [COLON], v, AfterField(a, x));
    hide *;
  }

  lemma FirstField(a: seq<Entry<Json>>, x: Text)
    requires a != []
    ensures Join(EntryTexts(PrintEntries(a))) + [CLOSE_BRACE] + x == FieldText(a[0]) + AfterField(a, x)
    ensures (Join(EntryTexts(PrintEntries(a))) + [CLOSE_BRACE] + x)[0] == QUOTE
  {
    FieldTexts(a);
    var texts := EntryTexts(PrintEntries(a));
    var f, rest := FieldText(a[0]), JoinRest(texts[1..]);
    assert Join(texts) == f + rest && f[0] == QUOTE;
    assert AfterField(a, x) == rest + [CLOSE_BRACE] + x;
    hide *;
    Regroup(f, rest, [CLOSE_BRACE], x);
  }

  lemma FieldTexts(a: seq<Entry<Json>>)
    requires a != []
    ensures EntryTexts(PrintEntries(a)) == [FieldText(a[0])] + EntryTexts(PrintEntries(a[1..]))
    ensures EntryTexts(PrintEntries(a))[1..] == EntryTexts(PrintEntries(a[1..]))
  {
    assert PrintEntries(a)[1..] == PrintEntries(a[1..]);
  }

  lemma {:induction false} FieldsReadBack(a: seq<Entry<Json>>, b: seq<Entry<Json>>, x: Text, y: Text)
    requires JoinRest(EntryTexts(PrintEntries(a))) + [CLOSE_BRACE] + x
      == JoinRest(EntryTexts(PrintEntries(b))) + [CLOSE_BRACE] + y
    ensures a == b && x == y
    decreases a, 1
  {
    var left := JoinRest(EntryTexts(PrintEntries(a))) + [CLOSE_BRACE] + x;
    var right := JoinRest(EntryTexts(PrintEntries(b))) + [CLOSE_BRACE] + y;
    if a != [] { NextField(a, x); }
    if b != [] { NextField(b, y); }
    if a == [] || b == [] {
      assert JoinRest(EntryTexts(PrintEntries([]))) == [];
      if a == [] { assert left == [CLOSE_BRACE] + x && left[1..] == x; }
      if b == [] { assert right == [CLOSE_BRACE] + y && right[1..] == y; }
    } else {
      assert left[1..] == FieldText(a[0]) + AfterField(a, x) && right[1..] == FieldText(b[0]) + AfterField(b, y);
      FieldReadsBack(a, b, x, y);
      FieldsReadBack(a[1..], b[1..], x, y);
      assert a == [a[0]] + a[1..] && b == [b[0]] + b[1..];
    }
  }

  lemma NextField(a: seq<Entry<Json>>, x: Text)
    requires a != []
    ensures JoinRest(EntryTexts(PrintEntries(a))) + [CLOSE_BRACE] + x == [COMMA] + (FieldText(a[0]) + AfterField(a, x))
  {
    FieldTexts(a);
    var texts := EntryTexts(PrintEntries(a));
    var f, rest := FieldText(a[0]), JoinRest(texts[1..]);
    assert JoinRest(texts) == [COMMA] + f + rest;
    assert AfterField(a, x) == rest + [CLOSE_BRACE] + x;
    hide *;
    Regroup([COMMA] + f, rest, [CLOSE_BRACE], x);
    assert [COMMA] + f + (rest + [CLOSE_BRACE] + x) == [COMMA] + (f + (rest + [CLOSE_BRACE] + x));
  }

  // ---------------------------------------------------------------- key order

  lemma KeyOrderTotal(a: Text, b: Text)
    ensures !KeyBefore(a, a)
    ensures a != b ==> (KeyBefore(a, b) <==> !KeyBefore(b, a))
  {
    PrecedesTotal(a, b, UnitRank);
  }

  lemma KeyOrderTransitive(a: Text, b: Text, c: Text)
    requires KeyBefore(a, b) && KeyBefore(b, c)
    ensures KeyBefore(a, c)
  {
    PrecedesTransitive(a, b, c, UnitRank);
  }

  ghost predicate InKeyOrder<T>(entries: seq<Entry<T>>) {
    forall i, k :: 0 <= i < k < |entries| ==> KeyBefore(entries[i].key, entries[k].key)
  }

  ghost predicate HasKey<T>(entries: seq<Entry<T>>, key: Text) {
    exists i :: 0 <= i < |entries| && entries[i].key == key
  }

  /** Inserting a new key keeps the order. */
  lemma InsertedInOrder<T(!new)>(e: Entry<T>, entries: seq<Entry<T>>)
    requires InKeyOrder(entries) && !HasKey(entries, e.key)
    ensures InKeyOrder(Inserted(e, entries, EntryBefore))
  {
    hide KeyBefore;
    forall a: Entry<T>, b: Entry<T>, c: Entry<T> | EntryBefore(a, b) && EntryBefore(b, c) ensures EntryBefore(a, c) {
      KeyOrderTransitive(a.key, b.key, c.key);
    }
    forall f | f in entries ensures EntryBefore(e, f) || EntryBefore(f, e) {
      KeyOrderTotal(e.key, f.key);
    }
    InsertedAscending(e, entries, EntryBefore);
  }

  // ---------------------------------------------------------------- canonical trees

  /** Fields strictly in key order, all the way down. */
  ghost predicate IsCanon(j: Json) {
    match j
    case Arr(items) => forall i :: 0 <= i < |items| ==> IsCanon(items[i])
    case Obj(fields) => InKeyOrder(fields) && forall i :: 0 <= i < |fields| ==> IsCanon(fields[i].value)
    case _ => true
  }

  lemma {:induction false} MeaningKeys(fields: seq<Entry<Json>>, key: Text)
    ensures key in FieldMeanings(fields) <==> HasKey(fields, key)
    ensures FieldMeanings(fields) == map[] <==> fields == []
  {
    if fields != [] {
      assert fields[0].key in FieldMeanings(fields);
      MeaningKeys(fields[1..], key);
      if HasKey(fields[1..], key) {
        var i :| 0 <= i < |fields[1..]| && fields[1..][i].key == key;
        assert fields[i + 1].key == key;
      }
      if HasKey(fields, key) {
        var i :| 0 <= i < |fields| && fields[i].key == key;
        if i > 0 { assert fields[1..][i - 1].key == key; }
      }
    }
  }

  lemma {:induction false} InsertedMeanings(e: Entry<Json>, fields: seq<Entry<Json>>)
    requires e.key !in FieldMeanings(fields)
    ensures FieldMeanings(Inserted(e, fields, EntryBefore)) == FieldMeanings(fields)[e.key := Meaning(e.value)]
  {
    if fields == [] || !KeyBefore(fields[0].key, e.key) {
      assert ([e] + fields)[1..] == fields;
    } else {
      assert Inserted(e, fields, EntryBefore)[1..] == Inserted(e, fields[1..], EntryBefore);
      InsertedMeanings(e, fields[1..]);
    }
  }

  /** Putting keys in order changes neither what a value means nor loses anything of it. */
  lemma {:induction false} CanonKeepsMeaning(j: Json)
    requires WellFormed(j)
    ensures Meaning(Canon(j)) == Meaning(j) && IsCanon(Canon(j))
    decreases j, 0
  {
    match j {
      case Arr(items) => CanonsKeepMeaning(items);
      case Obj(fields) => CanonFieldsKeepMeaning(fields);
      case _ =>
    }
  }

  lemma {:induction false} CanonsKeepMeaning(items: seq<Json>)
    requires forall i :: 0 <= i < |items| ==> WellFormed(items[i])
    ensures Meanings(Canons(items)) == Meanings(items)
    ensures forall i :: 0 <= i < |Canons(items)| ==> IsCanon(Canons(items)[i])
    decreases items, 0
  {
    if items != [] {
      CanonKeepsMeaning(items[0]);
      CanonsKeepMeaning(items[1..]);
      assert Canons(items)[1..] == Canons(items[1..]);
    }
  }

  lemma {:induction false} CanonFieldsKeepMeaning(fields: seq<Entry<Json>>)
    requires DistinctKeys(fields) && forall i :: 0 <= i < |fields| ==> WellFormed(fields[i].value)
    ensures FieldMeanings(InOrder(CanonFields(fields))) == FieldMeanings(fields)
    ensures IsCanon(Obj(InOrder(CanonFields(fields))))
    decreases fields, 0
  {
    if fields != [] {
      hide WellFormed, IsCanon, Canon;
      var e, rest := Entry(fields[0].key, Canon(fields[0].value)), InOrder(CanonFields(fields[1..]));
      CanonKeepsMeaning(fields[0].value);
      CanonFieldsKeepMeaning(fields[1..]);
      assert CanonFields(fields)[1..] == CanonFields(fields[1..]);
      assert !HasKey(fields[1..], e.key) by {
        assert forall i :: 0 <= i < |fields[1..]| ==> fields[1..][i] == fields[i + 1];
      }
      MeaningKeys(fields[1..], e.key);
      InsertedMeanings(e, rest);
      MeaningKeys(rest, e.key);
      CanonFieldsInserted(e, rest);
    } else {
      assert CanonFields(fields) == [];
    }
  }

  lemma CanonFieldsInserted(e: Entry<Json>, fields: seq<Entry<Json>>)
    requires IsCanon(Obj(fields)) && IsCanon(e.value) && !HasKey(fields, e.key)
    ensures IsCanon(Obj(Inserted(e, fields, EntryBefore)))
  {
    InsertedInOrder(e, fields);
    var all := Inserted(e, fields, EntryBefore);
    forall i | 0 <= i < |all| ensures IsCanon(all[i].value) {
      assert all[i] in all;
      InsertedMember(e, fields, EntryBefore, all[i]);
    }
  }

  /** A value has only one canonical tree. */
  lemma {:induction false} CanonUnique(a: Json, b: Json)
    requires IsCanon(a) && IsCanon(b) && Meaning(a) == Meaning(b)
    ensures a == b
    decreases a, 0
  {
    match a {
      case Arr(items) => CanonItemsUnique(items, b.items);
      case Obj(fields) => CanonFieldsUnique(fields, b.fields);
      case _ =>
    }
  }

  lemma {:induction false} CanonItemsUnique(a: seq<Json>, b: seq<Json>)
    requires forall i :: 0 <= i < |a| ==> IsCanon(a[i])
    requires forall i :: 0 <= i < |b| ==> IsCanon(b[i])
    requires Meanings(a) == Meanings(b)
    ensures a == b
    decreases a, 0
  {
    if a != [] {
      assert b != [];
      assert Meanings(a)[0] == Meaning(a[0]) && Meanings(b)[0] == Meaning(b[0]);
      assert Meanings(a)[1..] == Meanings(a[1..]) && Meanings(b)[1..] == Meanings(b[1..]);
      CanonUnique(a[0], b[0]);
      CanonItemsUnique(a[1..], b[1..]);
      assert a == [a[0]] + a[1..] && b == [b[0]] + b[1..];
    }
  }

  lemma {:induction false} CanonFieldsUnique(a: seq<Entry<Json>>, b: seq<Entry<Json>>)
    requires InKeyOrder(a) && InKeyOrder(b) && FieldMeanings(a) == FieldMeanings(b)
    requires forall i :: 0 <= i < |a| ==> IsCanon(a[i].value)
    requires forall i :: 0 <= i < |b| ==> IsCanon(b[i].value)
    ensures a == b
    decreases a, 0
  {
    MeaningKeys(a, []);
    MeaningKeys(b, []);
    if a != [] {
      hide IsCanon, KeyBefore;
      FirstKeys(a, b);
      RestMeanings(a);
      RestMeanings(b);
      CanonUnique(a[0].value, b[0].value);
      CanonFieldsUnique(a[1..], b[1..]);
      assert a == [a[0]] + a[1..] && b == [b[0]] + b[1..];
    }
  }

  lemma RestMeanings(fields: seq<Entry<Json>>)
    requires InKeyOrder(fields) && fields != []
    ensures FieldMeanings(fields[1..]) == FieldMeanings(fields) - {fields[0].key}
    ensures fields[0].key in FieldMeanings(fields) && FieldMeanings(fields)[fields[0].key] == Meaning(fields[0].value)
  {
    hide KeyBefore;
    KeyOrderTotal(fields[0].key, fields[0].key);
    MeaningKeys(fields[1..], fields[0].key);
    assert forall i :: 0 <= i < |fields[1..]| ==> fields[1..][i] == fields[i + 1];
    assert !HasKey(fields[1..], fields[0].key);
  }

  lemma FirstKeys(a: seq<Entry<Json>>, b: seq<Entry<Json>>)
    requires InKeyOrder(a) && InKeyOrder(b) && FieldMeanings(a) == FieldMeanings(b) && a != []
    ensures b != [] && a[0].key == b[0].key
  {
    MeaningKeys(a, a[0].key);
    MeaningKeys(b, a[0].key);
    assert a[0].key in FieldMeanings(a);
    var j :| 0 <= j < |b| && b[j].key == a[0].key;
    MeaningKeys(a, b[0].key);
    MeaningKeys(b, b[0].key);
    assert b[0].key in FieldMeanings(b);
    var i :| 0 <= i < |a| && a[i].key == b[0].key;
    KeyOrderTotal(a[0].key, b[0].key);
    KeyOrderTotal(a[0].key, a[0].key);
  }

  // ---------------------------------------------------------------- the theorem

  function MeaningOf(plain: Option<Json>): Value {
    if plain.None? then NullValue else Meaning(plain.value)
  }

  /** What a parsed value is compared as: a value that does not exist in JSON stands for `null`. */
  lemma Faithful(a: Json, b: Json)
    requires WellFormed(a) && WellFormed(b)
    ensures SortedJson(a) == SortedJson(b) <==> Meaning(a) == Meaning(b)
  {
    SortedJsonPrints(a);
    SortedJsonPrints(b);
    CanonKeepsMeaning(a);
    CanonKeepsMeaning(b);
    if Meaning(a) == Meaning(b) {
      CanonUnique(Canon(a), Canon(b));
    }
    if SortedJson(a) == SortedJson(b) {
      assert Print(Canon(a)) + [] == Print(Canon(a)) && Print(Canon(b)) + [] == Print(Canon(b));
      PrintReadsBack(Canon(a), Canon(b), [], []);
    }
  }

  /** Two completions have the same canonical text exactly when they are the same JSON value. */
  lemma CanonicalTextFaithful(a: Option<Json>, b: Option<Json>)
    requires (a.Some? ==> WellFormed(a.value)) && (b.Some? ==> WellFormed(b.value))
    ensures CanonicalText(a) == CanonicalText(b) <==> MeaningOf(a) == MeaningOf(b)
  {
    var x, y := if a.Some? then a.value else Null, if b.Some? then b.value else Null;
    Faithful(x, y);
  }
}
