/**
 * The order-insensitive text of a JSON value, used to tell whether two completions are the same.
 * Texts are sequences of UTF-16 code units, as the original compares and prints them.
 */
module CanonicalJson {
  import opened Basics
  import opened Ordering

  type Unit = u: int | 0 <= u < 0x10000
  type Text = seq<Unit>

  const QUOTE: Unit := 34
  const COMMA: Unit := 44
  const COLON: Unit := 58
  const OPEN_BRACKET: Unit := 91
  const BACKSLASH: Unit := 92
  const CLOSE_BRACKET: Unit := 93
  const LETTER_U: Unit := 117
  const OPEN_BRACE: Unit := 123
  const CLOSE_BRACE: Unit := 125

  /** Digits, a sign, a point or an exponent mark: the units a printed number is made of. */
  predicate IsNumeralUnit(u: Unit) {
    48 <= u <= 57 || u == 43 || u == 45 || u == 46 || u == 101
  }

  predicate IsNumeral(t: Text) {
    t != [] && forall i :: 0 <= i < |t| ==> IsNumeralUnit(t[i])
  }

  /** A number is represented by the numeral it prints as. */
  type Numeral = t: Text | IsNumeral(t) witness [48]

  datatype Entry<+T> = Entry(key: Text, value: T)

  /** A parsed JSON value: an object's fields in the order its keys enumerate. */
  datatype Json =
    | Null
    | Bool(b: bool)
    | Number(numeral: Numeral)
    | Str(text: Text)
    | Arr(items: seq<Json>)
    | Obj(fields: seq<Entry<Json>>)

  /** The value a JSON tree denotes: an object is a map, so the order of its keys is gone. */
  datatype Value =
    | NullValue
    | BoolValue(b: bool)
    | NumberValue(numeral: Numeral)
    | StrValue(text: Text)
    | ArrValue(items: seq<Value>)
    | ObjValue(fields: map<Text, Value>)

  function Meaning(j: Json): Value {
    match j
    case Null => NullValue
    case Bool(b) => BoolValue(b)
    case Number(numeral) => NumberValue(numeral)
    case Str(text) => StrValue(text)
    case Arr(items) => ArrValue(Meanings(items))
    case Obj(fields) => ObjValue(FieldMeanings(fields))
  }

  function Meanings(items: seq<Json>): seq<Value> {
    if items == [] then [] else [Meaning(items[0])] + Meanings(items[1..])
  }

  function FieldMeanings(fields: seq<Entry<Json>>): map<Text, Value> {
    if fields == [] then map[] else FieldMeanings(fields[1..])[fields[0].key := Meaning(fields[0].value)]
  }

  /** Parsed JSON never repeats a key within an object. */
  predicate WellFormed(j: Json) {
    match j
    case Arr(items) => forall i :: 0 <= i < |items| ==> WellFormed(items[i])
    case Obj(fields) => DistinctKeys(fields) && forall i :: 0 <= i < |fields| ==> WellFormed(fields[i].value)
    case _ => true
  }

  predicate DistinctKeys<T>(entries: seq<Entry<T>>) {
    forall i, k :: 0 <= i < k < |entries| ==> entries[i].key != entries[k].key
  }

  // ---------------------------------------------------------------- printing strings

  predicate IsHigh(u: Unit) { 0xD800 <= u <= 0xDBFF }

  predicate IsLow(u: Unit) { 0xDC00 <= u <= 0xDFFF }

  function Hex(d: int): Unit
    requires 0 <= d < 16
  {
    if d < 10 then 48 + d else 87 + d
  }

  function UnicodeEscape(u: Unit): Text {
    [BACKSLASH, LETTER_U, Hex(u / 4096), Hex(u / 256 % 16), Hex(u / 16 % 16), Hex(u % 16)]
  }

  /** The letter after the backslash, for the units that have a short escape. */
  function ShortEscape(u: Unit): Option<Unit> {
    if u == 8 then Some(98)
    else if u == 9 then Some(116)
    else if u == 10 then Some(110)
    else if u == 12 then Some(102)
    else if u == 13 then Some(114)
    else if u == QUOTE || u == BACKSLASH then Some(u)
    else None
  }

  /** How many units the next piece of a string takes: a surrogate pair stays together. */
  function PieceLength(s: Text): (n: nat)
    requires s != []
    ensures 1 <= n <= |s|
  {
    if |s| > 1 && IsHigh(s[0]) && IsLow(s[1]) then 2 else 1
  }

  /** Its printed form: a pair raw, a lone surrogate or a control unit escaped, the rest as it is. */
  function Piece(s: Text): Text
    requires s != []
  {
    if PieceLength(s) == 2 then s[..2]
    else if ShortEscape(s[0]).Some? then [BACKSLASH, ShortEscape(s[0]).value]
    else if s[0] < 32 || IsHigh(s[0]) || IsLow(s[0]) then UnicodeEscape(s[0])
    else [s[0]]
  }

  function Escaped(s: Text): Text {
    if s == [] then [] else Piece(s) + Escaped(s[PieceLength(s)..])
  }

  function Quoted(s: Text): Text { [QUOTE] + Escaped(s) + [QUOTE] }

  // ---------------------------------------------------------------- printing values

  function Join(texts: seq<Text>): Text {
    if texts == [] then [] else texts[0] + JoinRest(texts[1..])
  }

  function JoinRest(texts: seq<Text>): Text {
    if texts == [] then [] else [COMMA] + texts[0] + JoinRest(texts[1..])
  }

  function EntryText(e: Entry<Text>): Text { Quoted(e.key) + [COLON] + e.value }

  function EntryTexts(entries: seq<Entry<Text>>): seq<Text> {
    if entries == [] then [] else [EntryText(entries[0])] + EntryTexts(entries[1..])
  }

  function BoolText(b: bool): Text {
    if b then [116, 114, 117, 101] else [102, 97, 108, 115, 101]
  }

  const NullText: Text := [110, 117, 108, 108]

  function UnitRank(u: Unit): int { u }

  predicate KeyBefore(a: Text, b: Text) { Precedes(a, b, UnitRank) }

  predicate EntryBefore<T>(a: Entry<T>, b: Entry<T>) { KeyBefore(a.key, b.key) }

  /** The entries in key order. */
  function InOrder<T>(entries: seq<Entry<T>>): seq<Entry<T>> { Sorted(entries, EntryBefore) }

  function SortedJson(j: Json): Text {
    match j
    case Null => NullText
    case Bool(b) => BoolText(b)
    case Number(numeral) => numeral
    case Str(text) => Quoted(text)
    case Arr(items) => [OPEN_BRACKET] + Join(SortedTexts(items)) + [CLOSE_BRACKET]
    case Obj(fields) => [OPEN_BRACE] + Join(EntryTexts(InOrder(SortedEntries(fields)))) + [CLOSE_BRACE]
  }

  function SortedTexts(items: seq<Json>): seq<Text> {
    if items == [] then [] else [SortedJson(items[0])] + SortedTexts(items[1..])
  }

  function SortedEntries(fields: seq<Entry<Json>>): seq<Entry<Text>> {
    if fields == [] then []
    else [Entry(fields[0].key, SortedJson(fields[0].value))] + SortedEntries(fields[1..])
  }

  /** The text compared: a value that does not exist in JSON compares as `null`. */
  function CanonicalText(plain: Option<Json>): Text {
    if plain.None? then NullText else SortedJson(plain.value)
  }

  // ---------------------------------------------------------------- sorting first, printing after

  /** The same value with every object's fields in key order. */
  function Canon(j: Json): Json {
    match j
    case Arr(items) => Arr(Canons(items))
    case Obj(fields) => Obj(InOrder(CanonFields(fields)))
    case _ => j
  }

  function Canons(items: seq<Json>): seq<Json> {
    if items == [] then [] else [Canon(items[0])] + Canons(items[1..])
  }

  function CanonFields(fields: seq<Entry<Json>>): seq<Entry<Json>> {
    if fields == [] then [] else [Entry(fields[0].key, Canon(fields[0].value))] + CanonFields(fields[1..])
  }

  /** Compact JSON, in the order given. */
  function Print(j: Json): Text {
    match j
    case Null => NullText
    case Bool(b) => BoolText(b)
    case Number(numeral) => numeral
    case Str(text) => Quoted(text)
    case Arr(items) => [OPEN_BRACKET] + Join(Prints(items)) + [CLOSE_BRACKET]
    case Obj(fields) => [OPEN_BRACE] + Join(EntryTexts(PrintEntries(fields))) + [CLOSE_BRACE]
  }

  function Prints(items: seq<Json>): seq<Text> {
    if items == [] then [] else [Print(items[0])] + Prints(items[1..])
  }

  function PrintEntries(fields: seq<Entry<Json>>): seq<Entry<Text>> {
    if fields == [] then [] else [Entry(fields[0].key, Print(fields[0].value))] + PrintEntries(fields[1..])
  }

  /** Printing the entries of a sorted insertion is inserting the printed entry. */
  lemma {:induction false} PrintInserted(e: Entry<Json>, fields: seq<Entry<Json>>)
    ensures PrintEntries(Inserted(e, fields, EntryBefore))
         == Inserted(Entry(e.key, Print(e.value)), PrintEntries(fields), EntryBefore)
  {
    if fields != [] && KeyBefore(fields[0].key, e.key) {
      PrintInserted(e, fields[1..]);
      var rest := Inserted(e, fields[1..], EntryBefore);
      assert ([fields[0]] + rest)[1..] == rest;
      assert PrintEntries(fields)[1..] == PrintEntries(fields[1..]);
    } else {
      assert ([e] + fields)[1..] == fields;
    }
  }

  /** The recursion that prints sorted fields prints the sorted value. */
  lemma {:induction false} SortedJsonPrints(j: Json)
    ensures SortedJson(j) == Print(Canon(j))
    decreases j, 0
  {
    match j {
      case Arr(items) => SortedTextsPrint(items);
      case Obj(fields) => SortedEntriesPrint(fields);
      case _ =>
    }
  }

  lemma {:induction false} SortedTextsPrint(items: seq<Json>)
    ensures SortedTexts(items) == Prints(Canons(items))
    decreases items, 0
  {
    if items != [] {
      SortedJsonPrints(items[0]);
      SortedTextsPrint(items[1..]);
      assert Canons(items)[1..] == Canons(items[1..]);
    }
  }

  lemma {:induction false} SortedEntriesPrint(fields: seq<Entry<Json>>)
    ensures InOrder(SortedEntries(fields)) == PrintEntries(InOrder(CanonFields(fields)))
    decreases fields, 0
  {
    if fields != [] {
      SortedJsonPrints(fields[0].value);
      SortedEntriesPrint(fields[1..]);
      assert SortedEntries(fields)[1..] == SortedEntries(fields[1..]);
      assert CanonFields(fields)[1..] == CanonFields(fields[1..]);
      PrintInserted(CanonFields(fields)[0], InOrder(CanonFields(fields[1..])));
    }
  }

  // ---------------------------------------------------------------- the text is the JSON text

  /** The code units of a text of single-unit characters. */
  function Units(s: string): Text
    requires forall i :: 0 <= i < |s| ==> (s[i] as int) < 0x10000
  {
    seq(|s|, i requires 0 <= i < |s| => s[i] as int)
  }

  lemma WordsAsWritten()
    ensures BoolText(true) == Units("true") && BoolText(false) == Units("false") && NullText == Units("null")
    ensures QUOTE == '"' as int && COMMA == ',' as int && COLON == ':' as int && BACKSLASH == '\\' as int
    ensures OPEN_BRACKET == '[' as int && CLOSE_BRACKET == ']' as int
    ensures OPEN_BRACE == '{' as int && CLOSE_BRACE == '}' as int
  {
  }

  /** Numbers are made of the digits, signs, point and exponent mark. */
  lemma NumeralUnits(c: char)
    requires (c as int) < 0x10000
    ensures IsNumeralUnit(c as int) <==> c in "0123456789+-.e"
  {
    if c in "0123456789+-.e" {
      var i :| 0 <= i < 14 && "0123456789+-.e"[i] == c;
    } else {
      assert forall i :: 0 <= i < 14 ==> "0123456789+-.e"[i] != c;
      assert "0123456789+-.e"[0] == '0' && "0123456789+-.e"[1] == '1' && "0123456789+-.e"[2] == '2';
      assert "0123456789+-.e"[3] == '3' && "0123456789+-.e"[4] == '4' && "0123456789+-.e"[5] == '5';
      assert "0123456789+-.e"[6] == '6' && "0123456789+-.e"[7] == '7' && "0123456789+-.e"[8] == '8';
      assert "0123456789+-.e"[9] == '9' && "0123456789+-.e"[10] == '+' && "0123456789+-.e"[11] == '-';
      assert "0123456789+-.e"[12] == '.' && "0123456789+-.e"[13] == 'e';
    }
  }

  /** The characters that have an escape of two characters. */
  lemma ShortEscapes(rest: Text)
    ensures Piece(['"' as int] + rest) == Units("\\\"") && Piece(['\\' as int] + rest) == Units("\\\\")
    ensures Piece([8] + rest) == Units("\\b") && Piece([9] + rest) == Units("\\t") && Piece([10] + rest) == Units("\\n")
    ensures Piece([12] + rest) == Units("\\f") && Piece([13] + rest) == Units("\\r")
  {
  }

  function HexValue(u: Unit): int {
    if '0' as int <= u <= '9' as int then u - '0' as int
    else if 'a' as int <= u <= 'f' as int then u - 'a' as int + 10 else -1
  }

  /** A numbered escape spells its unit in four hexadecimal digits, in lower case. */
  lemma EscapeSpells(u: Unit)
    ensures var e := UnicodeEscape(u);
      && |e| == 6 && e[..2] == Units("\\u")
      && (forall i :: 2 <= i < 6 ==> 0 <= HexValue(e[i]) < 16)
      && ((HexValue(e[2]) * 16 + HexValue(e[3])) * 16 + HexValue(e[4])) * 16 + HexValue(e[5]) == u
  {
    var e := UnicodeEscape(u);
    HexDigit(u / 4096);
    HexDigit(u / 256 % 16);
    HexDigit(u / 16 % 16);
    HexDigit(u % 16);
    assert e[2] == Hex(u / 4096) && e[3] == Hex(u / 256 % 16) && e[4] == Hex(u / 16 % 16) && e[5] == Hex(u % 16);
    Nibbles(u);
    hide Hex, HexValue;
  }

  lemma Nibbles(u: Unit)
    ensures ((u / 4096 * 16 + u / 256 % 16) * 16 + u / 16 % 16) * 16 + u % 16 == u
  {
    assert u / 256 / 16 == u / 4096 && u / 16 / 16 == u / 256;
  }

  lemma HexDigit(d: int)
    requires 0 <= d < 16
    ensures HexValue(Hex(d)) == d
  {
  }

  predicate InRange(u: Unit, from: int, to: int) { from <= u && u < to }

  /** A high surrogate followed by a low one is printed as it is, both units at once. */
  lemma PairRaw(s: Text)
    requires |s| > 1 && InRange(s[0], 0xD800, 0xDC00) && InRange(s[1], 0xDC00, 0xE000)
    ensures PieceLength(s) == 2 && Piece(s) == s[..2]
  {
  }

  /** Any other surrogate, and any control unit without a short escape, is printed as a numbered escape. */
  lemma Numbered(s: Text)
    requires s != [] && PieceLength(s) == 1
    requires InRange(s[0], 0xD800, 0xE000) || (InRange(s[0], 0, 32) && s[0] !in [8, 9, 10, 12, 13])
    ensures Piece(s) == UnicodeEscape(s[0])
  {
  }

  /** Two units make one piece only when they are such a pair. */
  lemma LoneUnits(s: Text)
    requires s != []
    requires |s| == 1 || !InRange(s[0], 0xD800, 0xDC00) || !InRange(s[1], 0xDC00, 0xE000)
    ensures PieceLength(s) == 1
  {
  }

  /** Every other unit is printed as it is. */
  lemma UnitRaw(s: Text)
    requires s != [] && !InRange(s[0], 0, 32) && !InRange(s[0], 0xD800, 0xE000)
    requires s[0] != '"' as int && s[0] != '\\' as int
    ensures PieceLength(s) == 1 && Piece(s) == [s[0]]
  {
  }

  /** Texts are joined by commas. */
  lemma JoinedByCommas(t: Text, texts: seq<Text>)
    ensures Join([]) == [] && Join([t]) == t
    ensures texts != [] ==> Join([t] + texts) == t + Units(",") + Join(texts)
  {
    hide Units;
    Punctuation();
    JoinOne(t);
    if texts != [] { JoinMore(t, texts); }
  }

  lemma Punctuation()
    ensures Units(",") == [COMMA] && Units(":") == [COLON] && Units("\"") == [QUOTE]
    ensures Units("[") == [OPEN_BRACKET] && Units("]") == [CLOSE_BRACKET]
    ensures Units("{") == [OPEN_BRACE] && Units("}") == [CLOSE_BRACE]
  {
  }

  lemma JoinOne(t: Text)
    ensures Join([]) == [] && Join([t]) == t
  {
    assert |[t][1..]| == 0;
  }

  lemma JoinMore(t: Text, texts: seq<Text>)
    requires texts != []
    ensures Join([t] + texts) == t + [COMMA] + Join(texts)
  {
    var all, rest := [t] + texts, JoinRest(texts[1..]);
    assert all[1..] == texts && all[0] == t;
    assert JoinRest(texts) == [COMMA] + texts[0] + rest;
    assert Join(texts) == texts[0] + rest;
    Regrouped(t, texts[0], rest);
  }

  lemma Regrouped(a: Text, b: Text, c: Text)
    ensures a + ([COMMA] + b + c) == a + [COMMA] + (b + c)
  {
  }

  /** An array is its items' texts, joined, in brackets. */
  lemma ArrayText(items: seq<Json>)
    ensures Print(Arr(items)) == Units("[") + Join(Prints(items)) + Units("]")
    ensures |Prints(items)| == |items| && forall i :: 0 <= i < |items| ==> Prints(items)[i] == Print(items[i])
  {
    hide Units, Join;
    Punctuation();
    PrintsEach(items);
  }

  lemma {:induction false} PrintsEach(items: seq<Json>)
    ensures |Prints(items)| == |items| && forall i :: 0 <= i < |items| ==> Prints(items)[i] == Print(items[i])
  {
    hide Print;
    if items != [] { PrintsEach(items[1..]); }
  }

  /** An object is its fields' texts, joined, in braces: each the quoted key, a colon and the value's text. */
  lemma ObjectText(fields: seq<Entry<Json>>)
    ensures var texts := EntryTexts(PrintEntries(fields));
      && Print(Obj(fields)) == Units("{") + Join(texts) + Units("}")
      && |texts| == |fields|
      && forall i :: 0 <= i < |fields| ==> texts[i] == FieldAsWritten(fields[i])
  {
    hide Units, Join, FieldAsWritten;
    Punctuation();
    FieldsEach(fields);
  }

  function FieldAsWritten(e: Entry<Json>): Text {
    Units("\"") + Escaped(e.key) + Units("\"") + Units(":") + Print(e.value)
  }

  lemma {:induction false} FieldsEach(fields: seq<Entry<Json>>)
    ensures var texts := EntryTexts(PrintEntries(fields));
      |texts| == |fields| && forall i :: 0 <= i < |fields| ==> texts[i] == FieldAsWritten(fields[i])
  {
    hide Print, Escaped, Units;
    Punctuation();
    if fields != [] {
      FieldsEach(fields[1..]);
      assert PrintEntries(fields)[1..] == PrintEntries(fields[1..]);
    }
  }

  /** A string is its pieces, one after the other, in quotes. */
  lemma StringText(s: Text)
    ensures Print(Str(s)) == Units("\"") + Escaped(s) + Units("\"")
    ensures Escaped([]) == [] && (s != [] ==> Escaped(s) == Piece(s) + Escaped(s[PieceLength(s)..]))
  {
    hide Units, Piece, PieceLength;
    Punctuation();
  }
}
