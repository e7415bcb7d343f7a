/**
 * The names fans mint and the patterns that read them back: child ids, groups and folds. A pattern is
 * given twice, as the texts it accepts and as the scan from the right that finds its parts.
 */
module FanJoin {
  import opened Basics

  datatype Mode = WaitAll | FailFast

  // ---------------------------------------------------------------- the printers

  function AllBase(runId: string, firstSeq: nat, wave: Option<nat>): string {
    if wave.None? then runId + ".all." + Decimal(firstSeq) + "."
    else runId + ".all." + Decimal(firstSeq) + ".w" + Decimal(wave.value) + "."
  }

  function AllChildId(runId: string, firstSeq: nat, index: nat, wave: Option<nat>): string {
    AllBase(runId, firstSeq, wave) + Decimal(index)
  }

  function AllFoldedName(runId: string, firstSeq: nat, wave: Option<nat>): string {
    "fan:" + AllBase(runId, firstSeq, wave)
  }

  function FailFastMark(mode: Mode): string { if mode == FailFast then ":failFast" else "" }

  function AllGroup(firstSeq: nat, size: nat, mode: Mode): string {
    "all:" + Decimal(firstSeq) + ":n" + Decimal(size) + FailFastMark(mode)
  }

  function StepFanGroup(firstSeq: nat, size: nat, mode: Mode): string {
    "steps:" + Decimal(firstSeq) + ":" + Decimal(size) + FailFastMark(mode)
  }

  // ---------------------------------------------------------------- scanning from the right

  predicate EndsWith(s: string, suffix: string) {
    |suffix| <= |s| && s[|s| - |suffix|..] == suffix
  }

  function Without(s: string, suffix: string): (front: string)
    requires EndsWith(s, suffix)
    ensures front + suffix == s
  {
    s[..|s| - |suffix|]
  }

  /** How many digits `s` ends in. */
  function DigitCount(s: string): (n: nat)
    ensures n <= |s| && forall i :: |s| - n <= i < |s| ==> IsDigit(s[i])
    ensures n < |s| ==> !IsDigit(s[|s| - n - 1])
  {
    if s == [] || !IsDigit(s[|s| - 1]) then 0 else DigitCount(s[..|s| - 1]) + 1
  }

  /** The digits `s` ends in, and what is before them. */
  function DigitsOff(s: string): (parts: (string, string))
    ensures parts.0 + parts.1 == s && AllDigits(parts.1)
    ensures parts.0 != [] ==> !IsDigit(parts.0[|parts.0| - 1])
  {
    (s[..|s| - DigitCount(s)], s[|s| - DigitCount(s)..])
  }

  lemma {:induction false} CountsDigits(front: string, digits: string)
    requires AllDigits(digits) && front != [] && !IsDigit(front[|front| - 1])
    ensures DigitCount(front + digits) == |digits|
  {
    if digits == [] {
      assert front + digits == front;
    } else {
      var s, fewer := front + digits, digits[..|digits| - 1];
      assert s[..|s| - 1] == front + fewer && s[|s| - 1] == digits[|digits| - 1];
      CountsDigits(front, fewer);
    }
  }

  /** Digits after a non-digit come off whole. */
  lemma DigitsComeOff(front: string, digits: string)
    requires AllDigits(digits) && front != [] && !IsDigit(front[|front| - 1])
    ensures DigitsOff(front + digits) == (front, digits)
  {
    CountsDigits(front, digits);
    var s := front + digits;
    assert s[..|front|] == front && s[|front|..] == digits;
  }

  lemma Ends(front: string, suffix: string)
    ensures EndsWith(front + suffix, suffix) && Without(front + suffix, suffix) == front
  {
  }

  lemma DoesNotEnd(s: string, suffix: string, k: nat)
    requires k < |s| && k < |suffix| && s[|s| - 1 - k] != suffix[|suffix| - 1 - k]
    ensures !EndsWith(s, suffix)
  {
    assert |suffix| <= |s| ==> s[|s| - |suffix|..][|suffix| - 1 - k] == s[|s| - 1 - k];
  }

  // ---------------------------------------------------------------- ids the engine mints

  /** What follows the parent's id: a fan child, a lone child, or a failed run's handler. */
  datatype Tail =
    | AllTail(first: string, wave: Option<string>, index: string)
    | ChildTail(n: string)
    | OnErrorTail(n: string)

  predicate Numerals(t: Tail) {
    match t
    case AllTail(first, wave, index) =>
      && IsNumeral(first) && IsNumeral(index) && (wave.Some? ==> IsNumeral(wave.value))
    case ChildTail(n) => IsNumeral(n)
    case OnErrorTail(n) => IsNumeral(n)
  }

  predicate IsNumeral(s: string) { s != [] && AllDigits(s) }

  function WaveText(wave: Option<string>): string { if wave.None? then "" else "w" + wave.value + "." }

  function TailText(t: Tail): string {
    match t
    case AllTail(first, wave, index) => ".all." + first + "." + WaveText(wave) + index
    case ChildTail(n) => ".child." + n
    case OnErrorTail(n) => ".onError." + n
  }

  predicate IsLineTerminator(c: char) { c == '\n' || c == '\r' || c == '\U{2028}' || c == '\U{2029}' }

  /** What `.+` accepts. */
  predicate OneLine(s: string) {
    s != [] && forall i :: 0 <= i < |s| ==> !IsLineTerminator(s[i])
  }

  /** It accepts texts of at least one character, none of which ends a line. */
  lemma OneLineExactly(s: string)
    ensures OneLine(s) <==>
      |s| > 0 && '\n' !in s && '\r' !in s && '\U{2028}' !in s && '\U{2029}' !in s
  {
    if !OneLine(s) && s != [] {
      var i :| 0 <= i < |s| && IsLineTerminator(s[i]);
      assert s[i] in s;
    }
  }

  /** `^(.+)` followed by one of the tails: the whole id is a parent and a tail. */
  predicate Matches(id: string, parent: string, t: Tail) {
    id == parent + TailText(t) && Numerals(t) && OneLine(parent)
  }

  /** The tail `id` ends in, and what is before it. */
  function SplitTail(id: string): Option<(string, Tail)> {
    var (front, n) := DigitsOff(id);
    if n == [] then None
    else if EndsWith(front, ".child.") then Some((Without(front, ".child."), ChildTail(n)))
    else if EndsWith(front, ".onError.") then Some((Without(front, ".onError."), OnErrorTail(n)))
    else if EndsWith(front, ".") then SplitAll(Without(front, "."), n)
    else None
  }

  /** A fan child's tail, its index already off: the first seq, or a wave and then the first seq. */
  function SplitAll(s: string, index: string): Option<(string, Tail)> {
    var (front, d) := DigitsOff(s);
    if d == [] then None
    else if EndsWith(front, ".all.") then Some((Without(front, ".all."), AllTail(d, None, index)))
    else if EndsWith(front, ".w") then
      var (root, first) := DigitsOff(Without(front, ".w"));
      if first != [] && EndsWith(root, ".all.") then
        Some((Without(root, ".all."), AllTail(first, Some(d), index)))
      else None
    else None
  }

  function Parts(id: string): Option<(string, Tail)> {
    var split := SplitTail(id);
    if split.Some? && OneLine(split.value.0) then split else None
  }

  /** However the parts of a fan child's id are grouped, the text is the same. */
  lemma Regroup(parent: string, all: string, first: string, dot: string, wave: string, index: string)
    ensures parent + all + first + dot + wave + index == parent + (all + first + dot + wave + index)
  {
  }

  lemma SplitAllSound(s: string, index: string)
    requires SplitAll(s, index).Some? && IsNumeral(index)
    ensures var (parent, t) := SplitAll(s, index).value; s + "." + index == parent + TailText(t) && Numerals(t)
  {
    var (front, d) := DigitsOff(s);
    if EndsWith(front, ".all.") {
      var parent := Without(front, ".all.");
      Regroup(parent, ".all.", d, ".", "", index);
      assert s + "." == s + "." + "";
    } else {
      var inner := Without(front, ".w");
      var (root, first) := DigitsOff(inner);
      var parent := Without(root, ".all.");
      Regroup(parent, ".all.", first, ".", "w" + d + ".", index);
      hide *;
      assert parent + ".all." + first == inner && inner + ".w" + d == s;
      WaveAssoc(inner, d);
    }
  }

  lemma WaveAssoc(inner: string, d: string)
    ensures inner + ".w" + d + "." == inner + "." + ("w" + d + ".")
  {
    assert ".w" == "." + "w";
    Assoc(inner, ".", "w", d);
    Assoc(inner + ".", "w", d, ".");
  }

  lemma Assoc(a: string, b: string, c: string, d: string)
    ensures a + (b + c) + d == a + b + c + d == a + b + (c + d)
  {
  }

  lemma SplitSound(id: string)
    requires SplitTail(id).Some?
    ensures var (parent, t) := SplitTail(id).value; id == parent + TailText(t) && Numerals(t)
  {
    hide DigitCount;
    var (front, n) := DigitsOff(id);
    if EndsWith(front, ".child.") {
      LoneAssoc(Without(front, ".child."), ".child.", n);
    } else if EndsWith(front, ".onError.") {
      LoneAssoc(Without(front, ".onError."), ".onError.", n);
    } else {
      SplitAllSound(Without(front, "."), n);
      hide SplitAll;
    }
  }

  lemma LoneAssoc(parent: string, word: string, n: string)
    ensures parent + word + n == parent + (word + n)
  {
  }

  /** An id whose index follows a number and a dot is read as a fan child. */
  lemma AllSplits(s: string, index: string)
    requires s != [] && IsDigit(s[|s| - 1]) && IsNumeral(index)
    ensures SplitTail(s + "." + index) == SplitAll(s, index)
  {
    DigitsComeOff(s + ".", index);
    Ends(s, ".");
    DoesNotEnd(s + ".", ".child.", 1);
    DoesNotEnd(s + ".", ".onError.", 1);
    hide DigitsOff, EndsWith, Without;
  }

  lemma ChildSplits(parent: string, n: string)
    requires IsNumeral(n)
    ensures SplitTail(parent + TailText(ChildTail(n))) == Some((parent, ChildTail(n)))
  {
    LoneAssoc(parent, ".child.", n);
    DigitsComeOff(parent + ".child.", n);
    Ends(parent, ".child.");
    hide DigitsOff, EndsWith, Without;
  }

  lemma OnErrorSplits(parent: string, n: string)
    requires IsNumeral(n)
    ensures SplitTail(parent + TailText(OnErrorTail(n))) == Some((parent, OnErrorTail(n)))
  {
    LoneAssoc(parent, ".onError.", n);
    DigitsComeOff(parent + ".onError.", n);
    Ends(parent, ".onError.");
    DoesNotEnd(parent + ".onError.", ".child.", 1);
    hide DigitsOff, EndsWith, Without;
  }

  lemma FlatAllSplits(parent: string, first: string, index: string)
    requires IsNumeral(first) && IsNumeral(index)
    ensures SplitAll(parent + ".all." + first, index) == Some((parent, AllTail(first, None, index)))
  {
    DigitsComeOff(parent + ".all.", first);
    Ends(parent, ".all.");
    hide DigitsOff, EndsWith, Without;
  }

  lemma WaveSplits(parent: string, first: string, wave: string, index: string)
    requires IsNumeral(first) && IsNumeral(wave) && IsNumeral(index)
    ensures SplitAll(parent + ".all." + first + ".w" + wave, index) == Some((parent, AllTail(first, Some(wave), index)))
  {
    var root := parent + ".all." + first;
    DigitsComeOff(root + ".w", wave);
    Ends(root, ".w");
    DoesNotEnd(root + ".w", ".all.", 0);
    DigitsComeOff(parent + ".all.", first);
    Ends(parent, ".all.");
    hide DigitsOff, EndsWith, Without;
  }

  lemma SplitComplete(parent: string, t: Tail)
    requires Numerals(t)
    ensures SplitTail(parent + TailText(t)) == Some((parent, t))
  {
    match t {
      case ChildTail(n) => ChildSplits(parent, n);
      case OnErrorTail(n) => OnErrorSplits(parent, n);
      case AllTail(first, wave, index) =>
        var root := parent + ".all." + first;
        assert IsDigit(root[|root| - 1]) by { assert root[|root| - 1] == first[|first| - 1]; }
        Regroup(parent, ".all.", first, ".", WaveText(wave), index);
        if wave.None? {
          assert root + "." == root + "." + "";
          AllSplits(root, index);
          FlatAllSplits(parent, first, index);
        } else {
          var s := root + ".w" + wave.value;
          assert IsDigit(s[|s| - 1]) by { assert s[|s| - 1] == wave.value[|wave.value| - 1]; }
          WaveAssoc(root, wave.value);
          AllSplits(s, index);
          WaveSplits(parent, first, wave.value, index);
        }
        hide SplitTail, SplitAll;
    }
  }

  /**
   * The scan finds exactly the one way an id matches the pattern. In particular the pattern never
   * matches in two ways, so how greedily `.+` is tried does not matter.
   */
  lemma PartsExact(id: string, parent: string, t: Tail)
    ensures Parts(id) == Some((parent, t)) <==> Matches(id, parent, t)
  {
    if Matches(id, parent, t) { SplitComplete(parent, t); }
    if Parts(id) == Some((parent, t)) { SplitSound(id); }
  }

  /** The parent of a run whose id the engine minted. */
  function ParentRunIdOf(id: string): Option<string> {
    if Parts(id).Some? then Some(Parts(id).value.0) else None
  }

  // ---------------------------------------------------------------- fan children

  function NumeralOf(n: Option<nat>): Option<string> { if n.None? then None else Some(Decimal(n.value)) }

  /** A minted id is its run, its first seq, its wave and its index, in the pattern's parts. */
  lemma AllChildIdText(runId: string, firstSeq: nat, index: nat, wave: Option<nat>)
    ensures AllChildId(runId, firstSeq, index, wave) ==
      runId + TailText(AllTail(Decimal(firstSeq), NumeralOf(wave), Decimal(index)))
  {
    Regroup(runId, ".all.", Decimal(firstSeq), ".", WaveText(NumeralOf(wave)), Decimal(index));
    var root := runId + ".all." + Decimal(firstSeq);
    if wave.None? { assert root + "." == root + "." + ""; } else { WaveAssoc(root, Decimal(wave.value)); }
    hide Decimal;
  }

  /** Different children never share an id, whatever the run ids look like. */
  lemma AllChildIdInjective(r: string, f: nat, i: nat, w: Option<nat>, s: string, g: nat, k: nat, v: Option<nat>)
    requires AllChildId(r, f, i, w) == AllChildId(s, g, k, v)
    ensures r == s && f == g && i == k && w == v
  {
    hide AllChildId, SplitTail, TailText, Decimal;
    AllChildIdText(r, f, i, w);
    AllChildIdText(s, g, k, v);
    SplitComplete(r, AllTail(Decimal(f), NumeralOf(w), Decimal(i)));
    SplitComplete(s, AllTail(Decimal(g), NumeralOf(v), Decimal(k)));
    DecimalInjective(f, g);
    DecimalInjective(i, k);
    if w.Some? && v.Some? { DecimalInjective(w.value, v.value); }
  }

  /** The parent read off a minted id is the run that minted it. */
  lemma ParentOfMinted(runId: string, firstSeq: nat, index: nat, wave: Option<nat>, n: nat)
    requires OneLine(runId)
    ensures ParentRunIdOf(AllChildId(runId, firstSeq, index, wave)) == Some(runId)
    ensures ParentRunIdOf(runId + ".child." + Decimal(n)) == Some(runId)
    ensures ParentRunIdOf(runId + ".onError." + Decimal(n)) == Some(runId)
  {
    hide AllChildId, Parts;
    AllChildIdText(runId, firstSeq, index, wave);
    ParentOfTail(runId, AllTail(Decimal(firstSeq), NumeralOf(wave), Decimal(index)));
    ParentOfTail(runId, ChildTail(Decimal(n)));
    ParentOfTail(runId, OnErrorTail(Decimal(n)));
    LoneAssoc(runId, ".child.", Decimal(n));
    LoneAssoc(runId, ".onError.", Decimal(n));
    hide Decimal, OneLine, ParentRunIdOf;
  }

  lemma ParentOfTail(parent: string, t: Tail)
    requires Numerals(t) && OneLine(parent)
    ensures ParentRunIdOf(parent + TailText(t)) == Some(parent)
  {
    PartsExact(parent + TailText(t), parent, t);
    hide Parts, TailText;
  }

  // ---------------------------------------------------------------- folds

  /** The child run ids a folded checkpoint stands for. */
  function FoldedChildIds(name: string, from: nat, count: nat): seq<string>
    requires StartsWith(name, "fan:")
  {
    seq(count, j requires 0 <= j < count => name[4..] + Decimal(from + j))
  }

  /** A fold names exactly the children it folded. */
  lemma FoldNamesItsChildren(runId: string, firstSeq: nat, wave: Option<nat>, from: nat, count: nat)
    ensures StartsWith(AllFoldedName(runId, firstSeq, wave), "fan:")
    ensures |FoldedChildIds(AllFoldedName(runId, firstSeq, wave), from, count)| == count
    ensures forall j :: 0 <= j < count ==>
      FoldedChildIds(AllFoldedName(runId, firstSeq, wave), from, count)[j]
        == AllChildId(runId, firstSeq, from + j, wave)
  {
    hide AllBase, Decimal;
    var name := AllFoldedName(runId, firstSeq, wave);
    assert name[..4] == "fan:" && name[4..] == AllBase(runId, firstSeq, wave);
  }

  // ---------------------------------------------------------------- groups

  /** A fan's group in its parts; a size may be marked with an `n`. */
  datatype GroupParts = GroupParts(steps: bool, first: string, size: Option<string>, marked: bool, failFast: bool)

  function KindText(steps: bool): string { if steps then "steps:" else "all:" }

  function SizeText(size: Option<string>, marked: bool): string {
    if size.None? then "" else (if marked then ":n" else ":") + size.value
  }

  function GroupText(p: GroupParts): string {
    KindText(p.steps) + p.first + SizeText(p.size, p.marked) + if p.failFast then ":failFast" else ""
  }

  predicate GroupNumerals(p: GroupParts) {
    IsNumeral(p.first) && (p.size.Some? ==> IsNumeral(p.size.value)) && (p.size.None? ==> !p.marked)
  }

  function KindOf(s: string): Option<bool> {
    if s == "all:" then Some(false) else if s == "steps:" then Some(true) else None
  }

  /** A group read from the right: the mark, the last number, and the number before it if there is one. */
  function SplitGroup(group: string): Option<GroupParts> {
    var failFast := EndsWith(group, ":failFast");
    SplitBody(if failFast then Without(group, ":failFast") else group, failFast)
  }

  function SplitBody(body: string, failFast: bool): Option<GroupParts> {
    var (front, d) := DigitsOff(body);
    if d == [] then None
    else if KindOf(front).Some? then Some(GroupParts(KindOf(front).value, d, None, false, failFast))
    else if EndsWith(front, ":n") then SplitSize(Without(front, ":n"), d, true, failFast)
    else if EndsWith(front, ":") then SplitSize(Without(front, ":"), d, false, failFast)
    else None
  }

  function SplitSize(s: string, size: string, marked: bool, failFast: bool): Option<GroupParts> {
    var (front, first) := DigitsOff(s);
    if first != [] && KindOf(front).Some? then
      Some(GroupParts(KindOf(front).value, first, Some(size), marked, failFast))
    else None
  }

  lemma SplitGroupSound(group: string)
    requires SplitGroup(group).Some?
    ensures GroupText(SplitGroup(group).value) == group && GroupNumerals(SplitGroup(group).value)
  {
    hide DigitCount;
    var failFast := EndsWith(group, ":failFast");
    var body := if failFast then Without(group, ":failFast") else group;
    SplitBodySound(body, failFast);
    hide SplitBody;
    if !failFast { assert body + "" == body; }
  }

  lemma KindReads(s: string)
    ensures KindOf(s).Some? ==> KindText(KindOf(s).value) == s
  {
  }

  lemma SplitBodySound(body: string, failFast: bool)
    requires SplitBody(body, failFast).Some?
    ensures var p := SplitBody(body, failFast).value;
      p.failFast == failFast && KindText(p.steps) + p.first + SizeText(p.size, p.marked) == body && GroupNumerals(p)
  {
    hide DigitCount, EndsWith, Without;
    var (front, d) := DigitsOff(body);
    if KindOf(front).Some? {
      KindReads(front);
      hide KindOf, KindText;
      assert front + d + "" == front + d;
    } else {
      var marked := EndsWith(front, ":n");
      var colon := if marked then ":n" else ":";
      var s := Without(front, colon);
      LoneAssoc(s, colon, d);
      KindReads(DigitsOff(s).0);
      hide KindOf, KindText;
    }
  }

  lemma SplitBodyComplete(p: GroupParts)
    requires GroupNumerals(p)
    ensures SplitBody(KindText(p.steps) + p.first + SizeText(p.size, p.marked), p.failFast) == Some(p)
  {
    var kind := KindText(p.steps);
    DigitsComeOff(kind, p.first);
    assert KindOf(kind) == Some(p.steps);
    hide KindText;
    if p.size.None? {
      assert kind + p.first + "" == kind + p.first;
      hide DigitsOff, KindOf;
    } else {
      SizedBody(kind + p.first, p.size.value, p.marked, p.failFast);
      LoneAssoc(kind + p.first, if p.marked then ":n" else ":", p.size.value);
      hide DigitsOff, KindOf, SplitBody;
    }
  }

  /** The last number of a group with two is its size. */
  lemma SizedBody(s: string, size: string, marked: bool, failFast: bool)
    requires s != [] && IsDigit(s[|s| - 1]) && IsNumeral(size)
    ensures SplitBody(s + (if marked then ":n" else ":") + size, failFast) == SplitSize(s, size, marked, failFast)
  {
    var colon := if marked then ":n" else ":";
    assert (s + colon)[|s| + |colon| - 1] == colon[|colon| - 1];
    DigitsComeOff(s + colon, size);
    Ends(s, colon);
    assert (s + colon)[|s| - 1] == s[|s| - 1];
    NotKind(s, colon);
    if !marked { DoesNotEnd(s + colon, ":n", 0); }
    hide DigitsOff, EndsWith, Without, KindOf;
  }

  /** A kind has no digit before its last colon. */
  lemma NotKind(s: string, colon: string)
    requires s != [] && IsDigit(s[|s| - 1]) && (colon == ":" || colon == ":n")
    ensures KindOf(s + colon).None?
  {
    assert (s + colon)[|s| - 1] == s[|s| - 1];
    assert "all:"[2] == 'l' && "all:"[3] == ':' && "steps:"[4] == 's' && "steps:"[5] == ':';
    assert (s + colon)[|s + colon| - 1] == colon[|colon| - 1];
  }

  lemma SplitGroupComplete(p: GroupParts)
    requires GroupNumerals(p)
    ensures SplitGroup(GroupText(p)) == Some(p)
  {
    var body := KindText(p.steps) + p.first + SizeText(p.size, p.marked);
    SplitBodyComplete(p);
    BodyEnds(p);
    hide KindText, SizeText, SplitBody, IsNumeral;
    if p.failFast {
      Ends(body, ":failFast");
    } else {
      assert GroupText(p) == body by { assert body + "" == body; }
      DoesNotEnd(body, ":failFast", 0);
    }
    hide EndsWith, Without;
  }

  lemma BodyEnds(p: GroupParts)
    requires GroupNumerals(p)
    ensures var body := KindText(p.steps) + p.first + SizeText(p.size, p.marked);
      body != [] && IsDigit(body[|body| - 1])
  {
    var body := KindText(p.steps) + p.first + SizeText(p.size, p.marked);
    hide KindText;
    var digits := if p.size.Some? then p.size.value else p.first;
    assert body[|body| - 1] == digits[|digits| - 1];
  }

  /** The scan finds exactly the one way a group is written. */
  lemma GroupExact(group: string, p: GroupParts)
    ensures SplitGroup(group) == Some(p) <==> GroupText(p) == group && GroupNumerals(p)
  {
    hide SplitGroup, GroupText;
    if SplitGroup(group) == Some(p) { SplitGroupSound(group); }
    if GroupNumerals(p) { SplitGroupComplete(p); }
  }

  datatype FanGroup = FanGroup(steps: bool, firstSeq: nat, size: Option<nat>, failFast: bool)

  /** What a fan's group says about it; a step fan always carries its size. */
  function ParseFanGroup(group: Option<string>): Option<FanGroup> {
    if group.None? || SplitGroup(group.value).None? then None
    else
      var p := SplitGroup(group.value).value;
      SplitGroupSound(group.value);
      if p.steps && p.size.None? then None
      else Some(FanGroup(p.steps, Parse(p.first), if p.size.None? then None else Some(Parse(p.size.value)), p.failFast))
  }

  /** The position block a step fan's group names, or nothing for any other group. */
  function ParseStepFanGroup(group: Option<string>): Option<(nat, nat)> {
    var fan := ParseFanGroup(group);
    if fan.None? || !fan.value.steps || fan.value.size.None? then None
    else Some((fan.value.firstSeq, fan.value.size.value))
  }

  /** A group reads back as the fan it was minted for. */
  lemma GroupRoundTrip(firstSeq: nat, size: nat, mode: Mode)
    ensures ParseFanGroup(Some(AllGroup(firstSeq, size, mode))) ==
      Some(FanGroup(false, firstSeq, Some(size), mode == FailFast))
    ensures ParseFanGroup(Some(StepFanGroup(firstSeq, size, mode))) ==
      Some(FanGroup(true, firstSeq, Some(size), mode == FailFast))
    ensures ParseStepFanGroup(Some(StepFanGroup(firstSeq, size, mode))) == Some((firstSeq, size))
    ensures ParseStepFanGroup(Some(AllGroup(firstSeq, size, mode))) == None
  {
    AllGroupText(firstSeq, size, mode);
    StepFanGroupText(firstSeq, size, mode);
    SplitGroupComplete(GroupParts(false, Decimal(firstSeq), Some(Decimal(size)), true, mode == FailFast));
    SplitGroupComplete(GroupParts(true, Decimal(firstSeq), Some(Decimal(size)), false, mode == FailFast));
    hide SplitGroup, GroupText, AllGroup, StepFanGroup, Decimal;
  }

  lemma AllGroupText(firstSeq: nat, size: nat, mode: Mode)
    ensures AllGroup(firstSeq, size, mode) ==
      GroupText(GroupParts(false, Decimal(firstSeq), Some(Decimal(size)), true, mode == FailFast))
  {
    LoneAssoc("all:" + Decimal(firstSeq), ":n", Decimal(size));
    hide Decimal;
  }

  lemma StepFanGroupText(firstSeq: nat, size: nat, mode: Mode)
    ensures StepFanGroup(firstSeq, size, mode) ==
      GroupText(GroupParts(true, Decimal(firstSeq), Some(Decimal(size)), false, mode == FailFast))
  {
    LoneAssoc("steps:" + Decimal(firstSeq), ":", Decimal(size));
    hide Decimal;
  }

  // ---------------------------------------------------------------- waiters

  datatype Waiter = Waiter(runId: string, token: string, parallelGroup: Option<string>)

  /** The wave a waiter's index is under: `[w<k>.]<index>`. */
  function RestWave(rest: string): Option<Option<string>> {
    var (front, index) := DigitsOff(rest);
    if index == [] then None
    else if front == [] then Some(None)
    else if EndsWith(front, ".") then
      var (w, wave) := DigitsOff(Without(front, "."));
      if w == "w" && wave != [] then Some(Some(wave)) else None
    else None
  }

  /** The fan, or the wave of it, a waiter belongs to: what its siblings' tokens start with. */
  function FanOfWaiter(w: Waiter): Option<(string, bool)> {
    if w.parallelGroup.None? || SplitGroup(w.parallelGroup.value).None? then None
    else
      var p := SplitGroup(w.parallelGroup.value).value;
      if p.steps || (p.size.Some? && !p.marked) then None
      else FanUnder(w.token, "child:" + w.runId + ".all." + p.first + ".", p.failFast)
  }

  function FanUnder(token: string, base: string, failFast: bool): Option<(string, bool)> {
    if !StartsWith(token, base) then None
    else
      var wave := RestWave(token[|base|..]);
      if wave.None? then None else Some((base + WaveText(wave.value), failFast))
  }

  lemma FanUnderReads(base: string, wave: Option<string>, index: string, failFast: bool)
    requires IsNumeral(index) && (wave.Some? ==> IsNumeral(wave.value))
    ensures FanUnder(base + WaveText(wave) + index, base, failFast) == Some((base + WaveText(wave), failFast))
  {
    RestReads(wave, index);
    LoneAssoc(base, WaveText(wave), index);
    PrefixOff(base, WaveText(wave) + index);
    hide RestWave, WaveText, StartsWith;
  }

  lemma PrefixOff(prefix: string, rest: string)
    ensures StartsWith(prefix + rest, prefix) && (prefix + rest)[|prefix|..] == rest
  {
  }

  lemma FanUnderSound(token: string, base: string, failFast: bool)
    requires FanUnder(token, base, failFast).Some?
    ensures FanUnder(token, base, failFast).value.1 == failFast
    ensures exists wave: Option<string>, index: string ::
      && IsNumeral(index) && (wave.Some? ==> IsNumeral(wave.value))
      && FanUnder(token, base, failFast).value.0 == base + WaveText(wave)
      && token == base + WaveText(wave) + index
  {
    var rest := token[|base|..];
    RestSound(rest);
    hide RestWave, WaveText, IsNumeral;
    var wave := RestWave(rest).value;
    var index :| IsNumeral(index) && rest == WaveText(wave) + index;
    assert token == base + rest;
    LoneAssoc(base, WaveText(wave), index);
  }

  lemma RestReads(wave: Option<string>, index: string)
    requires IsNumeral(index) && (wave.Some? ==> IsNumeral(wave.value))
    ensures RestWave(WaveText(wave) + index) == Some(wave)
  {
    if wave.None? {
      assert WaveText(wave) + index == index;
      AllDigitsOff(index);
    } else {
      DigitsComeOff("w" + wave.value + ".", index);
      Ends("w" + wave.value, ".");
      DigitsComeOff("w", wave.value);
    }
  }

  lemma {:induction false} AllDigitsOff(digits: string)
    requires AllDigits(digits)
    ensures DigitsOff(digits) == ("", digits)
  {
    if digits != [] {
      AllDigitsOff(digits[..|digits| - 1]);
      assert DigitsOff(digits[..|digits| - 1]).1 == digits[..|digits| - 1];
    }
  }

  lemma RestSound(rest: string)
    requires RestWave(rest).Some?
    ensures exists index :: IsNumeral(index) && rest == WaveText(RestWave(rest).value) + index
    ensures RestWave(rest).value.Some? ==> IsNumeral(RestWave(rest).value.value)
  {
    hide DigitCount;
    var (front, index) := DigitsOff(rest);
    assert IsNumeral(index);
    if front == [] {
      assert rest == "" + index;
    } else {
      assert front == Without(front, ".") + ".";
    }
  }

  /** A waiter whose token and group agree is read as a member of that fan and wave. */
  lemma AgreeingWaiterRead(runId: string, p: GroupParts, wave: Option<string>, index: string)
    requires GroupNumerals(p) && !p.steps && (p.size.Some? ==> p.marked)
    requires IsNumeral(index) && (wave.Some? ==> IsNumeral(wave.value))
    ensures var base := "child:" + runId + ".all." + p.first + ".";
      FanOfWaiter(Waiter(runId, base + WaveText(wave) + index, Some(GroupText(p)))) ==
        Some((base + WaveText(wave), p.failFast))
  {
    SplitGroupComplete(p);
    FanUnderReads("child:" + runId + ".all." + p.first + ".", wave, index, p.failFast);
    hide SplitGroup, GroupText, FanUnder, WaveText, GroupNumerals;
  }

  /** A minted waiter is read as a member of its own fan, or of its own wave. */
  lemma MintedWaiterRead(runId: string, firstSeq: nat, size: nat, mode: Mode, index: nat, wave: Option<nat>)
    ensures FanOfWaiter(Waiter(runId, "child:" + AllChildId(runId, firstSeq, index, wave),
                               Some(AllGroup(firstSeq, size, mode)))) ==
      Some(("child:" + AllBase(runId, firstSeq, wave), mode == FailFast))
  {
    AllGroupText(firstSeq, size, mode);
    var p := GroupParts(false, Decimal(firstSeq), Some(Decimal(size)), true, mode == FailFast);
    AgreeingWaiterRead(runId, p, NumeralOf(wave), Decimal(index));
    BaseParts(runId, firstSeq, wave);
    LoneAssoc("child:", AllBase(runId, firstSeq, wave), Decimal(index));
    hide FanOfWaiter, AllBase, Decimal, WaveText, GroupText, AllGroup;
  }

  lemma BaseParts(runId: string, firstSeq: nat, wave: Option<nat>)
    ensures "child:" + AllBase(runId, firstSeq, wave) ==
      "child:" + runId + ".all." + Decimal(firstSeq) + "." + WaveText(NumeralOf(wave))
  {
    var root := runId + ".all." + Decimal(firstSeq);
    if wave.None? { assert root + "." == root + "." + ""; } else { WaveAssoc(root, Decimal(wave.value)); }
    hide Decimal;
    assert "child:" + (root + "." + WaveText(NumeralOf(wave))) == "child:" + root + "." + WaveText(NumeralOf(wave));
    assert "child:" + root == "child:" + runId + ".all." + Decimal(firstSeq);
  }

  /** A waiter that merely looks similar never holds back a wake: its token and its group must agree. */
  lemma ReadWaiterIsMember(w: Waiter)
    requires FanOfWaiter(w).Some?
    ensures exists first: string, wave: Option<string>, index: string ::
      && IsNumeral(first) && IsNumeral(index) && (wave.Some? ==> IsNumeral(wave.value))
      && FanOfWaiter(w).value.0 == "child:" + w.runId + ".all." + first + "." + WaveText(wave)
      && w.token == FanOfWaiter(w).value.0 + index
      && w.parallelGroup.Some? && StartsWith(w.parallelGroup.value, "all:" + first)
  {
    var p := SplitGroup(w.parallelGroup.value).value;
    SplitGroupSound(w.parallelGroup.value);
    GroupStart(p);
    FanUnderSound(w.token, "child:" + w.runId + ".all." + p.first + ".", p.failFast);
    hide SplitGroup, FanUnder, GroupText, WaveText, StartsWith;
  }

  lemma GroupStart(p: GroupParts)
    requires !p.steps
    ensures StartsWith(GroupText(p), "all:" + p.first)
  {
    hide SizeText;
    assert GroupText(p)[..|"all:" + p.first|] == "all:" + p.first;
  }

  // ---------------------------------------------------------------- waves

  datatype Waves = Unbounded | InWaves(waveSize: nat, maxWaves: nat) | InvalidConcurrency

  /**
   * How a fan of `size` children is dispatched under a concurrency limit: never more children at
   * once than the limit, and at most one place of it left idle.
   */
  function AllWaves(size: nat, concurrency: Option<real>): (w: Waves)
    ensures w == InvalidConcurrency <==>
      && concurrency.Some? && concurrency.value < size as real
      && (concurrency.value < 1.0 || concurrency.value.Floor as real != concurrency.value)
    ensures w.InWaves? ==>
      && concurrency.Some? && w.waveSize >= 1
      && concurrency.value - 1.0 <= (w.waveSize * w.maxWaves) as real <= concurrency.value < size as real
    ensures w == Unbounded <==> concurrency.None? || concurrency.value >= size as real
  {
    if concurrency.None? || concurrency.value >= size as real then Unbounded
    else
      var limit := concurrency.value.Floor;
      if limit as real != concurrency.value || limit < 1 then InvalidConcurrency
      else if limit == 1 then InWaves(1, 1)
      else InWaves(limit / 2, 2)
  }
}
