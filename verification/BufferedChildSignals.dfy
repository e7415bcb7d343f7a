/**
 * Which buffered child completions a parent can still consume: reads keyed by what the child's id
 * says, against a search of all the parent's checkpoints by name.
 */
module BufferedChildSignals {
  import opened Basics
  import opened FanJoin
  import C = CanonicalJson

  datatype Folded = Folded(from: int, size: nat)

  /** A checkpoint: the JSON it holds and, when that has the shape of a fold, what it folds. */
  datatype Checkpoint = Checkpoint(name: string, completed: bool, output: Option<C.Json>, folded: Option<Folded>)

  /** A run's checkpoints, by seq. */
  type Rows = map<nat, Checkpoint>

  datatype Child = Child(childId: string, completion: Option<C.Json>)

  // ---------------------------------------------------------------- what an id says

  datatype FanSlot = FanSlot(fold: string, firstSeq: nat, index: nat, wave: Option<nat>, waveZeroFold: string)

  datatype Slot = Slot(signal: string, signalSeq: Option<nat>, fan: Option<FanSlot>)

  function SignalName(childId: string): string { "signal:child:" + childId }

  function FanChildSlot(signal: string, parent: string, t: Tail): Slot
    requires t.AllTail? && Numerals(t)
  {
    var AllTail(first, wave, index) := t;
    var root := parent + ".all." + first + ".";
    Slot(signal, Some(Parse(first) + Parse(index)),
         Some(FanSlot("fan:" + root + WaveText(wave), Parse(first), Parse(index),
                      if wave.None? then None else Some(Parse(wave.value)), "fan:" + root + "w0.")))
  }

  function SlotOf(childId: string): Slot {
    var parts := Parts(childId);
    var tail := SplitTail(childId);
    if parts.Some? && parts.value.1.AllTail? then
      PartsExact(childId, parts.value.0, parts.value.1);
      FanChildSlot(SignalName(childId), parts.value.0, parts.value.1)
    else if tail.Some? && tail.value.1.ChildTail? then
      SplitSound(childId);
      Slot(SignalName(childId), Some(Parse(tail.value.1.n)), None)
    else Slot(SignalName(childId), None, None)
  }

  /** The id of a fan child says where its signal and its fold sit. */
  lemma SlotOfFanChild(p: string, first: nat, index: nat, wave: Option<nat>)
    requires OneLine(p)
    ensures SlotOf(AllChildId(p, first, index, wave)) ==
      Slot(SignalName(AllChildId(p, first, index, wave)), Some(first + index),
           Some(FanSlot(AllFoldedName(p, first, wave), first, index, wave, AllFoldedName(p, first, Some(0)))))
  {
    var id, t := AllChildId(p, first, index, wave), AllTail(Decimal(first), NumeralOf(wave), Decimal(index));
    AllChildIdText(p, first, index, wave);
    PartsExact(id, p, t);
    FanChildSlotText(SignalName(id), p, first, index, wave);
    FanChildParts(id, p, t);
    hide *;
  }

  lemma FanChildParts(id: string, p: string, t: Tail)
    requires Parts(id) == Some((p, t)) && t.AllTail? && Numerals(t)
    ensures SlotOf(id) == FanChildSlot(SignalName(id), p, t)
  {
    hide Parts, SplitTail, FanChildSlot, SignalName;
  }

  lemma FanChildSlotText(signal: string, p: string, first: nat, index: nat, wave: Option<nat>)
    ensures FanChildSlot(signal, p, AllTail(Decimal(first), NumeralOf(wave), Decimal(index))) ==
      Slot(signal, Some(first + index),
           Some(FanSlot(AllFoldedName(p, first, wave), first, index, wave, AllFoldedName(p, first, Some(0)))))
  {
    FoldedNameParts(p, first, wave);
    FoldedNameParts(p, first, Some(0));
    assert Decimal(0) == "0";
    hide AllFoldedName, Decimal, Parse;
    assert WaveText(NumeralOf(Some(0))) == "w0.";
  }

  lemma FoldedNameParts(p: string, first: nat, wave: Option<nat>)
    ensures AllFoldedName(p, first, wave) == "fan:" + (p + ".all." + Decimal(first) + ".") + WaveText(NumeralOf(wave))
  {
    var root := p + ".all." + Decimal(first);
    if wave.None? {
      assert root + "." == root + "." + "";
    } else {
      WaveAssoc(root, Decimal(wave.value));
    }
    LoneAssoc("fan:", root + ".", WaveText(NumeralOf(wave)));
    hide Decimal;
  }

  lemma SlotOfLoneChild(p: string, n: nat)
    ensures SlotOf(p + ".child." + Decimal(n)) == Slot(SignalName(p + ".child." + Decimal(n)), Some(n), None)
  {
    LoneAssoc(p, ".child.", Decimal(n));
    SplitComplete(p, ChildTail(Decimal(n)));
    hide SplitTail, TailText, Decimal, Parse;
  }

  // ---------------------------------------------------------------- one child, by key

  function Get(rows: Rows, at: nat): Option<Checkpoint> { if at in rows then Some(rows[at]) else None }

  /** The fold `cp` is, when it is the completed fold `name`. */
  function FoldOf(cp: Option<Checkpoint>, name: string): Option<Folded> {
    if cp.Some? && cp.value.completed && cp.value.name == name then cp.value.folded else None
  }

  predicate Covers(fold: Option<Folded>, index: nat) {
    fold.Some? && fold.value.from <= index < fold.value.from + fold.value.size
  }

  predicate HoldsSignal(cp: Checkpoint, signal: string, expected: C.Text) {
    cp.completed && cp.name == signal && C.CanonicalText(cp.output) == expected
  }

  /** What the first keyed read says of one child: an answer, one more seq to read, or nothing. */
  datatype Plan = Decided(held: bool) | ReadFold(at: nat) | ByName

  function PlanOf(first: Rows, slot: Slot, expected: C.Text): Plan {
    var own := if slot.signalSeq.Some? then Get(first, slot.signalSeq.value) else None;
    if own.Some? && own.value.name == slot.signal then Decided(HoldsSignal(own.value, slot.signal, expected))
    else if slot.fan.Some? then
      var fan := slot.fan.value;
      var atFirst := Get(first, fan.firstSeq);
      var waveZero := FoldOf(atFirst, fan.waveZeroFold);
      if Covers(FoldOf(own, fan.fold), fan.index) then Decided(true)
      else if fan.wave.None? || fan.wave.value == 0 then Decided(Covers(FoldOf(atFirst, fan.fold), fan.index))
      else if waveZero.Some? && waveZero.value.size > 0 then
        ReadFold(fan.firstSeq + fan.wave.value * waveZero.value.size)
      else ByName
    else if slot.signalSeq.Some? && own.None? then Decided(false)
    else ByName
  }

  predicate Settled(rows: Rows, slot: Slot, expected: C.Text) {
    match PlanOf(rows, slot, expected)
    case Decided(held) => held
    case ReadFold(at) => slot.fan.Some? && Covers(FoldOf(Get(rows, at), slot.fan.value.fold), slot.fan.value.index)
    case ByName => Found(rows, slot, expected)
  }

  predicate ShowsSettled(cp: Checkpoint, slot: Slot, expected: C.Text) {
    || HoldsSignal(cp, slot.signal, expected)
    || (slot.fan.Some? && Covers(FoldOf(Some(cp), slot.fan.value.fold), slot.fan.value.index))
  }

  /** The simple reading: search all the parent's checkpoints by name. */
  predicate Found(rows: Rows, slot: Slot, expected: C.Text) {
    exists at :: at in rows && ShowsSettled(rows[at], slot, expected)
  }

  predicate SettledChild(rows: Rows, child: Child) {
    Settled(rows, SlotOf(child.childId), C.CanonicalText(child.completion))
  }

  predicate FoundChild(rows: Rows, child: Child) {
    Found(rows, SlotOf(child.childId), C.CanonicalText(child.completion))
  }

  // ---------------------------------------------------------------- the layout of a parent's history

  /** A fan child's signal sits at the fan's first seq plus the child's index. */
  predicate SignalPlaced(p: string, rows: Rows, first: nat, index: nat, wave: Option<nat>) {
    forall at :: at in rows && rows[at].name == SignalName(AllChildId(p, first, index, wave)) ==> at == first + index
  }

  /** A fold sits at the fan's first seq, a later wave's a whole number of wave zero's lengths after it. */
  predicate FoldPlaced(p: string, rows: Rows, first: nat, wave: Option<nat>) {
    forall at :: at in rows && FoldOf(Some(rows[at]), AllFoldedName(p, first, wave)).Some? ==>
      if wave.None? || wave.value == 0 then at == first
      else
        var waveZero := FoldOf(Get(rows, first), AllFoldedName(p, first, Some(0)));
        waveZero.Some? && waveZero.value.size > 0 ==> at == first + wave.value * waveZero.value.size
  }

  /** A fold replaced the signals it covers. */
  predicate FoldReplaced(p: string, rows: Rows, first: nat, index: nat, wave: Option<nat>) {
    (exists at :: at in rows && Covers(FoldOf(Some(rows[at]), AllFoldedName(p, first, wave)), index)) ==>
      forall at :: at in rows ==> rows[at].name != SignalName(AllChildId(p, first, index, wave))
  }

  /** A lone child's signal sits at the seq its id names, unless another checkpoint is there. */
  predicate LonePlaced(p: string, rows: Rows, n: nat) {
    var signal := SignalName(p + ".child." + Decimal(n));
    forall at :: at in rows && rows[at].name == signal ==> at == n || (n in rows && rows[n].name != signal)
  }

  ghost predicate LaidOut(p: string, rows: Rows) {
    && (forall first, index, wave :: SignalPlaced(p, rows, first, index, wave))
    && (forall first, wave :: FoldPlaced(p, rows, first, wave))
    && (forall first, index, wave :: FoldReplaced(p, rows, first, index, wave))
    && (forall n :: LonePlaced(p, rows, n))
  }

  /** A child of `p` the engine named, or any child whose id names no seq. */
  ghost predicate ChildOf(p: string, childId: string) {
    || (exists first, index, wave :: childId == AllChildId(p, first, index, wave))
    || (exists n :: childId == p + ".child." + Decimal(n))
    || SlotOf(childId).signalSeq.None?
  }

  /** Whatever the layout, a keyed answer of "settled" is never wrong. */
  lemma KeyedNeverOverclaims(rows: Rows, slot: Slot, expected: C.Text)
    requires Settled(rows, slot, expected)
    ensures Found(rows, slot, expected)
  {
    match PlanOf(rows, slot, expected) {
      case Decided(_) =>
        var own := if slot.signalSeq.Some? then Get(rows, slot.signalSeq.value) else None;
        if own.Some? && ShowsSettled(own.value, slot, expected) {
        } else {
          assert ShowsSettled(rows[slot.fan.value.firstSeq], slot, expected);
        }
      case ReadFold(at) => assert ShowsSettled(rows[at], slot, expected);
      case ByName =>
    }
  }

  /**
   * For a fan child whose signal and fold sit where they should, the keyed answer is the search's
   * exactly when no differing signal row hides a fold that covers the child.
   */
  lemma FanChildKeyed(p: string, rows: Rows, first: nat, index: nat, wave: Option<nat>, expected: C.Text)
    requires OneLine(p) && SignalPlaced(p, rows, first, index, wave) && FoldPlaced(p, rows, first, wave)
    ensures var slot := SlotOf(AllChildId(p, first, index, wave));
      (Settled(rows, slot, expected) <==> Found(rows, slot, expected)) <==>
      !(slot.signalSeq.Some? && slot.fan.Some? && Hidden(rows, slot, expected))
  {
    SlotOfFanChild(p, first, index, wave);
    FanSlotKeyed(rows, SlotOf(AllChildId(p, first, index, wave)), expected);
    hide SlotOf, AllChildId, AllFoldedName, SignalName, Settled, Found, HoldsSignal, Covers;
  }

  lemma FanSlotKeyed(rows: Rows, slot: Slot, expected: C.Text)
    requires slot.signalSeq.Some? && slot.fan.Some?
    requires forall at :: at in rows && rows[at].name == slot.signal ==> at == slot.signalSeq.value
    requires forall at :: at in rows && FoldOf(Some(rows[at]), slot.fan.value.fold).Some? ==>
      var fan := slot.fan.value;
      if fan.wave.None? || fan.wave.value == 0 then at == fan.firstSeq
      else
        var waveZero := FoldOf(Get(rows, fan.firstSeq), fan.waveZeroFold);
        waveZero.Some? && waveZero.value.size > 0 ==> at == fan.firstSeq + fan.wave.value * waveZero.value.size
    ensures (Settled(rows, slot, expected) <==> Found(rows, slot, expected)) <==> !Hidden(rows, slot, expected)
  {
    if Settled(rows, slot, expected) {
      KeyedNeverOverclaims(rows, slot, expected);
      SettledNotHidden(rows, slot, expected);
    } else if at :| at in rows && ShowsSettled(rows[at], slot, expected) {
      FoundThenHidden(rows, slot, expected, at);
    } else {
      FoldFound(rows, slot, expected);
    }
    hide *;
  }

  /** Another completion's signal row sits in front of a fold that covers the child. */
  predicate Hidden(rows: Rows, slot: Slot, expected: C.Text)
    requires slot.signalSeq.Some? && slot.fan.Some?
  {
    && slot.signalSeq.value in rows && rows[slot.signalSeq.value].name == slot.signal
    && !HoldsSignal(rows[slot.signalSeq.value], slot.signal, expected)
    && exists at :: at in rows && Covers(FoldOf(Some(rows[at]), slot.fan.value.fold), slot.fan.value.index)
  }

  lemma SettledNotHidden(rows: Rows, slot: Slot, expected: C.Text)
    requires slot.signalSeq.Some? && slot.fan.Some? && Settled(rows, slot, expected)
    ensures !Hidden(rows, slot, expected)
  {
  }

  lemma FoldFound(rows: Rows, slot: Slot, expected: C.Text)
    requires slot.signalSeq.Some? && slot.fan.Some?
    ensures Hidden(rows, slot, expected) ==> Found(rows, slot, expected)
  {
    if at :| at in rows && Covers(FoldOf(Some(rows[at]), slot.fan.value.fold), slot.fan.value.index) {
      assert ShowsSettled(rows[at], slot, expected);
    }
  }

  lemma FoundThenHidden(rows: Rows, slot: Slot, expected: C.Text, at: nat)
    requires slot.signalSeq.Some? && slot.fan.Some?
    requires forall at :: at in rows && rows[at].name == slot.signal ==> at == slot.signalSeq.value
    requires forall at :: at in rows && FoldOf(Some(rows[at]), slot.fan.value.fold).Some? ==>
      var fan := slot.fan.value;
      if fan.wave.None? || fan.wave.value == 0 then at == fan.firstSeq
      else
        var waveZero := FoldOf(Get(rows, fan.firstSeq), fan.waveZeroFold);
        waveZero.Some? && waveZero.value.size > 0 ==> at == fan.firstSeq + fan.wave.value * waveZero.value.size
    requires at in rows && ShowsSettled(rows[at], slot, expected) && !Settled(rows, slot, expected)
    ensures Hidden(rows, slot, expected)
  {
    hide C.CanonicalText;
  }

  /** A fold of a whole fan at its first seq, and at one child's own seq a row of its signal. */
  function FoldAndSignal(p: string, first: nat, index: nat, size: nat, output: Option<C.Json>): Rows
    requires 1 <= index
  {
    map[first := Checkpoint(AllFoldedName(p, first, None), true, None, Some(Folded(0, size))),
        first + index := Checkpoint(SignalName(AllChildId(p, first, index, None)), true, output, None)]
  }

  /**
   * Such histories exist, one for every child but the first of every fan: the fold covers the child, the
   * row holds another completion, and the keyed answer stops at the row. The search finds the fold.
   */
  lemma HiddenFoldMissed(p: string, first: nat, index: nat, size: nat, output: Option<C.Json>, expected: C.Text)
    requires OneLine(p) && 1 <= index < size && C.CanonicalText(output) != expected
    ensures var rows, slot := FoldAndSignal(p, first, index, size, output), SlotOf(AllChildId(p, first, index, None));
      && SignalPlaced(p, rows, first, index, None) && FoldPlaced(p, rows, first, None)
      && Found(rows, slot, expected) && !Settled(rows, slot, expected)
  {
    hide SlotOf, AllChildId, AllFoldedName, SignalName, C.CanonicalText, Found, Settled, OneLine, Decimal;
    var rows, slot := FoldAndSignal(p, first, index, size, output), SlotOf(AllChildId(p, first, index, None));
    SlotOfFanChild(p, first, index, None);
    NamesApart(p, first, index);
    RowHidesFold(rows, slot, expected, size);
  }

  lemma RowHidesFold(rows: Rows, slot: Slot, expected: C.Text, size: nat)
    requires slot.signalSeq.Some? && slot.fan.Some? && slot.fan.value.index < size
    requires slot.signalSeq.value in rows && rows[slot.signalSeq.value].name == slot.signal
    requires C.CanonicalText(rows[slot.signalSeq.value].output) != expected
    requires slot.fan.value.firstSeq in rows
    requires FoldOf(Some(rows[slot.fan.value.firstSeq]), slot.fan.value.fold) == Some(Folded(0, size))
    ensures Found(rows, slot, expected) && !Settled(rows, slot, expected)
  {
    hide C.CanonicalText;
    assert ShowsSettled(rows[slot.fan.value.firstSeq], slot, expected);
  }

  lemma NamesApart(p: string, first: nat, index: nat)
    ensures AllFoldedName(p, first, None) != SignalName(AllChildId(p, first, index, None))
  {
    FoldedNameParts(p, first, None);
    hide AllFoldedName, AllChildId, Decimal;
    assert AllFoldedName(p, first, None)[0] == 'f';
    assert SignalName(AllChildId(p, first, index, None))[0] == 's';
  }

  lemma LoneChildKeyed(p: string, rows: Rows, n: nat, expected: C.Text)
    requires LonePlaced(p, rows, n)
    ensures var slot := SlotOf(p + ".child." + Decimal(n));
      Settled(rows, slot, expected) <==> Found(rows, slot, expected)
  {
    SlotOfLoneChild(p, n);
    var slot := SlotOf(p + ".child." + Decimal(n));
    hide SlotOf, SignalName, Decimal, C.CanonicalText;
    if Settled(rows, slot, expected) { KeyedNeverOverclaims(rows, slot, expected); }
  }

  /** In a history laid out as documented, the keyed reads answer as the search by name does. */
  lemma KeyedMatchesSearch(p: string, rows: Rows, child: Child)
    requires OneLine(p) && LaidOut(p, rows) && ChildOf(p, child.childId)
    ensures SettledChild(rows, child) <==> FoundChild(rows, child)
  {
    var expected := C.CanonicalText(child.completion);
    if first, index, wave :| child.childId == AllChildId(p, first, index, wave) {
      assert SignalPlaced(p, rows, first, index, wave) && FoldPlaced(p, rows, first, wave);
      assert FoldReplaced(p, rows, first, index, wave);
      SlotOfFanChild(p, first, index, wave);
      FanChildKeyed(p, rows, first, index, wave, expected);
      hide SlotOf, AllChildId, AllFoldedName, SignalName, Settled, Found, HoldsSignal, Covers;
    } else if n :| child.childId == p + ".child." + Decimal(n) {
      assert LonePlaced(p, rows, n);
      LoneChildKeyed(p, rows, n, expected);
    } else {
      hide LaidOut;
      assert PlanOf(rows, SlotOf(child.childId), expected) == ByName by { NoSeqNoFan(child.childId); }
    }
  }

  lemma NoSeqNoFan(childId: string)
    requires SlotOf(childId).signalSeq.None?
    ensures SlotOf(childId).fan.None?
  {
  }

  // ---------------------------------------------------------------- many children, a few reads

  /** The checkpoints at `seqs`: one keyed read. */
  function CheckpointsAt(rows: Rows, seqs: set<nat>): Rows { map at | at in rows && at in seqs :: rows[at] }

  /** The seqs of the checkpoints named exactly one of `names`: the read by name. */
  function CheckpointsNamed(rows: Rows, names: set<string>): set<nat> {
    set at | at in rows && rows[at].name in names
  }

  function SlotSeqs(slot: Slot): set<nat> {
    (if slot.signalSeq.Some? then {slot.signalSeq.value} else {}) +
    (if slot.fan.Some? then {slot.fan.value.firstSeq} else {})
  }

  function SlotNames(slot: Slot): set<string> {
    if slot.fan.Some? then {slot.signal, slot.fan.value.fold} else {slot.signal}
  }

  /** A read of at least the child's own seqs plans as the whole history does. */
  lemma PlanLocal(rows: Rows, seqs: set<nat>, slot: Slot, expected: C.Text)
    requires SlotSeqs(slot) <= seqs
    ensures PlanOf(CheckpointsAt(rows, seqs), slot, expected) == PlanOf(rows, slot, expected)
  {
    var first := CheckpointsAt(rows, seqs);
    assert slot.signalSeq.Some? ==> Get(first, slot.signalSeq.value) == Get(rows, slot.signalSeq.value);
    assert slot.fan.Some? ==> Get(first, slot.fan.value.firstSeq) == Get(rows, slot.fan.value.firstSeq);
  }

  /**
   * Which of `children` their parent already settles. However many children are asked about at once,
   * each is answered as if asked about alone; and in a history laid out as documented, as the search
   * of all checkpoints by name would answer.
   */
  method ParentSettles(rows: Rows, children: seq<Child>) returns (held: seq<bool>)
    ensures |held| == |children|
    ensures forall i :: 0 <= i < |children| ==> held[i] == SettledChild(rows, children[i])
    ensures forall p: string :: OneLine(p) && LaidOut(p, rows) ==>
      forall i :: 0 <= i < |children| && ChildOf(p, children[i].childId) ==> held[i] == FoundChild(rows, children[i])
  {
    hide PlanOf, SlotOf, HoldsSignal, Covers, FoldOf, C.CanonicalText, LaidOut, ChildOf;
    var seqs := {};
    for i := 0 to |children|
      invariant forall k :: 0 <= k < i ==> SlotSeqs(SlotOf(children[k].childId)) <= seqs
    {
      seqs := seqs + SlotSeqs(SlotOf(children[i].childId));
    }
    var first := CheckpointsAt(rows, seqs);
    var plans: seq<Plan> := [];
    var foldSeqs, names := {}, {};
    for i := 0 to |children|
      invariant |plans| == i
      invariant forall k :: 0 <= k < i ==>
        plans[k] == PlanOf(rows, SlotOf(children[k].childId), C.CanonicalText(children[k].completion))
      invariant forall k :: 0 <= k < i && plans[k].ReadFold? ==> plans[k].at in foldSeqs
      invariant forall k :: 0 <= k < i && plans[k].ByName? ==> SlotNames(SlotOf(children[k].childId)) <= names
    {
      var slot, expected := SlotOf(children[i].childId), C.CanonicalText(children[i].completion);
      PlanLocal(rows, seqs, slot, expected);
      var plan := PlanOf(first, slot, expected);
      plans := plans + [plan];
      if plan.ReadFold? { foldSeqs := foldSeqs + {plan.at}; }
      if plan.ByName? { names := names + SlotNames(slot); }
    }
    var second := CheckpointsAt(rows, foldSeqs);
    var named := CheckpointsNamed(rows, names);
    held := [];
    for i := 0 to |children|
      invariant |held| == i
      invariant forall k :: 0 <= k < i ==> held[k] == SettledChild(rows, children[k])
    {
      var slot, expected := SlotOf(children[i].childId), C.CanonicalText(children[i].completion);
      var answer := AnswerOf(rows, second, named, plans[i], slot, expected);
      AnswerRight(rows, foldSeqs, names, plans[i], slot, expected);
      held := held + [answer];
    }
    forall p: string, i | OneLine(p) && LaidOut(p, rows) && 0 <= i < |children| && ChildOf(p, children[i].childId)
      ensures held[i] == FoundChild(rows, children[i])
    {
      KeyedMatchesSearch(p, rows, children[i]);
    }
  }

  /** The answer for one child, from what its plan asked to be read. */
  function AnswerOf(rows: Rows, second: Rows, named: set<nat>, plan: Plan, slot: Slot, expected: C.Text): bool
    requires forall at :: at in named ==> at in rows
  {
    match plan
    case Decided(held) => held
    case ReadFold(at) => slot.fan.Some? && Covers(FoldOf(Get(second, at), slot.fan.value.fold), slot.fan.value.index)
    case ByName => exists at :: at in named && ShowsSettled(rows[at], slot, expected)
  }

  lemma AnswerRight(rows: Rows, foldSeqs: set<nat>, names: set<string>, plan: Plan, slot: Slot, expected: C.Text)
    requires plan == PlanOf(rows, slot, expected)
    requires plan.ReadFold? ==> plan.at in foldSeqs
    requires plan.ByName? ==> SlotNames(slot) <= names
    ensures AnswerOf(rows, CheckpointsAt(rows, foldSeqs), CheckpointsNamed(rows, names), plan, slot, expected) ==
      Settled(rows, slot, expected)
  {
    match plan {
      case Decided(_) =>
      case ReadFold(at) => assert Get(CheckpointsAt(rows, foldSeqs), at) == Get(rows, at);
      case ByName =>
        forall at | at in rows && ShowsSettled(rows[at], slot, expected) ensures at in CheckpointsNamed(rows, names) {
          assert rows[at].name in SlotNames(slot);
        }
        hide PlanOf;
    }
  }

  // ---------------------------------------------------------------- whether to buffer

  datatype RunStatus =
    | Pending | Running | Suspended | Cancelling | BlockedRun | Completed | Failed | Cancelled | Dead

  /** Run rows, and each run's checkpoints. */
  datatype World = World(runs: map<string, RunStatus>, checkpoints: map<string, Rows>)

  function RowsOf(w: World, parent: string): Rows {
    if parent in w.checkpoints then w.checkpoints[parent] else map[]
  }

  function StatusOf(w: World, parent: string): Option<RunStatus> {
    if parent in w.runs then Some(w.runs[parent]) else None
  }

  /** Gone, or terminal for good: a failed or dead run can still be retried. */
  predicate ParentClosed(status: Option<RunStatus>) {
    status.None? || status.value == Completed || status.value == Cancelled
  }

  /** Whether a parent can still consume this completion. */
  predicate NeedsBuffer(w: World, child: Child) {
    var parent := ParentRunIdOf(child.childId);
    parent.Some? && !ParentClosed(StatusOf(w, parent.value)) && !SettledChild(RowsOf(w, parent.value), child)
  }

  /** `parent`, when given, is the parent's run row as the caller read it. */
  method ChildCompletionNeedsBuffer(w: World, child: Child, parent: Option<Option<RunStatus>>) returns (needed: bool)
    requires parent.Some? && ParentRunIdOf(child.childId).Some? ==>
      parent.value == StatusOf(w, ParentRunIdOf(child.childId).value)
    ensures needed == NeedsBuffer(w, child)
  {
    var parentId := ParentRunIdOf(child.childId);
    if parentId.None? { return false; }
    var run := if parent.Some? then parent.value else StatusOf(w, parentId.value);
    if ParentClosed(run) { return false; }
    var held := ParentSettles(RowsOf(w, parentId.value), [child]);
    needed := !held[0];
  }
}
