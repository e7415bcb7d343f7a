/**
 * Runs with fail-fast fans of children or calls. What the workflow saw in a turn is safe from
 * everything that may still arrive exactly when the turn was firm: no item before a failure its fans
 * raised was still unsettled.
 */
module FailFastRuns {
  import opened Basics
  import opened WorkflowModel
  import opened FanOutcomes
  import opened DurableExecution

  // ---------------------------------------------------------------- every missing item was asked for

  ghost predicate Asked(issued: seq<Command>, op: Op, base: nat, s: nat)
    requires base <= s < base + Width(op)
  {
    exists k :: 0 <= k < |issued| && issued[k].at == s
      && forall e :: Matches(e, SlotOf(op, base, s - base)) ==> Resolves(e, issued[k])
  }

  predicate Touched(h: History, op: Op, base: nat) {
    exists s :: base <= s < base + Width(op) && s in h
  }

  /** Of an op that waits, either nothing has arrived or everything missing was asked for. */
  ghost predicate BlockAsked(h: History, op: Op, base: nat, issued: seq<Command>) {
    !IsLocal(op) && Touched(h, op, base) ==>
      forall s :: base <= s < base + Width(op) && s !in h ==> Asked(issued, op, base, s)
  }

  ghost predicate AskedFor(t: Turn, p: Program, base: nat, issued: seq<Command>)
    decreases p.Do?, p
  {
    p.Do? ==>
      && BlockAsked(t.history, p.op, base, issued)
      && (Goes(t, p, base) ==> AskedFor(t, Then(t, p, base), base + Width(p.op), issued))
  }

  lemma {:induction false} EmptyAsked(t: Turn, p: Program, base: nat, issued: seq<Command>)
    requires NothingFrom(t.history, base)
    ensures AskedFor(t, p, base, issued)
    decreases p.Do?, p
  {
    hide *;
    if p.Do? {
      NothingTouched(t.history, p.op, base, issued);
      if Goes(t, p, base) { EmptyAsked(t, Then(t, p, base), base + Width(p.op), issued); }
      AskedJoin(t, p, base, issued);
    } else {
      EndedAsked(t, p, base, issued);
    }
  }

  lemma NothingTouched(h: History, op: Op, base: nat, issued: seq<Command>)
    requires NothingFrom(h, base)
    ensures NothingFrom(h, base + Width(op)) && BlockAsked(h, op, base, issued)
  {
  }

  ghost predicate Within(cs: seq<Command>, issued: seq<Command>) {
    forall k :: 0 <= k < |cs| ==> cs[k] in issued
  }

  lemma AskedMore(op: Op, base: nat, s: nat, issued: seq<Command>, more: seq<Command>)
    requires base <= s < base + Width(op) && Asked(issued, op, base, s) && Within(issued, more)
    ensures Asked(more, op, base, s)
  {
    var k :| 0 <= k < |issued| && issued[k].at == s
      && forall e :: Matches(e, SlotOf(op, base, s - base)) ==> Resolves(e, issued[k]);
    var j :| 0 <= j < |more| && more[j] == issued[k];
  }

  /** An op that waits asks for every item it misses. */
  lemma {:induction false} ItemCommanded(t: Turn, op: Op, base: nat, n: nat, skip: set<nat>, s: nat)
    requires n <= Width(op) && base <= s < base + n && s !in skip
    ensures CommandFor(t, op, base, s - base) in CommandsFor(t, op, base, n, skip)
  {
    hide CommandFor;
    if s < base + n - 1 { ItemCommanded(t, op, base, n - 1, skip, s); }
  }

  lemma WaitingAsks(t: Turn, op: Op, base: nat, issued: seq<Command>, s: nat)
    requires !IsLocal(op) && base <= s < base + Width(op) && s !in t.history
    requires Within(CommandsFor(t, op, base, Width(op), t.history.Keys), issued)
    ensures Asked(issued, op, base, s)
  {
    hide CommandFor, CommandsFor, SlotOf, Matches, Resolves;
    var cs := CommandsFor(t, op, base, Width(op), t.history.Keys);
    ItemCommanded(t, op, base, Width(op), t.history.Keys, s);
    var j :| 0 <= j < |cs| && cs[j] == CommandFor(t, op, base, s - base);
    var k :| 0 <= k < |issued| && issued[k] == cs[j];
    forall e | Matches(e, SlotOf(op, base, s - base)) ensures Resolves(e, issued[k]) {
      AskedSlot(t, op, base, s - base, e);
    }
  }

  /** After a turn, everything still missing was asked for by it or before it. */
  lemma {:induction false} AskedGrows(
      t: Turn, t2: Turn, p: Program, base: nat, arrivals: History, issued: seq<Command>, more: seq<Command>)
    requires Sound(t, p, base) && FirmTurn(t, p, base) && Sound(t2, p, base) && t.runId == t2.runId
    requires Held(t.history + Recorded(Replay(t, p, base).commands), t2.history, base)
    requires AskedFor(t, p, base, issued) && Within(issued, more) && Within(Replay(t, p, base).commands, more)
    requires Held(t.history, t2.history, base) && Expected(t, p, base, arrivals)
    requires AgreeFrom(t2.history, t.history + Recorded(Replay(t, p, base).commands) + arrivals, base)
    ensures AskedFor(t2, p, base, more)
    decreases p.Do?, p
  {
    hide *;
    if !p.Do? {
      EndedAsked(t2, p, base, more);
    } else if Goes(t, p, base) {
      GoesOn(t, p, base);
      GoingPrefix(t, t2, p, base);
      GoingGrows(t, p, base, arrivals, t2.history);
      GoesOn(t2, p, base);
      WithinRest(Own(t, p, base), Replay(t, Then(t, p, base), base + Width(p.op)).commands, more);
      AskedRest(t, p, base, issued);
      GoneAsked(t, t2, p, base, issued, more);
      HeldLater(t.history, t2.history, base, base + Width(p.op));
      AskedGrows(t, t2, Then(t, p, base), base + Width(p.op), arrivals, issued, more);
      AskedJoin(t2, p, base, more);
    } else {
      Waits(t, p, base);
      WaitedAsked(t, t2, p, base, more);
      NothingRecorded(t, p, base);
      assert t.history + map[] + arrivals == t.history + arrivals;
      WaitingGrows(t, p, base, arrivals, t2.history);
      if Goes(t2, p, base) { EmptyAsked(t2, Then(t2, p, base), base + Width(p.op), more); }
      AskedJoin(t2, p, base, more);
    }
  }

  lemma EndedAsked(t: Turn, p: Program, base: nat, issued: seq<Command>)
    requires !p.Do?
    ensures AskedFor(t, p, base, issued)
  {
  }

  lemma AskedRest(t: Turn, p: Program, base: nat, issued: seq<Command>)
    requires AskedFor(t, p, base, issued) && p.Do?
    ensures BlockAsked(t.history, p.op, base, issued)
    ensures Goes(t, p, base) ==> AskedFor(t, Then(t, p, base), base + Width(p.op), issued)
  {
    hide Goes, Then, BlockAsked;
  }

  lemma AskedJoin(t: Turn, p: Program, base: nat, issued: seq<Command>)
    requires p.Do? && BlockAsked(t.history, p.op, base, issued)
    requires Goes(t, p, base) ==> AskedFor(t, Then(t, p, base), base + Width(p.op), issued)
    ensures AskedFor(t, p, base, issued)
  {
    hide Goes, Then, BlockAsked;
  }

  lemma HeldLater(h: History, h2: History, base: nat, mid: nat)
    requires Held(h, h2, base) && base <= mid
    ensures Held(h, h2, mid)
  {
  }

  lemma WithinRest(own: seq<Command>, rest: seq<Command>, more: seq<Command>)
    requires Within(own + rest, more)
    ensures Within(rest, more)
  {
    forall k | 0 <= k < |rest| ensures rest[k] in more { assert (own + rest)[|own| + k] == rest[k]; }
  }

  lemma GoneAsked(t: Turn, t2: Turn, p: Program, base: nat, issued: seq<Command>, more: seq<Command>)
    requires Goes(t, p, base) && Held(t.history, t2.history, base)
    requires BlockAsked(t.history, p.op, base, issued) && Within(issued, more)
    ensures BlockAsked(t2.history, p.op, base, more)
  {
    hide Asked, Within;
    if !IsLocal(p.op) && Touched(t2.history, p.op, base) {
      forall s | base <= s < base + Width(p.op) && s !in t2.history ensures Asked(more, p.op, base, s) {
        assert s !in t.history;
        var r :| base <= r < base + Width(p.op) && FailedAt(t.history, r);
        AskedMore(p.op, base, s, issued, more);
      }
    }
  }

  lemma WaitedAsked(t: Turn, t2: Turn, p: Program, base: nat, more: seq<Command>)
    requires p.Do? && !Goes(t, p, base) && Held(t.history, t2.history, base)
    requires Within(CommandsFor(t, p.op, base, Width(p.op), t.history.Keys), more)
    ensures BlockAsked(t2.history, p.op, base, more)
  {
    hide Asked, Within, CommandsFor;
    if !IsLocal(p.op) {
      forall s | base <= s < base + Width(p.op) && s !in t2.history ensures Asked(more, p.op, base, s) {
        WaitingAsks(t, p.op, base, more, s);
      }
    }
  }

  function Earlier(job: Job, rounds: seq<Round>): seq<Command> {
    if rounds == [] then [] else Issued(job, Before(rounds), LastOf(rounds).bodies)
  }

  lemma {:induction false} DriveAsked(job: Job, rounds: seq<Round>, bodies: nat -> Captured)
    requires ValidDrive(job, rounds) && FirmDrive(job, rounds)
    ensures AskedFor(TurnAfter(job, rounds, bodies), job.program, 0, Earlier(job, rounds))
    decreases |rounds|
  {
    hide *;
    TurnsOf(job, rounds, bodies);
    if rounds == [] {
      NothingYet(job, rounds);
      EmptyAsked(TurnAfter(job, rounds, bodies), job.program, 0, Earlier(job, rounds));
    } else {
      var front, last := Before(rounds), LastOf(rounds);
      FrontLength(rounds);
      DriveBefore(job, rounds);
      DriveAsked(job, front, last.bodies);
      DriveSound(job, front, last.bodies);
      DriveSound(job, rounds, bodies);
      ArrivalsExpected(job, front, last.bodies, last.arrivals);
      RoundGrows(job, rounds);
      TurnsOf(job, front, last.bodies);
      IssuedSplit(job, front, last.bodies);
      EarlierIs(job, front);
      EarlierIs(job, rounds);
      WithinJoin(Earlier(job, front), DecisionAfter(job, front, last.bodies).commands);
      GrownIs(HistoryAfter(job, front), DecisionAfter(job, front, last.bodies), last.arrivals);
      SameAgree(HistoryAfter(job, rounds));
      AskedGrows(TurnAfter(job, front, last.bodies), TurnAfter(job, rounds, bodies), job.program, 0, last.arrivals,
                 Earlier(job, front), Earlier(job, rounds));
    }
  }

  lemma EarlierIs(job: Job, rounds: seq<Round>)
    ensures Earlier(job, rounds) == if rounds == [] then [] else Issued(job, Before(rounds), LastOf(rounds).bodies)
  {
  }

  lemma NothingYet(job: Job, rounds: seq<Round>)
    requires rounds == []
    ensures NothingFrom(HistoryAfter(job, rounds), 0)
  {
  }

  lemma SameAgree(h: History)
    ensures AgreeFrom(h, h, 0)
  {
  }

  lemma WithinJoin(a: seq<Command>, b: seq<Command>)
    ensures Within(a, a + b) && Within(b, a + b)
  {
    forall k | 0 <= k < |b| ensures b[k] in a + b { assert (a + b)[|a| + k] == b[k]; }
  }

  // ---------------------------------------------------------------- what an unfirm turn is open to

  /** `entry` is a failure of an item before the one that the first unfirm fan raised. */
  ghost predicate Unsettles(t: Turn, p: Program, base: nat, s: nat, entry: Entry)
    decreases p.Do?, p
  {
    && Goes(t, p, base) && s >= base
    && if !FirmHere(t, p, base) then
         exists k :: FirstAt(t.history, p.op, base, k) && s < base + k && s !in t.history
           && entry == Contrary(t.history, p.op, base, k, s - base)
       else s >= base + Width(p.op) && Unsettles(t, Then(t, p, base), base + Width(p.op), s, entry)
  }

  lemma {:induction false} UnfirmUnsettles(t: Turn, p: Program, base: nat) returns (s: nat, entry: Entry)
    requires Sound(t, p, base) && !FirmTurn(t, p, base)
    ensures Unsettles(t, p, base, s, entry)
    decreases p.Do?, p
  {
    hide *;
    SoundFirst(t, p, base);
    if FirmHere(t, p, base) {
      GoesOn(t, p, base);
      s, entry := UnfirmUnsettles(t, Then(t, p, base), base + Width(p.op));
      UnsettlesJoin(t, p, base, s, entry);
    } else {
      s, entry := OneUnsettles(t, p, base);
    }
  }

  lemma UnsettlesJoin(t: Turn, p: Program, base: nat, s: nat, entry: Entry)
    requires Goes(t, p, base) && FirmHere(t, p, base) && Unsettles(t, Then(t, p, base), base + Width(p.op), s, entry)
    ensures Unsettles(t, p, base, s, entry)
  {
    hide Told, Then, FirmHere, Contrary, FirstAt;
    UnsettlesLater(t, Then(t, p, base), base + Width(p.op), s, entry);
  }

  lemma OneUnsettles(t: Turn, p: Program, base: nat) returns (s: nat, entry: Entry)
    requires Goes(t, p, base) && !FirmHere(t, p, base)
    ensures Unsettles(t, p, base, s, entry)
  {
    hide Then, Contrary;
    var k := SomeFirst(t.history, p.op, base);
    FirstIsFirm(t.history, p.op, base, k);
    s :| base <= s < base + k && s !in t.history;
    entry := Contrary(t.history, p.op, base, k, s - base);
  }

  lemma SoundFirst(t: Turn, p: Program, base: nat)
    requires Sound(t, p, base) && !FirmTurn(t, p, base)
    ensures p.Do? && Told(t.history, p.op, base) && Goes(t, p, base)
    ensures FirmHere(t, p, base) ==> !FirmTurn(t, Then(t, p, base), base + Width(p.op))
  {
    hide Verdict, Told, FirmAt, Conforms;
  }

  lemma SomeFirst(h: History, op: Op, base: nat) returns (k: nat)
    requires Told(h, op, base) && !FirmAt(h, op, base)
    ensures RemoteFailFast(op) && FirstAt(h, op, base, k)
  {
    var r :| base <= r < base + Width(op) && FailedAt(h, r);
    k := LeastFailure(h, op, base, r - base);
  }

  lemma UnsettlesLater(t: Turn, p: Program, base: nat, s: nat, entry: Entry)
    requires Unsettles(t, p, base, s, entry)
    ensures p.Do? && Goes(t, p, base) && s >= base
    ensures FirmHere(t, p, base) ==>
      s >= base + Width(p.op) && Unsettles(t, Then(t, p, base), base + Width(p.op), s, entry)
  {
    hide Told, Then, FirmHere, Contrary, FirstAt;
  }

  lemma UnsettlesHere(t: Turn, p: Program, base: nat, s: nat, entry: Entry) returns (k: nat)
    requires Unsettles(t, p, base, s, entry) && !FirmHere(t, p, base)
    ensures RemoteFailFast(p.op) && Told(t.history, p.op, base) && FirstAt(t.history, p.op, base, k)
    ensures base <= s < base + k < base + Width(p.op) && s !in t.history
    ensures entry == Contrary(t.history, p.op, base, k, s - base)
    ensures Matches(entry, SlotOf(p.op, base, s - base)) && Touched(t.history, p.op, base)
  {
    hide Then;
    k :| FirstAt(t.history, p.op, base, k) && s < base + k && s !in t.history
      && entry == Contrary(t.history, p.op, base, k, s - base);
    assert base + k in t.history;
  }

  ghost predicate Answerable(issued: seq<Command>, s: nat, entry: Entry) {
    exists k :: 0 <= k < |issued| && issued[k].at == s && Resolves(entry, issued[k])
  }

  /** Such a failure is one the run asked for, and has not got. */
  lemma {:induction false} UnsettlesAsked(t: Turn, p: Program, base: nat, s: nat, entry: Entry, issued: seq<Command>)
    requires Unsettles(t, p, base, s, entry) && AskedFor(t, p, base, issued)
    ensures s !in t.history && Answerable(issued, s, entry)
    ensures Open(t, p, base, s, entry)
    decreases p.Do?, p
  {
    hide *;
    UnsettlesLater(t, p, base, s, entry);
    AskedRest(t, p, base, issued);
    if FirmHere(t, p, base) {
      UnsettlesAsked(t, Then(t, p, base), base + Width(p.op), s, entry, issued);
      OpenLater(t, p, base, s, entry);
    } else {
      var k := UnsettlesHere(t, p, base, s, entry);
      AskedItem(t, p, base, s, entry, issued);
      OpenHere(t, p, base, s, entry);
    }
  }

  lemma AskedItem(t: Turn, p: Program, base: nat, s: nat, entry: Entry, issued: seq<Command>)
    requires p.Do? && BlockAsked(t.history, p.op, base, issued) && RemoteFailFast(p.op) &&
      Touched(t.history, p.op, base)
    requires base <= s < base + Width(p.op) && s !in t.history && Matches(entry, SlotOf(p.op, base, s - base))
    ensures !IsLocal(p.op)
    ensures Answerable(issued, s, entry)
  {
    assert Asked(issued, p.op, base, s);
  }

  /** Once it arrives, the workflow no longer sees what it saw. */
  lemma {:induction false} UnsettledDiffers(t: Turn, t2: Turn, p: Program, base: nat, s: nat, entry: Entry)
    requires Sound(t, p, base) && Unsettles(t, p, base, s, entry) && s !in t.history && Open(t, p, base, s, entry)
    requires t2.runId == t.runId && t2.signals == map[]
    requires AgreeFrom(t2.history, t.history + Recorded(Replay(t, p, base).commands) + map[s := entry], base)
    ensures !(Replay(t, p, base).trace <= Replay(t2, p, base).trace)
    decreases p.Do?, p
  {
    hide *;
    UnsettlesLater(t, p, base, s, entry);
    GoesOn(t, p, base);
    if FirmHere(t, p, base) {
      JustOne(t, p, base, s, entry);
      GoingGrows(t, p, base, map[s := entry], t2.history);
      StandsGoes(t, t2, p, base);
      OpenLater(t, p, base, s, entry);
      UnsettledDiffers(t, t2, Then(t, p, base), base + Width(p.op), s, entry);
      SameHead((p.op, Seen(t, p, base)), Replay(t, Then(t, p, base), base + Width(p.op)).trace,
               Replay(t2, Then(t, p, base), base + Width(p.op)).trace);
    } else {
      ChangedHere(t, t2, p, base, s, entry);
    }
  }

  lemma SameHead(head: (Op, Outcome), a: seq<(Op, Outcome)>, b: seq<(Op, Outcome)>)
    ensures [head] + a <= [head] + b ==> a <= b
  {
    if [head] + a <= [head] + b {
      assert forall i :: 0 <= i < |a| ==> a[i] == ([head] + a)[i + 1] == ([head] + b)[i + 1] == b[i];
    }
  }

  lemma JustOne(t: Turn, p: Program, base: nat, s: nat, entry: Entry)
    requires s !in t.history && Open(t, p, base, s, entry)
    ensures Expected(t, p, base, map[s := entry])
  {
    hide Open;
  }

  lemma StandsGoes(t: Turn, t2: Turn, p: Program, base: nat)
    requires Goes(t, p, base) && Stands(t, p, base, t2.history) && t2.runId == t.runId
    ensures Replay(t2, p, base).trace
      == [(p.op, Seen(t, p, base))] + Replay(t2, Then(t, p, base), base + Width(p.op)).trace
  {
    hide Verdict, Told, Perform, BlockMatches, Known;
    ToldResumes(t2, p.op, base);
    ReplayAfter(t2, p.op, p.rest, base);
  }

  lemma ChangedHere(t: Turn, t2: Turn, p: Program, base: nat, s: nat, entry: Entry)
    requires Sound(t, p, base) && Unsettles(t, p, base, s, entry) && !FirmHere(t, p, base)
    requires t2.runId == t.runId
    requires AgreeFrom(t2.history, t.history + Recorded(Replay(t, p, base).commands) + map[s := entry], base)
    ensures !(Replay(t, p, base).trace <= Replay(t2, p, base).trace)
  {
    hide *;
    var k := ReplacedHere(t, p, base, s, entry, t2.history);
    SoundBlock(t, p, base);
    ContraryChanges(t, t2, p.op, base, k, s - base);
    DifferentFirst(t, t2, p, base);
  }

  lemma OwnNothing(t: Turn, p: Program, base: nat)
    requires Goes(t, p, base) && Told(t.history, p.op, base)
    ensures Own(t, p, base) == []
  {
  }

  lemma OneReplaced(h: History, rest: History, h2: History, op: Op, base: nat, k: nat, i: nat)
    requires BlockMatches(h, op, base) && FirstAt(h, op, base, k) && i < k && base + i !in h
    requires forall s :: s in rest ==> s >= base + Width(op)
    requires AgreeFrom(h2, h + rest + map[base + i := Contrary(h, op, base, k, i)], base)
    ensures BlockMatches(h2, op, base) && FirstAt(h2, op, base, i) && h2[base + i] == Contrary(h, op, base, k, i)
  {
    hide SlotOf;
    forall s | base <= s < base + i ensures !FailedAt(h2, s) { assert !FailedAt(h, s); }
  }

  lemma DifferentFirst(t: Turn, t2: Turn, p: Program, base: nat)
    requires p.Do? && Perform(t, p.op, base).Resume? && Perform(t2, p.op, base).Resume?
    requires Perform(t, p.op, base).outcome != Perform(t2, p.op, base).outcome
    ensures !(Replay(t, p, base).trace <= Replay(t2, p, base).trace)
  {
    hide Perform;
    ReplayAfter(t, p.op, p.rest, base);
    ReplayAfter(t2, p.op, p.rest, base);
    assert Replay(t, p, base).trace[0] != Replay(t2, p, base).trace[0];
  }

  // ---------------------------------------------------------------- the exact condition

  /** Whatever arrives after the turn, and whatever bodies give then, the workflow sees what it saw, and more. */
  ghost predicate Lasting(job: Job, rounds: seq<Round>, bodies: nat -> Captured) {
    forall arrivals, later :: ValidDrive(job, rounds + [Round(bodies, arrivals)]) ==>
      DecisionAfter(job, rounds, bodies).trace
      <= DecisionAfter(job, rounds + [Round(bodies, arrivals)], later).trace
  }

  /** What a suspended turn saw is safe from whatever may arrive next exactly when the turn is firm. */
  lemma LastingExactly(job: Job, rounds: seq<Round>, bodies: nat -> Captured)
    requires ValidDrive(job, rounds) && FirmDrive(job, rounds)
    requires DecisionAfter(job, rounds, bodies).status == Continue
    ensures Lasting(job, rounds, bodies) <==> FirmAfter(job, rounds)
  {
    hide *;
    if FirmAfter(job, rounds) {
      FirmLasts(job, rounds, bodies);
    } else {
      UnfirmFails(job, rounds, bodies);
    }
  }

  lemma FirmLasts(job: Job, rounds: seq<Round>, bodies: nat -> Captured)
    requires ValidDrive(job, rounds) && FirmDrive(job, rounds) && FirmAfter(job, rounds)
    ensures Lasting(job, rounds, bodies)
  {
    hide ValidDrive, FirmAfter, DecisionAfter;
    forall arrivals, later | ValidDrive(job, rounds + [Round(bodies, arrivals)])
      ensures DecisionAfter(job, rounds, bodies).trace
           <= DecisionAfter(job, rounds + [Round(bodies, arrivals)], later).trace
    {
      var longer := rounds + [Round(bodies, arrivals)];
      assert longer[..|longer| - 1] == rounds;
      TracesExtend(job, longer, later, |rounds|);
    }
  }

  lemma UnfirmFails(job: Job, rounds: seq<Round>, bodies: nat -> Captured)
    requires ValidDrive(job, rounds) && FirmDrive(job, rounds) && !FirmAfter(job, rounds)
    requires DecisionAfter(job, rounds, bodies).status == Continue
    ensures !Lasting(job, rounds, bodies)
  {
    hide *;
    var t, p := TurnAfter(job, rounds, bodies), job.program;
    TurnsOf(job, rounds, bodies);
    DriveSound(job, rounds, bodies);
    DriveAsked(job, rounds, bodies);
    var s, entry := UnfirmUnsettles(t, p, 0);
    UnsettlesAsked(t, p, 0, s, entry, Earlier(job, rounds));
    var arrivals: History := map[s := entry];
    OneArrives(job, rounds, bodies, s, entry);
    LongerDrive(job, rounds, bodies, arrivals);
    var longer := rounds + [Round(bodies, arrivals)];
    LongerHistory(job, rounds, bodies, arrivals);
    TurnsOf(job, longer, bodies);
    SignalsNone(job, longer, bodies);
    UnsettledDiffers(t, TurnAfter(job, longer, bodies), p, 0, s, entry);
    NotLasting(job, rounds, bodies, arrivals, bodies);
  }

  lemma OneArrives(job: Job, rounds: seq<Round>, bodies: nat -> Captured, s: nat, entry: Entry)
    requires s !in HistoryAfter(job, rounds)
    requires Answerable(Earlier(job, rounds), s, entry)
    ensures Arrive(map[s := entry], HistoryAfter(job, rounds), Issued(job, rounds, bodies))
  {
    hide HistoryAfter, Issued, Resolves, Arrive;
    IssuedSplit(job, rounds, bodies);
    var k :| 0 <= k < |Earlier(job, rounds)| && Earlier(job, rounds)[k].at == s
      && Resolves(entry, Earlier(job, rounds)[k]);
    assert Issued(job, rounds, bodies)[k] == Earlier(job, rounds)[k];
    OneAnswer(HistoryAfter(job, rounds), Issued(job, rounds, bodies), k, entry);
  }

  lemma LongerHistory(job: Job, rounds: seq<Round>, bodies: nat -> Captured, arrivals: History)
    ensures AgreeFrom(HistoryAfter(job, rounds + [Round(bodies, arrivals)]),
                      HistoryAfter(job, rounds) + Recorded(DecisionAfter(job, rounds, bodies).commands) + arrivals, 0)
  {
    hide Decide, Recorded;
    var longer := rounds + [Round(bodies, arrivals)];
    assert longer[..|longer| - 1] == rounds;
  }

  lemma SignalsNone(job: Job, rounds: seq<Round>, bodies: nat -> Captured)
    ensures TurnAfter(job, rounds, bodies).signals == map[]
  {
  }

  lemma NotLasting(job: Job, rounds: seq<Round>, bodies: nat -> Captured, arrivals: History, later: nat -> Captured)
    requires ValidDrive(job, rounds + [Round(bodies, arrivals)])
    requires !(DecisionAfter(job, rounds, bodies).trace
               <= DecisionAfter(job, rounds + [Round(bodies, arrivals)], later).trace)
    ensures !Lasting(job, rounds, bodies)
  {
    hide ValidDrive, DecisionAfter;
  }

  // ---------------------------------------------------------------- against the direct execution

  /** What the function sees, op by op, in one uninterrupted run. */
  function DirectTrace(runId: string, p: Program, base: nat, world: nat -> Entry): seq<(Op, Outcome)>
    decreases p.Do?, p
  {
    match p
    case Done(_) => []
    case Fail(_) => []
    case Do(op, rest) =>
      var outcome := Verdict(op, runId, base, WorldBlock(world, base, Width(op)));
      [(op, outcome)] + DirectTrace(runId, After(rest, outcome), base + Width(op), world)
  }

  /** The turn's function sees what it sees in every direct execution that agrees with the turn's history. */
  ghost predicate Vouched(t: Turn, p: Program, base: nat) {
    forall world :: WorldAgrees(world, t.history + Recorded(Replay(t, p, base).commands), base) ==>
      Replay(t, p, base).trace <= DirectTrace(t.runId, p, base, world)
  }

  /**
   * A turn, suspended or ended, is vouched for by the direct execution exactly when it is firm. When it
   * is not, it raised a failure that some earlier item, not yet settled, replaces if it fails otherwise.
   */
  lemma VouchedExactly(t: Turn, p: Program, base: nat)
    requires Sound(t, p, base)
    ensures Vouched(t, p, base) <==> FirmTurn(t, p, base)
  {
    hide *;
    if FirmTurn(t, p, base) {
      FirmVouched(t, p, base);
    } else {
      UnfirmUnvouched(t, p, base);
    }
  }

  /** So it is for the turn after any drive whose earlier turns were firm. */
  lemma TurnVouchedExactly(job: Job, rounds: seq<Round>, bodies: nat -> Captured)
    requires ValidDrive(job, rounds) && FirmDrive(job, rounds)
    ensures Vouched(TurnAfter(job, rounds, bodies), job.program, 0) <==> FirmAfter(job, rounds)
  {
    hide *;
    DriveSound(job, rounds, bodies);
    TurnsOf(job, rounds, bodies);
    VouchedExactly(TurnAfter(job, rounds, bodies), job.program, 0);
  }

  lemma FirmVouched(t: Turn, p: Program, base: nat)
    requires Sound(t, p, base) && FirmTurn(t, p, base)
    ensures Vouched(t, p, base)
  {
    hide Sound, FirmTurn, Replay, Recorded, DirectTrace, WorldAgrees;
    forall world | WorldAgrees(world, t.history + Recorded(Replay(t, p, base).commands), base)
      ensures Replay(t, p, base).trace <= DirectTrace(t.runId, p, base, world)
    {
      FirmSeen(t, p, base, world);
    }
  }

  lemma {:induction false} FirmSeen(t: Turn, p: Program, base: nat, world: nat -> Entry)
    requires Sound(t, p, base) && FirmTurn(t, p, base)
    requires WorldAgrees(world, t.history + Recorded(Replay(t, p, base).commands), base)
    ensures Replay(t, p, base).trace <= DirectTrace(t.runId, p, base, world)
    decreases p.Do?, p
  {
    hide *;
    if !p.Do? {
      EndedTurn(t, p, base);
    } else if Goes(t, p, base) {
      var rest := Recorded(Replay(t, Then(t, p, base), base + Width(p.op)).commands);
      GoesOn(t, p, base);
      GoingAlone(t, p, base);
      SeenDirectly(t, p, base, world, t.history + Recorded(Replay(t, p, base).commands));
      WorldShrinks(world, t.history + Recorded(Replay(t, p, base).commands), t.history + rest,
                   base, base + Width(p.op));
      FirmSeen(t, Then(t, p, base), base + Width(p.op), world);
    } else {
      Waits(t, p, base);
    }
  }

  /** The direct execution sees the op come to what the turn saw, and goes on where the turn went on. */
  lemma SeenDirectly(t: Turn, p: Program, base: nat, world: nat -> Entry, h2: History)
    requires Sound(t, p, base) && Goes(t, p, base) && FirmHere(t, p, base)
    requires WorldAgrees(world, h2, base) && Stands(t, p, base, h2) && Held(t.history, h2, base)
    ensures DirectTrace(t.runId, p, base, world)
         == [(p.op, Seen(t, p, base))] + DirectTrace(t.runId, Then(t, p, base), base + Width(p.op), world)
  {
    hide Verdict, Told, Sound;
    var es := WorldBlock(world, base, Width(p.op));
    SoundBlock(t, p, base);
    WorldExtends(world, h2, base, Width(p.op));
    if Told(t.history, p.op, base) {
      assert WorldAgrees(world, t.history, base);
      WorldExtends(world, t.history, base, Width(p.op));
      FirmStays(t.history, p.op, t.runId, base, es);
    } else {
      LocalWhole(h2, p.op, base);
      FirmStays(h2, p.op, t.runId, base, es);
    }
  }

  /** The world that says what the history says, and knows of no failure beyond it. */
  function WorldOf(h: History): nat -> Entry { s => if s in h then h[s] else Blank }

  lemma WorldOfBlock(h: History, base: nat, width: nat)
    ensures WorldBlock(WorldOf(h), base, width) == Filled(h, base, width)
    ensures WorldAgrees(WorldOf(h), h, base)
  {
  }

  lemma UnfirmUnvouched(t: Turn, p: Program, base: nat)
    requires Sound(t, p, base) && !FirmTurn(t, p, base)
    ensures !Vouched(t, p, base)
  {
    hide *;
    var s, entry := UnfirmUnsettles(t, p, base);
    UnsettlesNew(t, p, base, s, entry);
    var h := t.history + Recorded(Replay(t, p, base).commands);
    var h2 := h + map[s := entry];
    TurnCommands(t, p, base);
    ProperFresh(Replay(t, p, base), t.history.Keys, base);
    OpenNotRecorded(t, p, base, s, entry);
    WorldOfBlock(h2, base, 0);
    OneWorld(h, s, entry, base);
    SameAgreeFrom(h2, base);
    UnsettledUnlike(t, p, base, s, entry, h2);
    NotVouched(t, p, base, WorldOf(h2));
  }

  lemma SameAgreeFrom(h: History, base: nat)
    ensures AgreeFrom(h, h, base)
  {
  }

  lemma OneWorld(h: History, s: nat, entry: Entry, base: nat)
    requires s !in h
    ensures WorldAgrees(WorldOf(h + map[s := entry]), h, base)
  {
  }

  lemma NotVouched(t: Turn, p: Program, base: nat, world: nat -> Entry)
    requires WorldAgrees(world, t.history + Recorded(Replay(t, p, base).commands), base)
    requires !(Replay(t, p, base).trace <= DirectTrace(t.runId, p, base, world))
    ensures !Vouched(t, p, base)
  {
    hide WorldAgrees, Replay, Recorded, DirectTrace;
  }

  /** What unsettles a turn is an entry it could still get. */
  lemma {:induction false} UnsettlesNew(t: Turn, p: Program, base: nat, s: nat, entry: Entry)
    requires Unsettles(t, p, base, s, entry)
    ensures s !in t.history && Open(t, p, base, s, entry)
    decreases p.Do?, p
  {
    hide *;
    UnsettlesLater(t, p, base, s, entry);
    if FirmHere(t, p, base) {
      UnsettlesNew(t, Then(t, p, base), base + Width(p.op), s, entry);
      OpenLater(t, p, base, s, entry);
    } else {
      var k := UnsettlesHere(t, p, base, s, entry);
      RemoteIsNotLocal(p.op);
      OpenHere(t, p, base, s, entry);
    }
  }

  lemma RemoteIsNotLocal(op: Op)
    requires RemoteFailFast(op)
    ensures !IsLocal(op)
  {
  }

  /** Had that entry been there, the direct execution would not have seen what the turn saw. */
  lemma {:induction false} UnsettledUnlike(t: Turn, p: Program, base: nat, s: nat, entry: Entry, h2: History)
    requires Sound(t, p, base) && Unsettles(t, p, base, s, entry) && s !in t.history && Open(t, p, base, s, entry)
    requires AgreeFrom(h2, t.history + Recorded(Replay(t, p, base).commands) + map[s := entry], base)
    ensures !(Replay(t, p, base).trace <= DirectTrace(t.runId, p, base, WorldOf(h2)))
    decreases p.Do?, p
  {
    hide *;
    UnsettlesLater(t, p, base, s, entry);
    GoesOn(t, p, base);
    if FirmHere(t, p, base) {
      JustOne(t, p, base, s, entry);
      GoingGrows(t, p, base, map[s := entry], h2);
      StandsDirectly(t, p, base, h2);
      OpenLater(t, p, base, s, entry);
      UnsettledUnlike(t, Then(t, p, base), base + Width(p.op), s, entry, h2);
      SameHead((p.op, Seen(t, p, base)), Replay(t, Then(t, p, base), base + Width(p.op)).trace,
               DirectTrace(t.runId, Then(t, p, base), base + Width(p.op), WorldOf(h2)));
    } else {
      UnlikeHere(t, p, base, s, entry, h2);
    }
  }

  lemma StandsDirectly(t: Turn, p: Program, base: nat, h2: History)
    requires Goes(t, p, base) && Stands(t, p, base, h2)
    ensures DirectTrace(t.runId, p, base, WorldOf(h2))
         == [(p.op, Seen(t, p, base))] + DirectTrace(t.runId, Then(t, p, base), base + Width(p.op), WorldOf(h2))
  {
    hide Verdict, Told, BlockMatches, Known;
    WorldOfBlock(h2, base, Width(p.op));
  }

  lemma UnlikeHere(t: Turn, p: Program, base: nat, s: nat, entry: Entry, h2: History)
    requires Sound(t, p, base) && Unsettles(t, p, base, s, entry) && !FirmHere(t, p, base)
    requires AgreeFrom(h2, t.history + Recorded(Replay(t, p, base).commands) + map[s := entry], base)
    ensures !(Replay(t, p, base).trace <= DirectTrace(t.runId, p, base, WorldOf(h2)))
  {
    hide *;
    var k := ReplacedHere(t, p, base, s, entry, h2);
    SoundBlock(t, p, base);
    OtherVerdict(t, h2, p.op, base, k, s - base);
    UnsettlesLater(t, p, base, s, entry);
    GoesOn(t, p, base);
    ToldSeen(t, p, base);
    FirstUnlike(t, p, base, h2);
  }

  /** The block as the entry leaves it: that entry is the first failure now. */
  lemma ReplacedHere(t: Turn, p: Program, base: nat, s: nat, entry: Entry, h2: History) returns (k: nat)
    requires Sound(t, p, base) && Unsettles(t, p, base, s, entry) && !FirmHere(t, p, base)
    requires AgreeFrom(h2, t.history + Recorded(Replay(t, p, base).commands) + map[s := entry], base)
    ensures p.Do? && RemoteFailFast(p.op) && FirstAt(t.history, p.op, base, k) && base <= s < base + k
    ensures BlockMatches(h2, p.op, base) && FirstAt(h2, p.op, base, s - base)
    ensures h2[s] == Contrary(t.history, p.op, base, k, s - base)
  {
    hide *;
    k := UnsettlesHere(t, p, base, s, entry);
    UnsettlesLater(t, p, base, s, entry);
    SoundBlock(t, p, base);
    GoesOn(t, p, base);
    OwnNothing(t, p, base);
    TurnCommands(t, Then(t, p, base), base + Width(p.op));
    ProperFresh(Replay(t, Then(t, p, base), base + Width(p.op)), t.history.Keys, base + Width(p.op));
    var rest := Replay(t, Then(t, p, base), base + Width(p.op)).commands;
    NewEntries(t.history, rest, base + Width(p.op));
    assert [] + rest == rest;
    OneReplaced(t.history, Recorded(rest), h2, p.op, base, k, s - base);
  }

  lemma OtherVerdict(t: Turn, h2: History, op: Op, base: nat, k: nat, i: nat)
    requires RemoteFailFast(op) && FirstAt(t.history, op, base, k) && i < k
    requires FirstAt(h2, op, base, i) && h2[base + i] == Contrary(t.history, op, base, k, i)
    ensures Verdict(op, t.runId, base, Filled(h2, base, Width(op)))
         != Verdict(op, t.runId, base, Filled(t.history, base, Width(op)))
  {
    hide Verdict, RaisedFor, Contrary;
    VerdictAt(t.history, op, t.runId, base, Filled(t.history, base, Width(op)), k);
    VerdictAt(h2, op, t.runId, base, Filled(h2, base, Width(op)), i);
    RaisedDiffer(t.history, op, base, k, i);
  }

  lemma ToldSeen(t: Turn, p: Program, base: nat)
    requires Goes(t, p, base) && !FirmHere(t, p, base)
    ensures Seen(t, p, base) == Verdict(p.op, t.runId, base, Filled(t.history, base, Width(p.op)))
  {
    hide Verdict, Told, FirmAt;
  }

  lemma FirstUnlike(t: Turn, p: Program, base: nat, h2: History)
    requires Goes(t, p, base)
    requires Verdict(p.op, t.runId, base, Filled(h2, base, Width(p.op))) != Seen(t, p, base)
    requires Replay(t, p, base).trace
      == [(p.op, Seen(t, p, base))] + Replay(t, Then(t, p, base), base + Width(p.op)).trace
    ensures !(Replay(t, p, base).trace <= DirectTrace(t.runId, p, base, WorldOf(h2)))
  {
    hide Verdict, Told, Replay, Known;
    WorldOfBlock(h2, base, Width(p.op));
    assert DirectTrace(t.runId, p, base, WorldOf(h2))[0].1 != Replay(t, p, base).trace[0].1;
  }

  /** A workflow that lets a failed fan's error out: an unfirm turn then ends unlike some direct execution. */
  lemma UnfirmEndsUnlike(t: Turn, op: Op, base: nat, world: nat -> Entry, k: nat, i: nat)
    requires RemoteFailFast(op) && BlockMatches(t.history, op, base) && FirstAt(t.history, op, base, k) && i < k
    requires base + i !in t.history
    requires world == WorldOf(t.history[base + i := Contrary(t.history, op, base, k, i)])
    ensures var p := Do(op, imap[]);
      Replay(t, p, base).status.Failing? && Direct(t.runId, p, base, world).0.Fail?
      && WorldAgrees(world, t.history, base)
      && StatusOf(Direct(t.runId, p, base, world).0) != Replay(t, p, base).status
  {
    hide Verdict, Perform, Contrary, BlockMatches;
    var p, h2 := Do(op, imap[]), t.history[base + i := Contrary(t.history, op, base, k, i)];
    ContraryMatches(t.history, op, base, k, i);
    FirstIsFirm(t.history, op, base, k);
    ToldResumes(t, op, base);
    ReplayAfter(t, op, imap[], base);
    WorldOfBlock(h2, base, Width(op));
    OtherVerdict(t, h2, op, base, k, i);
    FirstFails(t.history, op, t.runId, base, k);
    FirstFails(h2, op, t.runId, base, i);
  }

  lemma FirstFails(h: History, op: Op, runId: string, base: nat, k: nat)
    requires RemoteFailFast(op) && FirstAt(h, op, base, k)
    ensures Verdict(op, runId, base, Filled(h, base, Width(op))).Failed?
  {
    hide Verdict, GatherFailed, LabelOf;
    VerdictAt(h, op, runId, base, Filled(h, base, Width(op)), k);
  }

  // ---------------------------------------------------------------- a run that forgets

  const TwoChildren := DoGatherChildren("w", [Null, Null], FailFast)

  function Nap(): Program { Do(DoSleep(1), imap[]) }

  /** Starts two children that fail fast together; whichever way they fail, sleeps. */
  ghost function Catching(): Program { Do(TwoChildren, imap o: Outcome | o.Failed? :: Nap()) }

  function ChildFailed(error: Error): Entry { Entry(ChildKind, None, Null, Some(error)) }

  function Raised(error: Error): Outcome { Failed(GatherFailed([ItemError(Some("w"), error)])) }

  lemma BothAsked(t: Turn)
    requires t.history == map[] && t.signals == map[]
    ensures var d := Replay(t, Catching(), 0);
      d.status == Continue && d.commands
        == [StartChild(0, "w", Null, Some(FanGroup(0))), StartChild(1, "w", Null, Some(FanGroup(0)))]
  {
    hide FanGroup;
    NoMismatch(t.history, TwoChildren, 0, 0);
    ScanNothing(t.history, TwoChildren, 0, 0);
    assert CommandsFor(t, TwoChildren, 0, 0, {}) == [];
    assert CommandsFor(t, TwoChildren, 0, 1, {}) == [StartChild(0, "w", Null, Some(FanGroup(0)))];
    assert 0 !in t.history;
    assert t.history.Keys == {};
    ReplayAfter(t, TwoChildren, Catching().rest, 0);
  }

  /** The workflow catches the first failure there is, and sleeps. */
  lemma Caught(t: Turn, k: nat, error: Error)
    requires t.signals == map[] && k < 2 && NothingFrom(t.history, 2) && BlockMatches(t.history, TwoChildren, 0)
    requires FirstAt(t.history, TwoChildren, 0, k) && t.history[k] == ChildFailed(error)
    ensures var d := Replay(t, Catching(), 0);
      d.status == Continue && d.commands == [Sleep(2, 1)] && d.trace == [(TwoChildren, Raised(error))]
  {
    hide Perform, Replay, Nap, Raised;
    FirstRaised(t, k, error);
    ReplayAfter(t, TwoChildren, Catching().rest, 0);
    RaisedFails(error);
    Naps(t);
  }

  lemma RaisedFails(error: Error)
    ensures Raised(error).Failed?
  {
  }

  lemma FirstRaised(t: Turn, k: nat, error: Error)
    requires k < 2 && BlockMatches(t.history, TwoChildren, 0)
    requires FirstAt(t.history, TwoChildren, 0, k) && t.history[k] == ChildFailed(error)
    ensures Perform(t, TwoChildren, 0) == Resume(Raised(error), [])
  {
    hide OutcomeOf, GatherFailed, Verdict, Perform, BlockMatches;
    FirstIsFirm(t.history, TwoChildren, 0, k);
    ToldResumes(t, TwoChildren, 0);
    VerdictAt(t.history, TwoChildren, t.runId, 0, Filled(t.history, 0, 2), k);
  }

  lemma Naps(t: Turn)
    requires t.signals == map[] && NothingFrom(t.history, 2)
    ensures Replay(t, Nap(), 2) == Decision(Continue, [Sleep(2, 1)], [])
  {
    hide Perform;
    SingleEffect(t, DoSleep(1), 2);
    ReplayAfter(t, DoSleep(1), imap[], 2);
  }

  /**
   * Two children were started. The second one's failure was raised, and caught; the workflow went on to
   * sleep. Then the first child, asked for a turn earlier, fails otherwise: the next turn raises that.
   */
  lemma FailFastForgets(runId: string, bodies: nat -> Captured, first: Error, second: Error)
    requires first != second
    ensures var job := Job(runId, "", Catching());
      var one := [Round(bodies, map[1 := ChildFailed(second)])];
      var two := one + [Round(bodies, map[0 := ChildFailed(first)])];
      && ValidDrive(job, two)
      && !(DecisionAfter(job, one, bodies).trace <= DecisionAfter(job, two, bodies).trace)
  {
    hide Replay, Raised, Catching;
    var job := Job(runId, "", Catching());
    var one := [Round(bodies, map[1 := ChildFailed(second)])];
    var two := one + [Round(bodies, map[0 := ChildFailed(first)])];
    assert one[..0] == [] && two[..1] == one;
    FirstRound(job, bodies, second);
    LateFailure(job, bodies, one, first, second);
    RaisedDiffers(first, second);
    assert DecisionAfter(job, one, bodies).trace[0] != DecisionAfter(job, two, bodies).trace[0];
  }

  lemma RaisedDiffers(first: Error, second: Error)
    requires first != second
    ensures Raised(first) != Raised(second)
  {
    assert GatherFailed([ItemError(Some("w"), first)]).items[0]
      != GatherFailed([ItemError(Some("w"), second)]).items[0];
  }

  lemma FirstRound(job: Job, bodies: nat -> Captured, second: Error)
    requires job.program == Catching()
    ensures var one := [Round(bodies, map[1 := ChildFailed(second)])];
      && ValidDrive(job, one) && HistoryAfter(job, one) == map[1 := ChildFailed(second)]
      && Issued(job, [], bodies)
         == [StartChild(0, "w", Null, Some(FanGroup(0))), StartChild(1, "w", Null, Some(FanGroup(0)))]
  {
    hide Replay, Catching, FanGroup;
    var one := [Round(bodies, map[1 := ChildFailed(second)])];
    BothAsked(TurnAfter(job, [], bodies));
    RecordedRemote(DecisionAfter(job, [], bodies).commands);
    assert one[..0] == [];
    var issued := Issued(job, [], bodies);
    assert issued == [] + DecisionAfter(job, [], bodies).commands;
    OneAnswer(map[], issued, 1, ChildFailed(second));
    assert map[] + map[] + map[1 := ChildFailed(second)] == map[1 := ChildFailed(second)];
  }

  lemma LateFailure(job: Job, bodies: nat -> Captured, one: seq<Round>, first: Error, second: Error)
    requires job.program == Catching() && one == [Round(bodies, map[1 := ChildFailed(second)])]
    requires ValidDrive(job, one) && HistoryAfter(job, one) == map[1 := ChildFailed(second)]
    requires Issued(job, [], bodies)
          == [StartChild(0, "w", Null, Some(FanGroup(0))), StartChild(1, "w", Null, Some(FanGroup(0)))]
    ensures var two := one + [Round(bodies, map[0 := ChildFailed(first)])];
      && ValidDrive(job, two)
      && DecisionAfter(job, one, bodies).trace == [(TwoChildren, Raised(second))]
      && DecisionAfter(job, two, bodies).trace == [(TwoChildren, Raised(first))]
  {
    hide Replay, Catching, FanGroup, Raised;
    var arrivals: History := map[0 := ChildFailed(first)];
    var two := one + [Round(bodies, arrivals)];
    Caught(TurnAfter(job, one, bodies), 1, second);
    assert one[..0] == [] && two[..1] == one;
    IssuedSplit(job, one, bodies);
    var issued := Issued(job, one, bodies);
    assert issued[0] == StartChild(0, "w", Null, Some(FanGroup(0)));
    OneAnswer(HistoryAfter(job, one), issued, 0, ChildFailed(first));
    RecordedRemote(DecisionAfter(job, one, bodies).commands);
    assert HistoryAfter(job, two) == map[0 := ChildFailed(first), 1 := ChildFailed(second)];
    Caught(TurnAfter(job, two, bodies), 0, first);
  }
}
