/**
 * Durable execution: a run advanced turn by turn, each turn replaying the workflow from the top
 * against a history the engine grew in between, is one direct execution of the workflow.
 *
 * The engine is an environment. It persists the `recordStep` commands of a turn, and later adds
 * entries for some of the ops the run has asked for; what those entries say, which of them arrive
 * first, and what each local body gives if it runs in a given turn, are all arbitrary.
 */
module DurableExecution {
  import opened Basics
  import opened WorkflowModel
  import opened FanOutcomes

  // ---------------------------------------------------------------- the reference execution

  function WorldBlock(world: nat -> Entry, base: nat, width: nat): (es: seq<Entry>)
    ensures |es| == width && forall i :: 0 <= i < width ==> es[i] == world(base + i)
  {
    seq(width, i requires 0 <= i < width => world(base + i))
  }

  /** One uninterrupted run: every op reads its outcome from `world`; nothing suspends. */
  function Direct(runId: string, p: Program, base: nat, world: nat -> Entry): (r: (Program, nat))
    ensures !r.0.Do? && base <= r.1
    decreases p.Do?, p
  {
    match p
    case Done(_) => (p, base)
    case Fail(_) => (p, base)
    case Do(op, rest) =>
      var outcome := Verdict(op, runId, base, WorldBlock(world, base, Width(op)));
      Direct(runId, After(rest, outcome), base + Width(op), world)
  }

  function Seqs(base: nat, n: nat): (r: set<nat>)
    ensures forall s :: s in r <==> base <= s < base + n
  {
    if n == 0 then {} else Seqs(base, n - 1) + {base + n - 1}
  }

  /** The seqs that run waits at: those of its ops that are not local. */
  function Awaited(runId: string, p: Program, base: nat, world: nat -> Entry): set<nat>
    decreases p.Do?, p
  {
    match p
    case Done(_) => {}
    case Fail(_) => {}
    case Do(op, rest) =>
      var outcome := Verdict(op, runId, base, WorldBlock(world, base, Width(op)));
      (if IsLocal(op) then {} else Seqs(base, Width(op)))
      + Awaited(runId, After(rest, outcome), base + Width(op), world)
  }

  function StatusOf(p: Program): Status
    requires !p.Do?
  {
    if p.Done? then Completed(p.output) else Failing(p.error)
  }

  /** The workflow uses no fail-fast fan of children or calls, whatever outcomes it sees. */
  ghost predicate NoRemoteFailFast(p: Program)
    decreases p
  {
    p.Do? ==> !RemoteFailFast(p.op) && forall o :: o in p.rest ==> NoRemoteFailFast(p.rest[o])
  }

  // ---------------------------------------------------------------- the engine between turns

  /** The history entries the engine writes for a turn's `recordStep` commands. */
  function Recorded(commands: seq<Command>): History {
    if commands == [] then map[]
    else
      var last := commands[|commands| - 1];
      var front := Recorded(commands[..|commands| - 1]);
      if last.RecordStep? then front[last.at := RecordedEntry(last.name, last.result)] else front
  }

  /** `entry` is a possible resolution of the pending command `c`. */
  predicate Resolves(entry: Entry, c: Command) {
    match c
    case Call(_, name, _, _, _) => Matches(entry, Slot(CallKind, Some(name)))
    case Sleep(_, _) => Matches(entry, Slot(TimerKind, None))
    case WaitSignal(_, signal) => Matches(entry, Slot(SignalKind, Some(signal)))
    case StartChild(_, workflow, _, _) => Matches(entry, Slot(ChildKind, Some(workflow)))
    case RecordStep(_, _, _, _) => false
  }

  /** Something arrived: answers to commands of this turn or any before it, none of them answered yet. */
  ghost predicate Arrive(arrivals: History, h: History, issued: seq<Command>) {
    arrivals != map[] && arrivals.Keys !! h.Keys && Answers(arrivals, issued)
  }

  /** Everything that arrived answers one of the commands. */
  ghost predicate Answers(arrivals: History, commands: seq<Command>) {
    forall s :: s in arrivals ==>
      exists k :: 0 <= k < |commands| && commands[k].at == s && Resolves(arrivals[s], commands[k])
  }

  /** One turn of a drive: what local bodies give in it, and what arrives after it. */
  datatype Round = Round(bodies: nat -> Captured, arrivals: History)

  datatype Job = Job(runId: string, partition: string, program: Program)

  function TurnIn(job: Job, h: History, bodies: nat -> Captured): Turn {
    Turn(job.runId, job.partition, h, map[], bodies)
  }

  function Decide(job: Job, h: History, bodies: nat -> Captured): Decision {
    Replay(TurnIn(job, h, bodies), job.program, 0)
  }

  /** The history after a round: what was there, what the turn recorded, what arrived. */
  function Grown(h: History, d: Decision, arrivals: History): History {
    h + Recorded(d.commands) + arrivals
  }

  /** The history the turn after `rounds` replays. */
  function HistoryAfter(job: Job, rounds: seq<Round>): History {
    if rounds == [] then map[]
    else
      var last := rounds[|rounds| - 1];
      var h := HistoryAfter(job, rounds[..|rounds| - 1]);
      Grown(h, Decide(job, h, last.bodies), last.arrivals)
  }

  /** Every command of the turn after `rounds` and of the turns before it. */
  function Issued(job: Job, rounds: seq<Round>, bodies: nat -> Captured): seq<Command> {
    (if rounds == [] then [] else Issued(job, rounds[..|rounds| - 1], rounds[|rounds| - 1].bodies))
    + Decide(job, HistoryAfter(job, rounds), bodies).commands
  }

  /** Every round of the drive was suspended, and something it had asked for arrived after it. */
  ghost predicate ValidDrive(job: Job, rounds: seq<Round>) {
    rounds == [] ||
    var last := rounds[|rounds| - 1];
    var front := rounds[..|rounds| - 1];
    && ValidDrive(job, front) && Decide(job, HistoryAfter(job, front), last.bodies).status == Continue
    && Arrive(last.arrivals, HistoryAfter(job, front), Issued(job, front, last.bodies))
  }

  // ---------------------------------------------------------------- what reachable histories look like

  predicate NothingFrom(h: History, base: nat) {
    forall s :: s in h ==> s < base
  }

  /**
   * The history is one the workflow itself produced: entries match the ops that asked for them,
   * nothing lies beyond the op the workflow is suspended on, and a local op is recorded whole.
   */
  ghost predicate Conforms(runId: string, h: History, p: Program, base: nat)
    decreases p.Do?, p
  {
    if !p.Do? then NothingFrom(h, base)
    else
      && BlockMatches(h, p.op, base)
      && if Told(h, p.op, base) then Conforms(runId, h, NextTold(runId, h, p, base), base + Width(p.op))
         else NothingFrom(h, if IsLocal(p.op) then base else base + Width(p.op))
  }

  /** Every fail-fast fan the workflow has passed raised a failure that nothing still to come can replace. */
  ghost predicate Firm(runId: string, h: History, p: Program, base: nat)
    decreases p.Do?, p
  {
    p.Do? && Told(h, p.op, base) ==>
      FirmAt(h, p.op, base) && Firm(runId, h, NextTold(runId, h, p, base), base + Width(p.op))
  }

  /** Where the function goes from an op its history decides. */
  function NextTold(runId: string, h: History, p: Program, base: nat): (next: Program)
    requires p.Do?
    ensures (p.Do?, p decreases to next.Do?, next)
  {
    Next(runId, p, base, Filled(h, base, Width(p.op)))
  }

  /** Where the function goes once its next op has these entries. */
  function Next(runId: string, p: Program, base: nat, es: seq<Entry>): (next: Program)
    requires p.Do? && |es| == Width(p.op)
    ensures (p.Do?, p decreases to next.Do?, next)
  {
    After(p.rest, Verdict(p.op, runId, base, es))
  }

  lemma {:induction false} EmptyConforms(runId: string, h: History, p: Program, base: nat)
    requires NothingFrom(h, base)
    ensures Conforms(runId, h, p, base) && Firm(runId, h, p, base)
    decreases p.Do?, p
  {
    hide Verdict, After;
    if p.Do? && Told(h, p.op, base) {
      assert base !in h;
      EmptyConforms(runId, h, NextTold(runId, h, p, base), base);
    }
  }

  /** A workflow without fail-fast fans of children or calls is firm against any history. */
  lemma {:induction false} NoFansFirm(runId: string, h: History, p: Program, base: nat)
    requires NoRemoteFailFast(p)
    ensures Firm(runId, h, p, base)
    decreases p.Do?, p
  {
    hide Verdict;
    if p.Do? && Told(h, p.op, base) { NoFansFirm(runId, h, NextTold(runId, h, p, base), base + Width(p.op)); }
  }

  // ---------------------------------------------------------------- commands of one op

  /** A turn's commands carry strictly increasing seqs, none of which the history holds yet. */
  ghost predicate FreshCommands(cs: seq<Command>, held: set<nat>, base: nat) {
    && (forall k :: 0 <= k < |cs| ==> base <= cs[k].at && cs[k].at !in held)
    && (forall j, k :: 0 <= j < k < |cs| ==> cs[j].at < cs[k].at)
  }

  lemma {:induction false} CommandsFresh(t: Turn, op: Op, base: nat, n: nat, skip: set<nat>)
    requires n <= Width(op)
    ensures var cs := CommandsFor(t, op, base, n, skip);
      && FreshCommands(cs, skip, base)
      && forall k :: 0 <= k < |cs| ==> cs[k].at < base + n && (cs[k].RecordStep? <==> IsLocal(op))
  {
    hide CommandFor;
    if n > 0 { CommandsFresh(t, op, base, n - 1, skip); }
  }

  lemma {:induction false} CommandAt(t: Turn, op: Op, base: nat, n: nat, skip: set<nat>, k: nat)
    requires n <= Width(op)
    requires k < |CommandsFor(t, op, base, n, skip)|
    ensures var c := CommandsFor(t, op, base, n, skip)[k];
      base <= c.at < base + n && c == CommandFor(t, op, base, c.at - base)
  {
    hide CommandFor;
    if k < |CommandsFor(t, op, base, n - 1, skip)| { CommandAt(t, op, base, n - 1, skip, k); }
  }

  /** An op with an item the history lacks asks for something. */
  lemma {:induction false} SomethingWanted(t: Turn, op: Op, base: nat, n: nat, skip: set<nat>, s: nat)
    requires n <= Width(op) && base <= s < base + n && s !in skip
    ensures CommandsFor(t, op, base, n, skip) != []
  {
    if s < base + n - 1 { SomethingWanted(t, op, base, n - 1, skip, s); }
  }

  lemma {:induction false} RecordedConcat(a: seq<Command>, b: seq<Command>)
    ensures Recorded(a + b) == Recorded(a) + Recorded(b)
  {
    if b == [] {
      assert a + b == a;
    } else {
      assert (a + b)[..|a + b| - 1] == a + b[..|b| - 1];
      RecordedConcat(a, b[..|b| - 1]);
    }
  }

  lemma {:induction false} RecordedKeys(cs: seq<Command>)
    ensures forall s :: s in Recorded(cs) ==> exists k :: 0 <= k < |cs| && cs[k].at == s && cs[k].RecordStep?
  {
    if cs != [] {
      var front := cs[..|cs| - 1];
      RecordedKeys(front);
      forall s | s in Recorded(cs)
        ensures exists k :: 0 <= k < |cs| && cs[k].at == s && cs[k].RecordStep?
      {
        if s in Recorded(front) {
          var k :| 0 <= k < |front| && front[k].at == s && front[k].RecordStep?;
          assert cs[k] == front[k];
        } else {
          assert cs[|cs| - 1].at == s;
        }
      }
    }
  }

  lemma RecordedSnoc(front: seq<Command>, c: Command)
    requires c.RecordStep?
    ensures Recorded(front + [c]) == Recorded(front)[c.at := RecordedEntry(c.name, c.result)]
  {
    assert (front + [c])[..|front|] == front;
  }

  lemma CommandRecords(t: Turn, op: Op, base: nat, i: nat)
    requires IsLocal(op) && i < Width(op)
    ensures var c := CommandFor(t, op, base, i);
      RecordedEntry(c.name, c.result) == Fresh(t, op, base)[i]
  {
  }

  /** The history a local op leaves behind for its first `n` items. */
  function FreshMap(t: Turn, op: Op, base: nat, n: nat): History
    requires IsLocal(op) && n <= Width(op)
  {
    map s: nat | base <= s < base + n :: FreshAt(t, op, base, s)
  }

  function FreshAt(t: Turn, op: Op, base: nat, s: nat): Entry
    requires IsLocal(op) && base <= s < base + Width(op)
  {
    Fresh(t, op, base)[s - base]
  }

  /** The entries the engine writes for a local op are the ones its bodies gave. */
  lemma {:induction false} RecordedFan(t: Turn, op: Op, base: nat, n: nat)
    requires IsLocal(op) && n <= Width(op)
    ensures Recorded(CommandsFor(t, op, base, n, {})) == FreshMap(t, op, base, n)
  {
    hide FreshMap, Recorded, RecordedEntry, CommandFor, Fresh;
    FreshMapStep(t, op, base, n);
    if n == 0 {
      RecordedRemote(CommandsFor(t, op, base, 0, {}));
    } else {
      RecordedFan(t, op, base, n - 1);
      RecordedSnoc(CommandsFor(t, op, base, n - 1, {}), CommandFor(t, op, base, n - 1));
      CommandRecords(t, op, base, n - 1);
    }
  }

  lemma FreshMapStep(t: Turn, op: Op, base: nat, n: nat)
    requires IsLocal(op) && n <= Width(op)
    ensures n == 0 ==> FreshMap(t, op, base, n) == map[]
    ensures n > 0 ==>
      FreshMap(t, op, base, n) == FreshMap(t, op, base, n - 1)[base + n - 1 := Fresh(t, op, base)[n - 1]]
  {
    hide Fresh;
  }

  lemma {:induction false} RecordedRemote(cs: seq<Command>)
    requires forall k :: 0 <= k < |cs| ==> !cs[k].RecordStep?
    ensures Recorded(cs) == map[]
  {
    if cs != [] { RecordedRemote(cs[..|cs| - 1]); }
  }

  /** The turn replays a history this very workflow produced. */
  ghost predicate Sound(t: Turn, p: Program, base: nat) {
    Conforms(t.runId, t.history, p, base) && t.signals == map[]
  }

  ghost predicate FirmTurn(t: Turn, p: Program, base: nat) { Firm(t.runId, t.history, p, base) }

  /** What the history says of the next op, it says for good. */
  predicate FirmHere(t: Turn, p: Program, base: nat)
    requires p.Do?
  {
    Told(t.history, p.op, base) ==> FirmAt(t.history, p.op, base)
  }

  /** The next op has what it needs in this turn: its entries, or bodies it can run on the spot. */
  predicate Goes(t: Turn, p: Program, base: nat) {
    p.Do? && (Told(t.history, p.op, base) || IsLocal(p.op))
  }

  function Known(t: Turn, p: Program, base: nat): (es: seq<Entry>)
    requires Goes(t, p, base)
    ensures |es| == Width(p.op)
  {
    if Told(t.history, p.op, base) then Filled(t.history, base, Width(p.op)) else Fresh(t, p.op, base)
  }

  /** What the function sees the op come to. */
  function Seen(t: Turn, p: Program, base: nat): Outcome
    requires Goes(t, p, base)
  {
    Verdict(p.op, t.runId, base, Known(t, p, base))
  }

  function Then(t: Turn, p: Program, base: nat): (next: Program)
    requires Goes(t, p, base)
    ensures (p.Do?, p decreases to next.Do?, next)
    ensures next == After(p.rest, Seen(t, p, base))
  {
    Next(t.runId, p, base, Known(t, p, base))
  }

  /** What the next op records on the spot. */
  function Own(t: Turn, p: Program, base: nat): seq<Command>
    requires Goes(t, p, base)
  {
    if Told(t.history, p.op, base) then [] else CommandsFor(t, p.op, base, Width(p.op), {})
  }

  /** An op that goes hands its outcome over; what it records comes before the rest of the replay. */
  lemma GoesOn(t: Turn, p: Program, base: nat)
    requires Sound(t, p, base) && Goes(t, p, base)
    ensures Sound(t, Then(t, p, base), base + Width(p.op))
    ensures FirmTurn(t, p, base) ==> FirmHere(t, p, base) && FirmTurn(t, Then(t, p, base), base + Width(p.op))
    ensures Replay(t, p, base)
         == Decision(Replay(t, Then(t, p, base), base + Width(p.op)).status,
                     Own(t, p, base) + Replay(t, Then(t, p, base), base + Width(p.op)).commands,
                     [(p.op, Seen(t, p, base))]
                     + Replay(t, Then(t, p, base), base + Width(p.op)).trace)
  {
    hide Verdict, Replay, Told, CommandsFor, CommandFor, Fresh, Perform;
    ReplayAfter(t, p.op, p.rest, base);
    assert [] + Replay(t, Then(t, p, base), base + Width(p.op)).commands
        == Replay(t, Then(t, p, base), base + Width(p.op)).commands;
    if Told(t.history, p.op, base) {
      ToldResumes(t, p.op, base);
    } else {
      RunsBodies(t, p.op, base);
      EmptyConforms(t.runId, t.history, Then(t, p, base), base + Width(p.op));
    }
  }

  lemma RunsBodies(t: Turn, op: Op, base: nat)
    requires BlockMatches(t.history, op, base) && IsLocal(op) && !Told(t.history, op, base)
    ensures Perform(t, op, base)
         == Resume(Verdict(op, t.runId, base, Fresh(t, op, base)), CommandsFor(t, op, base, Width(op), {}))
  {
    hide OutcomeOf, CommandsFor, Fresh;
    NoMismatch(t.history, op, base, 0);
  }

  /** Any other op suspends the turn, asking for the items the history lacks. */
  lemma Waits(t: Turn, p: Program, base: nat)
    requires Sound(t, p, base) && p.Do? && !Goes(t, p, base)
    ensures Replay(t, p, base)
         == Decision(Continue, CommandsFor(t, p.op, base, Width(p.op), t.history.Keys), [])
  {
    hide OutcomeOf;
    NoMismatch(t.history, p.op, base, 0);
    if RemoteFailFast(p.op) { ScanNothing(t.history, p.op, base, 0); }
    ReplayAfter(t, p.op, p.rest, base);
  }

  // ---------------------------------------------------------------- one turn

  function Last(cs: seq<Command>): Command
    requires cs != []
  {
    cs[|cs| - 1]
  }

  /** A decision's commands are new, and a suspended turn ends on one it waits for. */
  ghost predicate Proper(d: Decision, held: set<nat>, base: nat) {
    && FreshCommands(d.commands, held, base)
    && (d.status == Continue ==> d.commands != [] && !Last(d.commands).RecordStep?)
  }

  lemma {:induction false} TurnCommands(t: Turn, p: Program, base: nat)
    requires Sound(t, p, base)
    ensures Proper(Replay(t, p, base), t.history.Keys, base)
    decreases p.Do?, p
  {
    hide *;
    if !p.Do? {
      EndedTurn(t, p, base);
      NoCommands(Replay(t, p, base), t.history.Keys, base);
    } else if Goes(t, p, base) {
      GoesOn(t, p, base);
      TurnCommands(t, Then(t, p, base), base + Width(p.op));
      GoingCommands(t, p, base);
    } else {
      Waits(t, p, base);
      WaitingCommands(t, p, base);
    }
  }

  /** A function with nothing left to run decides at once, and asks for nothing. */
  lemma EndedTurn(t: Turn, p: Program, base: nat)
    requires !p.Do?
    ensures Replay(t, p, base) == Decision(StatusOf(p), [], [])
    ensures StatusOf(p) != Continue
  {
  }

  lemma NoCommands(d: Decision, held: set<nat>, base: nat)
    requires d.commands == [] && d.status != Continue
    ensures Proper(d, held, base)
  {
  }

  lemma GoingCommands(t: Turn, p: Program, base: nat)
    requires Sound(t, p, base) && p.Do? && Goes(t, p, base)
    requires Proper(Replay(t, Then(t, p, base), base + Width(p.op)), t.history.Keys, base + Width(p.op))
    ensures Proper(Replay(t, p, base), t.history.Keys, base)
  {
    hide Sound, Goes, Then, Own, Known, Seen, Replay, Verdict, FreshCommands;
    GoesOn(t, p, base);
    OwnThenRest(t, p, base, Replay(t, Then(t, p, base), base + Width(p.op)).commands);
  }

  lemma OwnThenRest(t: Turn, p: Program, base: nat, rest: seq<Command>)
    requires Sound(t, p, base) && Goes(t, p, base)
    requires FreshCommands(rest, t.history.Keys, base + Width(p.op))
    ensures FreshCommands(Own(t, p, base) + rest, t.history.Keys, base)
  {
    hide CommandFor;
    CommandsFresh(t, p.op, base, Width(p.op), {});
  }

  lemma WaitingCommands(t: Turn, p: Program, base: nat)
    requires p.Do? && !Goes(t, p, base)
    ensures Proper(Decision(Continue, CommandsFor(t, p.op, base, Width(p.op), t.history.Keys), []),
                   t.history.Keys, base)
  {
    hide CommandFor;
    CommandsFresh(t, p.op, base, Width(p.op), t.history.Keys);
    var s :| base <= s < base + Width(p.op) && s !in t.history;
    SomethingWanted(t, p.op, base, Width(p.op), t.history.Keys, s);
  }

  // ---------------------------------------------------------------- from one turn to the next

  ghost predicate AgreeFrom(h: History, g: History, base: nat) {
    forall s :: s >= base ==> (s in h <==> s in g) && (s in h ==> h[s] == g[s])
  }

  /** An entry for `s` could still arrive: the turn has reached the op that asks for it. */
  ghost predicate Open(t: Turn, p: Program, base: nat, s: nat, entry: Entry)
    decreases p.Do?, p
  {
    && p.Do? && base <= s
    && if s < base + Width(p.op) then !IsLocal(p.op) && Matches(entry, SlotOf(p.op, base, s - base))
       else Goes(t, p, base) && Open(t, Then(t, p, base), base + Width(p.op), s, entry)
  }

  /** What arrives at `base` or later is new, and was asked for. */
  ghost predicate Expected(t: Turn, p: Program, base: nat, arrivals: History) {
    forall s :: s in arrivals && s >= base ==> s !in t.history && Open(t, p, base, s, arrivals[s])
  }

  lemma OwnRecords(t: Turn, p: Program, base: nat)
    requires Goes(t, p, base)
    ensures forall k :: 0 <= k < |Own(t, p, base)| ==> Own(t, p, base)[k].RecordStep?
    ensures Told(t.history, p.op, base) ==> Recorded(Own(t, p, base)) == map[]
    ensures !Told(t.history, p.op, base) ==>
      Recorded(Own(t, p, base)) == FreshMap(t, p.op, base, Width(p.op))
  {
    hide CommandFor, Told;
    if !Told(t.history, p.op, base) {
      CommandsFresh(t, p.op, base, Width(p.op), {});
      RecordedFan(t, p.op, base, Width(p.op));
    }
  }

  /** Nothing the turn records lies below `base` or overwrites an entry. */
  lemma NewEntries(h: History, commands: seq<Command>, base: nat)
    requires FreshCommands(commands, h.Keys, base)
    ensures forall s :: s in Recorded(commands) ==> s >= base && s !in h
  {
    RecordedKeys(commands);
  }

  /** The op has come to what the turn saw, and every entry of its block is one it asked for. */
  ghost predicate Stands(t: Turn, p: Program, base: nat, h2: History)
    requires Goes(t, p, base)
  {
    && BlockMatches(h2, p.op, base) && Told(h2, p.op, base)
    && Verdict(p.op, t.runId, base, Filled(h2, base, Width(p.op))) == Seen(t, p, base)
  }

  lemma ReadStands(t: Turn, p: Program, base: nat, arrivals: History, h2: History, rest: seq<Command>)
    requires Sound(t, p, base) && Goes(t, p, base) && FirmHere(t, p, base) && Told(t.history, p.op, base)
    requires FreshCommands(rest, t.history.Keys, base + Width(p.op)) && Expected(t, p, base, arrivals)
    requires AgreeFrom(h2, t.history + Recorded(rest) + arrivals, base)
    ensures Stands(t, p, base, h2)
  {
    hide Verdict, FirmAt, SlotOf, FreshCommands, Matches, Conforms, Firm, Told;
    SoundBlock(t, p, base);
    NewEntries(t.history, rest, base + Width(p.op));
    assert Held(t.history, h2, base);
    ToldLater(t.history, h2, p.op, base);
    FirmStays(t.history, p.op, t.runId, base, Filled(h2, base, Width(p.op)));
  }

  lemma SoundBlock(t: Turn, p: Program, base: nat)
    requires Sound(t, p, base) && p.Do?
    ensures BlockMatches(t.history, p.op, base)
  {
  }

  lemma ToldLater(h: History, h2: History, op: Op, base: nat)
    requires Told(h, op, base) && Held(h, h2, base)
    ensures Told(h2, op, base)
  {
    if !AllPresent(h, base, Width(op)) {
      var s :| base <= s < base + Width(op) && FailedAt(h, s);
      assert FailedAt(h2, s);
    }
  }

  lemma RunStands(t: Turn, p: Program, base: nat, arrivals: History, h2: History, rest: seq<Command>)
    requires Sound(t, p, base) && Goes(t, p, base) && !Told(t.history, p.op, base)
    requires FreshCommands(rest, t.history.Keys, base + Width(p.op)) && Expected(t, p, base, arrivals)
    requires AgreeFrom(h2, t.history + (FreshMap(t, p.op, base, Width(p.op)) + Recorded(rest)) + arrivals, base)
    ensures Stands(t, p, base, h2)
    ensures AgreeFrom(h2, t.history + Recorded(rest) + arrivals, base + Width(p.op))
  {
    hide Fresh, FreshCommands, Recorded, Verdict, Told, Conforms;
    NewEntries(t.history, rest, base + Width(p.op));
    var fan := FreshMap(t, p.op, base, Width(p.op));
    FanHeld(t.history, fan, Recorded(rest), arrivals, h2, base, base + Width(p.op));
    assert Filled(h2, base, Width(p.op)) == Fresh(t, p.op, base);
    LocalBlock(t, p.op, base, h2);
  }

  lemma LocalBlock(t: Turn, op: Op, base: nat, h2: History)
    requires IsLocal(op) && forall s :: base <= s < base + Width(op) ==> s in h2 && h2[s] == FreshAt(t, op, base, s)
    ensures BlockMatches(h2, op, base) && Told(h2, op, base)
  {
  }

  lemma FanHeld(h: History, fan: History, rest: History, arrivals: History, h2: History, base: nat, mid: nat)
    requires base <= mid && fan.Keys == (set s: nat {:trigger s in fan} | base <= s < mid)
    requires forall s :: s in rest || (s in arrivals && s >= base) ==> s >= mid
    requires AgreeFrom(h2, h + (fan + rest) + arrivals, base)
    ensures forall s :: base <= s < mid ==> s in h2 && h2[s] == fan[s]
    ensures AgreeFrom(h2, h + rest + arrivals, mid)
  {
    forall s | base <= s < mid ensures s in h2 && h2[s] == fan[s] {
      assert s in fan;
      assert s in h + (fan + rest) + arrivals;
    }
  }

  /** After the turn, an op that went stands where it stood. */
  lemma OpStands(t: Turn, p: Program, base: nat, arrivals: History, h2: History, rest: seq<Command>)
    requires Sound(t, p, base) && Goes(t, p, base) && FirmHere(t, p, base)
    requires FreshCommands(rest, t.history.Keys, base + Width(p.op)) && Expected(t, p, base, arrivals)
    requires AgreeFrom(h2, t.history + Recorded(Own(t, p, base) + rest) + arrivals, base)
    ensures Stands(t, p, base, h2)
    ensures AgreeFrom(h2, t.history + Recorded(rest) + arrivals, base + Width(p.op))
  {
    hide FreshCommands, Expected, Known, FreshMap, Told, Stands, Sound, FirmHere;
    OwnRecords(t, p, base);
    RecordedConcat(Own(t, p, base), rest);
    if Told(t.history, p.op, base) {
      assert map[] + Recorded(rest) == Recorded(rest);
      ReadStands(t, p, base, arrivals, h2, rest);
    } else {
      RunStands(t, p, base, arrivals, h2, rest);
    }
  }

  lemma WaitingGrows(t: Turn, p: Program, base: nat, arrivals: History, h2: History)
    requires Sound(t, p, base) && p.Do? && !Goes(t, p, base)
    requires Expected(t, p, base, arrivals)
    requires AgreeFrom(h2, t.history + arrivals, base)
    ensures BlockMatches(h2, p.op, base) && NothingFrom(h2, base + Width(p.op))
  {
    hide Matches, SlotOf, Verdict, Told;
  }

  /** Whatever resolves the command an op emits for an item is an entry the op accepts there. */
  lemma AskedSlot(t: Turn, op: Op, base: nat, i: nat, entry: Entry)
    requires i < Width(op)
    ensures Resolves(entry, CommandFor(t, op, base, i)) <==> !IsLocal(op) && Matches(entry, SlotOf(op, base, i))
  {
  }

  lemma ConformsGoing(t: Turn, p: Program, base: nat, h2: History)
    requires Goes(t, p, base) && Stands(t, p, base, h2)
    requires Conforms(t.runId, h2, Then(t, p, base), base + Width(p.op))
    ensures Conforms(t.runId, h2, p, base)
  {
    hide Verdict;
  }

  lemma ConformsWaiting(t: Turn, p: Program, base: nat, h2: History)
    requires p.Do? && !Goes(t, p, base)
    requires BlockMatches(h2, p.op, base) && NothingFrom(h2, base + Width(p.op))
    ensures Conforms(t.runId, h2, p, base)
  {
    hide Verdict;
    if Told(h2, p.op, base) {
      EmptyConforms(t.runId, h2, NextTold(t.runId, h2, p, base), base + Width(p.op));
    }
  }

  lemma NothingRecorded(t: Turn, p: Program, base: nat)
    requires p.Do? && !Goes(t, p, base)
    ensures Recorded(CommandsFor(t, p.op, base, Width(p.op), t.history.Keys)) == map[]
  {
    hide CommandFor;
    CommandsFresh(t, p.op, base, Width(p.op), t.history.Keys);
    RecordedRemote(CommandsFor(t, p.op, base, Width(p.op), t.history.Keys));
  }

  /** What a sound and firm turn leaves behind, with any of what was asked for, is sound again. */
  lemma {:induction false} GrowthConforms(t: Turn, p: Program, base: nat, arrivals: History, h2: History)
    requires Sound(t, p, base) && FirmTurn(t, p, base) && Expected(t, p, base, arrivals)
    requires AgreeFrom(h2, t.history + Recorded(Replay(t, p, base).commands) + arrivals, base)
    ensures Conforms(t.runId, h2, p, base)
    decreases p.Do?, p
  {
    hide *;
    if !p.Do? {
      EndedConforms(t, p, base, arrivals, h2);
    } else if Goes(t, p, base) {
      GoesOn(t, p, base);
      GoingGrows(t, p, base, arrivals, h2);
      GrowthConforms(t, Then(t, p, base), base + Width(p.op), arrivals, h2);
      ConformsGoing(t, p, base, h2);
    } else {
      WaitingConforms(t, p, base, arrivals, h2);
    }
  }

  lemma EndedConforms(t: Turn, p: Program, base: nat, arrivals: History, h2: History)
    requires !p.Do? && Sound(t, p, base) && Expected(t, p, base, arrivals)
    requires AgreeFrom(h2, t.history + Recorded(Replay(t, p, base).commands) + arrivals, base)
    ensures Conforms(t.runId, h2, p, base)
  {
    EndedTurn(t, p, base);
  }

  lemma WaitingConforms(t: Turn, p: Program, base: nat, arrivals: History, h2: History)
    requires Sound(t, p, base) && p.Do? && !Goes(t, p, base) && Expected(t, p, base, arrivals)
    requires AgreeFrom(h2, t.history + Recorded(Replay(t, p, base).commands) + arrivals, base)
    ensures Conforms(t.runId, h2, p, base)
  {
    hide *;
    Waits(t, p, base);
    NothingRecorded(t, p, base);
    assert t.history + map[] + arrivals == t.history + arrivals;
    WaitingGrows(t, p, base, arrivals, h2);
    ConformsWaiting(t, p, base, h2);
  }

  lemma ExpectedRest(t: Turn, p: Program, base: nat, arrivals: History)
    requires Goes(t, p, base) && Expected(t, p, base, arrivals)
    ensures Expected(t, Then(t, p, base), base + Width(p.op), arrivals)
  {
    hide Goes, Then, Matches, SlotOf;
  }

  lemma GoingGrows(t: Turn, p: Program, base: nat, arrivals: History, h2: History)
    requires p.Do? && Goes(t, p, base)
    requires Sound(t, p, base) && FirmHere(t, p, base) && Expected(t, p, base, arrivals)
    requires AgreeFrom(h2, t.history + Recorded(Replay(t, p, base).commands) + arrivals, base)
    ensures Sound(t, Then(t, p, base), base + Width(p.op))
    ensures Expected(t, Then(t, p, base), base + Width(p.op), arrivals)
    ensures AgreeFrom(h2, t.history + Recorded(Replay(t, Then(t, p, base), base + Width(p.op)).commands) + arrivals,
                      base + Width(p.op))
    ensures Stands(t, p, base, h2)
  {
    hide *;
    var rest := Replay(t, Then(t, p, base), base + Width(p.op)).commands;
    GoesOn(t, p, base);
    ExpectedRest(t, p, base, arrivals);
    TurnCommands(t, Then(t, p, base), base + Width(p.op));
    ProperFresh(Replay(t, Then(t, p, base), base + Width(p.op)), t.history.Keys, base + Width(p.op));
    OpStands(t, p, base, arrivals, h2, rest);
  }

  lemma ProperFresh(d: Decision, held: set<nat>, base: nat)
    requires Proper(d, held, base)
    ensures FreshCommands(d.commands, held, base)
  {
  }

  // ---------------------------------------------------------------- agreement with the direct execution

  /** `world` says what the history says, at every seq the history holds from `base` on. */
  ghost predicate WorldAgrees(world: nat -> Entry, h: History, base: nat) {
    forall s :: s in h && s >= base ==> world(s) == h[s]
  }

  lemma WorldExtends(world: nat -> Entry, h: History, base: nat, width: nat)
    requires WorldAgrees(world, h, base)
    ensures Extends(WorldBlock(world, base, width), h, base)
  {
  }

  /** The direct execution sees what the turn sees. */
  lemma DirectStep(t: Turn, p: Program, base: nat, world: nat -> Entry, h2: History)
    requires Sound(t, p, base) && Goes(t, p, base) && FirmHere(t, p, base)
    requires WorldAgrees(world, h2, base) && Stands(t, p, base, h2) && Held(t.history, h2, base)
    ensures Direct(t.runId, p, base, world) == Direct(t.runId, Then(t, p, base), base + Width(p.op), world)
  {
    hide Verdict, Told, Sound;
    var es := WorldBlock(world, base, Width(p.op));
    SoundBlock(t, p, base);
    WorldExtends(world, h2, base, Width(p.op));
    if Told(t.history, p.op, base) {
      WorldExtends(world, h2, base, Width(p.op));
      assert WorldAgrees(world, t.history, base);
      WorldExtends(world, t.history, base, Width(p.op));
      FirmStays(t.history, p.op, t.runId, base, es);
    } else {
      LocalWhole(h2, p.op, base);
      FirmStays(h2, p.op, t.runId, base, es);
    }
  }

  lemma LocalWhole(h: History, op: Op, base: nat)
    requires IsLocal(op) && Told(h, op, base)
    ensures FirmAt(h, op, base)
  {
  }

  /** A turn that ends the run ends it the way the direct execution ends. */
  lemma {:induction false} TurnAgrees(t: Turn, p: Program, base: nat, world: nat -> Entry)
    requires Sound(t, p, base) && FirmTurn(t, p, base) && Replay(t, p, base).status != Continue
    requires WorldAgrees(world, t.history + Recorded(Replay(t, p, base).commands), base)
    ensures StatusOf(Direct(t.runId, p, base, world).0) == Replay(t, p, base).status
    decreases p.Do?, p
  {
    hide *;
    if !p.Do? {
      EndedTurn(t, p, base);
      EndedDirect(t.runId, p, base, world);
    } else if Goes(t, p, base) {
      var h2 := t.history + Recorded(Replay(t, p, base).commands);
      GoesOn(t, p, base);
      GoingAlone(t, p, base);
      DirectStep(t, p, base, world, h2);
      WorldShrinks(world, h2, t.history + Recorded(Replay(t, Then(t, p, base), base + Width(p.op)).commands),
                   base, base + Width(p.op));
      TurnAgrees(t, Then(t, p, base), base + Width(p.op), world);
    } else {
      Waits(t, p, base);
    }
  }

  lemma EndedDirect(runId: string, p: Program, base: nat, world: nat -> Entry)
    requires !p.Do?
    ensures Direct(runId, p, base, world) == (p, base)
  {
  }

  /** What the turn itself records leaves its next op standing. */
  lemma GoingAlone(t: Turn, p: Program, base: nat)
    requires Sound(t, p, base) && p.Do? && Goes(t, p, base) && FirmHere(t, p, base)
    ensures var h2 := t.history + Recorded(Replay(t, p, base).commands);
      && Stands(t, p, base, h2) && Held(t.history, h2, base)
      && AgreeFrom(h2, t.history + Recorded(Replay(t, Then(t, p, base), base + Width(p.op)).commands) + map[],
                   base + Width(p.op))
  {
    hide *;
    var h2 := t.history + Recorded(Replay(t, p, base).commands);
    NoArrivals(t, p, base, h2);
    GoingGrows(t, p, base, map[], h2);
    TurnCommands(t, p, base);
    ProperFresh(Replay(t, p, base), t.history.Keys, base);
    NewEntries(t.history, Replay(t, p, base).commands, base);
    UnionHeld(t.history, Recorded(Replay(t, p, base).commands), base);
  }

  lemma UnionHeld(h: History, more: History, base: nat)
    requires forall s :: s in more ==> s !in h
    ensures Held(h, h + more, base)
  {
  }

  lemma NoArrivals(t: Turn, p: Program, base: nat, h2: History)
    requires h2 == t.history + Recorded(Replay(t, p, base).commands)
    ensures Expected(t, p, base, map[])
    ensures AgreeFrom(h2, t.history + Recorded(Replay(t, p, base).commands) + map[], base)
  {
    hide Replay, Recorded, Open;
  }

  lemma WorldShrinks(world: nat -> Entry, h: History, g: History, base: nat, mid: nat)
    requires WorldAgrees(world, h, base) && base <= mid && AgreeFrom(h, g + map[], mid)
    ensures WorldAgrees(world, g, mid)
  {
    assert g + map[] == g;
    forall s | s in g && s >= mid ensures world(s) == g[s] {
      assert s in h;
    }
  }

  /** The entries that had to be waited for. */
  function Waited(h: History): set<nat> { set s | s in h && h[s].kind != StepKind }

  /** Everything a reachable history holds is an op of the direct execution, and waited for only where that waits. */
  lemma {:induction false} HistoryWithinDirect(runId: string, h: History, p: Program, base: nat, world: nat -> Entry)
    requires Conforms(runId, h, p, base) && Firm(runId, h, p, base) && WorldAgrees(world, h, base)
    ensures forall s :: s in h ==> s < Direct(runId, p, base, world).1
    ensures forall s :: s in Waited(h) && s >= base ==> s in Awaited(runId, p, base, world)
    decreases p.Do?, p
  {
    hide Verdict, Told, FirmAt;
    if p.Do? {
      if IsLocal(p.op) { BlockWaits(h, p.op, base); }
      if Told(h, p.op, base) {
        WorldExtends(world, h, base, Width(p.op));
        FirmStays(h, p.op, runId, base, WorldBlock(world, base, Width(p.op)));
        HistoryWithinDirect(runId, h, NextTold(runId, h, p, base), base + Width(p.op), world);
      }
    }
  }

  lemma BlockWaits(h: History, op: Op, base: nat)
    requires BlockMatches(h, op, base) && IsLocal(op)
    ensures forall s :: base <= s < base + Width(op) ==> s !in Waited(h)
  {
  }

  // ---------------------------------------------------------------- more history changes nothing seen

  /** More history never changes what a firm turn already saw. */
  lemma {:induction false} TracePrefix(t: Turn, t2: Turn, p: Program, base: nat)
    requires Sound(t, p, base) && FirmTurn(t, p, base) && Sound(t2, p, base) && t.runId == t2.runId
    requires Held(t.history + Recorded(Replay(t, p, base).commands), t2.history, base)
    ensures Replay(t, p, base).trace <= Replay(t2, p, base).trace
    decreases p.Do?, p
  {
    hide *;
    if !p.Do? {
      EndedTurn(t, p, base);
      EndedTurn(t2, p, base);
    } else if Goes(t, p, base) {
      GoesOn(t, p, base);
      GoingPrefix(t, t2, p, base);
      GoesOn(t2, p, base);
      TracePrefix(t, t2, Then(t, p, base), base + Width(p.op));
    } else {
      Waits(t, p, base);
    }
  }

  /** The later turn sees the op come to the same, and the rest of the two turns is related as they were. */
  lemma GoingPrefix(t: Turn, t2: Turn, p: Program, base: nat)
    requires Sound(t, p, base) && Sound(t2, p, base) && t.runId == t2.runId
    requires p.Do? && Goes(t, p, base) && FirmHere(t, p, base)
    requires Held(t.history + Recorded(Replay(t, p, base).commands), t2.history, base)
    ensures Goes(t2, p, base) && Seen(t2, p, base) == Seen(t, p, base) && Then(t2, p, base) == Then(t, p, base)
    ensures Held(t.history + Recorded(Replay(t, Then(t, p, base), base + Width(p.op)).commands), t2.history,
                 base + Width(p.op))
  {
    hide *;
    var h2 := t.history + Recorded(Replay(t, p, base).commands);
    GoingAlone(t, p, base);
    SameGoing(t, t2, p, base, h2);
    HeldShrinks(h2, t.history + Recorded(Replay(t, Then(t, p, base), base + Width(p.op)).commands), t2.history,
                base, base + Width(p.op));
  }

  lemma HeldShrinks(h: History, g: History, h2: History, base: nat, mid: nat)
    requires Held(h, h2, base) && base <= mid && AgreeFrom(h, g + map[], mid)
    ensures Held(g, h2, mid)
  {
    assert g + map[] == g;
  }

  lemma SameGoing(t: Turn, t2: Turn, p: Program, base: nat, h2: History)
    requires Sound(t, p, base) && Goes(t, p, base) && FirmHere(t, p, base) && t.runId == t2.runId
    requires Stands(t, p, base, h2) && Held(t.history, h2, base) && Held(h2, t2.history, base)
    ensures Goes(t2, p, base) && Seen(t2, p, base) == Seen(t, p, base) && Then(t2, p, base) == Then(t, p, base)
  {
    hide Verdict, Told, Sound, FirmAt;
    SoundBlock(t, p, base);
    ToldLater(h2, t2.history, p.op, base);
    var es := Filled(t2.history, base, Width(p.op));
    if Told(t.history, p.op, base) {
      FirmStays(t.history, p.op, t.runId, base, es);
    } else {
      LocalWhole(h2, p.op, base);
      FirmStays(h2, p.op, t.runId, base, es);
    }
  }

  // ---------------------------------------------------------------- what was asked for stays open

  /** Whatever resolves a command of the turn could arrive after it. */
  lemma {:induction false} CommandOpen(t: Turn, p: Program, base: nat, k: nat, entry: Entry)
    requires Sound(t, p, base) && k < |Replay(t, p, base).commands|
    requires Resolves(entry, Replay(t, p, base).commands[k])
    ensures Open(t, p, base, Replay(t, p, base).commands[k].at, entry)
    decreases p.Do?, p
  {
    hide *;
    if !p.Do? {
      EndedTurn(t, p, base);
    } else if Goes(t, p, base) {
      var rest := Replay(t, Then(t, p, base), base + Width(p.op)).commands;
      GoesOn(t, p, base);
      OwnRecords(t, p, base);
      NeverRecords(Own(t, p, base), entry);
      var j := k - |Own(t, p, base)|;
      CommandOpen(t, Then(t, p, base), base + Width(p.op), j, entry);
      OpenLater(t, p, base, rest[j].at, entry);
    } else {
      Waits(t, p, base);
      CommandAt(t, p.op, base, Width(p.op), t.history.Keys, k);
      AskedSlot(t, p.op, base, Replay(t, p, base).commands[k].at - base, entry);
      OpenHere(t, p, base, Replay(t, p, base).commands[k].at, entry);
    }
  }

  lemma NeverRecords(own: seq<Command>, entry: Entry)
    requires forall k :: 0 <= k < |own| ==> own[k].RecordStep?
    ensures forall k :: 0 <= k < |own| ==> !Resolves(entry, own[k])
  {
  }

  lemma OpenHere(t: Turn, p: Program, base: nat, s: nat, entry: Entry)
    requires p.Do? && base <= s < base + Width(p.op)
    ensures Open(t, p, base, s, entry) <==> !IsLocal(p.op) && Matches(entry, SlotOf(p.op, base, s - base))
  {
  }

  lemma OpenLater(t: Turn, p: Program, base: nat, s: nat, entry: Entry)
    requires Goes(t, p, base)
    ensures Open(t, Then(t, p, base), base + Width(p.op), s, entry) ==>
      s >= base + Width(p.op) && Open(t, p, base, s, entry)
    ensures s >= base + Width(p.op) && Open(t, p, base, s, entry) ==>
      Open(t, Then(t, p, base), base + Width(p.op), s, entry)
  {
    hide Goes, Then;
  }

  /** What could arrive after one turn could still arrive after a later one. */
  lemma {:induction false} OpenStays(t: Turn, t2: Turn, p: Program, base: nat, s: nat, entry: Entry)
    requires Sound(t, p, base) && FirmTurn(t, p, base) && Sound(t2, p, base) && t.runId == t2.runId
    requires Held(t.history + Recorded(Replay(t, p, base).commands), t2.history, base)
    requires Open(t, p, base, s, entry)
    ensures Open(t2, p, base, s, entry)
    decreases p.Do?, p
  {
    hide *;
    OpenWhere(t, p, base, s, entry);
    if s < base + Width(p.op) {
      OpenHere(t, p, base, s, entry);
      OpenHere(t2, p, base, s, entry);
    } else {
      OpenLater(t, p, base, s, entry);
      GoesOn(t, p, base);
      GoingPrefix(t, t2, p, base);
      GoesOn(t2, p, base);
      OpenStays(t, t2, Then(t, p, base), base + Width(p.op), s, entry);
      OpenLater(t2, p, base, s, entry);
    }
  }

  lemma OpenWhere(t: Turn, p: Program, base: nat, s: nat, entry: Entry)
    requires Open(t, p, base, s, entry)
    ensures p.Do? && base <= s && (s >= base + Width(p.op) ==> Goes(t, p, base))
    ensures entry.kind != StepKind || s >= base + Width(p.op)
  {
  }

  /** Nothing that is waited for is recorded on the spot. */
  lemma {:induction false} OpenNotRecorded(t: Turn, p: Program, base: nat, s: nat, entry: Entry)
    requires Sound(t, p, base) && Open(t, p, base, s, entry)
    ensures s !in Recorded(Replay(t, p, base).commands) && entry.kind != StepKind
    decreases p.Do?, p
  {
    hide *;
    OpenWhere(t, p, base, s, entry);
    if Goes(t, p, base) {
      var rest := Replay(t, Then(t, p, base), base + Width(p.op)).commands;
      GoesOn(t, p, base);
      RecordedConcat(Own(t, p, base), rest);
      OwnRecords(t, p, base);
      OpenHereNotOwn(t, p, base, s, entry);
      if s >= base + Width(p.op) {
        OpenLater(t, p, base, s, entry);
        OpenNotRecorded(t, Then(t, p, base), base + Width(p.op), s, entry);
      } else {
        TurnCommands(t, Then(t, p, base), base + Width(p.op));
        ProperFresh(Replay(t, Then(t, p, base), base + Width(p.op)), t.history.Keys, base + Width(p.op));
        NewEntries(t.history, rest, base + Width(p.op));
      }
    } else {
      Waits(t, p, base);
      NothingRecorded(t, p, base);
    }
  }

  lemma OpenHereNotOwn(t: Turn, p: Program, base: nat, s: nat, entry: Entry)
    requires Open(t, p, base, s, entry) && Goes(t, p, base)
    ensures s !in Recorded(Own(t, p, base))
  {
    hide CommandFor, CommandsFor;
    OwnRecords(t, p, base);
    hide Verdict;
  }

  // ---------------------------------------------------------------- whole drives

  function TurnAfter(job: Job, rounds: seq<Round>, bodies: nat -> Captured): Turn {
    TurnIn(job, HistoryAfter(job, rounds), bodies)
  }

  function DecisionAfter(job: Job, rounds: seq<Round>, bodies: nat -> Captured): Decision {
    Decide(job, HistoryAfter(job, rounds), bodies)
  }

  ghost predicate FirmAfter(job: Job, rounds: seq<Round>) {
    Firm(job.runId, HistoryAfter(job, rounds), job.program, 0)
  }

  /** Every turn of the drive so far was firm. */
  ghost predicate FirmDrive(job: Job, rounds: seq<Round>) {
    rounds == [] || (FirmDrive(job, rounds[..|rounds| - 1]) && FirmAfter(job, rounds[..|rounds| - 1]))
  }

  /** Which every drive is when the workflow uses no fail-fast fan of children or calls. */
  lemma {:induction false} NoFansFirmDrive(job: Job, rounds: seq<Round>)
    requires NoRemoteFailFast(job.program)
    ensures FirmDrive(job, rounds) && FirmAfter(job, rounds)
  {
    NoFansFirm(job.runId, HistoryAfter(job, rounds), job.program, 0);
    if rounds != [] { NoFansFirmDrive(job, rounds[..|rounds| - 1]); }
  }

  /** Every history a drive reaches is one the workflow itself produced. */
  lemma {:induction false} DriveSound(job: Job, rounds: seq<Round>, bodies: nat -> Captured)
    requires ValidDrive(job, rounds) && FirmDrive(job, rounds)
    ensures Sound(TurnAfter(job, rounds, bodies), job.program, 0)
    decreases |rounds|, 0
  {
    hide Conforms, Firm, Replay, Recorded, Issued, Arrive;
    if rounds == [] {
      EmptyConforms(job.runId, map[], job.program, 0);
    } else {
      var last, front := rounds[|rounds| - 1], rounds[..|rounds| - 1];
      DriveSound(job, front, last.bodies);
      ArrivalsExpected(job, front, last.bodies, last.arrivals);
      GrowthConforms(TurnAfter(job, front, last.bodies), job.program, 0, last.arrivals, HistoryAfter(job, rounds));
    }
  }

  lemma {:induction false} ArrivalsExpected(job: Job, rounds: seq<Round>, bodies: nat -> Captured, arrivals: History)
    requires ValidDrive(job, rounds) && FirmDrive(job, rounds)
    requires Arrive(arrivals, HistoryAfter(job, rounds), Issued(job, rounds, bodies))
    ensures Expected(TurnAfter(job, rounds, bodies), job.program, 0, arrivals)
    decreases |rounds|, 3
  {
    hide Conforms, Firm, Replay, Recorded, Issued, ValidDrive, FirmDrive, Open;
    var issued := Issued(job, rounds, bodies);
    forall s | s in arrivals
      ensures s !in HistoryAfter(job, rounds) && Open(TurnAfter(job, rounds, bodies), job.program, 0, s, arrivals[s])
    {
      var k :| 0 <= k < |issued| && issued[k].at == s && Resolves(arrivals[s], issued[k]);
      IssuedOpen(job, rounds, bodies, k, arrivals[s]);
    }
  }

  /** Whatever resolves a command of this turn or an earlier one could arrive after this one. */
  lemma {:induction false} IssuedOpen(job: Job, rounds: seq<Round>, bodies: nat -> Captured, k: nat, entry: Entry)
    requires ValidDrive(job, rounds) && FirmDrive(job, rounds)
    requires k < |Issued(job, rounds, bodies)| && Resolves(entry, Issued(job, rounds, bodies)[k])
    ensures Open(TurnAfter(job, rounds, bodies), job.program, 0, Issued(job, rounds, bodies)[k].at, entry)
    decreases |rounds|, 2
  {
    hide *;
    DriveSound(job, rounds, bodies);
    IssuedSplit(job, rounds, bodies);
    var earlier := if rounds == [] then [] else Issued(job, Before(rounds), LastOf(rounds).bodies);
    if k < |earlier| {
      FrontLength(rounds);
      DriveBefore(job, rounds);
      DriveSound(job, Before(rounds), LastOf(rounds).bodies);
      RoundGrows(job, rounds);
      IssuedOpen(job, Before(rounds), LastOf(rounds).bodies, k, entry);
      TurnsOf(job, Before(rounds), LastOf(rounds).bodies);
      TurnsOf(job, rounds, bodies);
      OpenStays(TurnAfter(job, Before(rounds), LastOf(rounds).bodies), TurnAfter(job, rounds, bodies), job.program, 0,
                earlier[k].at, entry);
    } else {
      TurnsOf(job, rounds, bodies);
      CommandOpen(TurnAfter(job, rounds, bodies), job.program, 0, k - |earlier|, entry);
    }
  }

  lemma IssuedSplit(job: Job, rounds: seq<Round>, bodies: nat -> Captured)
    ensures Issued(job, rounds, bodies) ==
      (if rounds == [] then [] else Issued(job, Before(rounds), LastOf(rounds).bodies))
      + DecisionAfter(job, rounds, bodies).commands
  {
    hide Replay, HistoryAfter;
  }

  lemma DriveBefore(job: Job, rounds: seq<Round>)
    requires rounds != [] && ValidDrive(job, rounds) && FirmDrive(job, rounds)
    ensures ValidDrive(job, Before(rounds)) && FirmDrive(job, Before(rounds)) && FirmAfter(job, Before(rounds))
    ensures DecisionAfter(job, Before(rounds), LastOf(rounds).bodies).status == Continue
    ensures Arrive(LastOf(rounds).arrivals, HistoryAfter(job, Before(rounds)),
                   Issued(job, Before(rounds), LastOf(rounds).bodies))
    ensures HistoryAfter(job, rounds) ==
      Grown(HistoryAfter(job, Before(rounds)), DecisionAfter(job, Before(rounds), LastOf(rounds).bodies),
            LastOf(rounds).arrivals)
  {
    hide Firm, Replay, Recorded, Issued, Arrive;
  }

  lemma TurnsOf(job: Job, rounds: seq<Round>, bodies: nat -> Captured)
    ensures var t := TurnAfter(job, rounds, bodies);
      && t.runId == job.runId && t.history == HistoryAfter(job, rounds)
      && DecisionAfter(job, rounds, bodies) == Replay(t, job.program, 0)
      && (FirmAfter(job, rounds) <==> FirmTurn(t, job.program, 0))
  {
    hide Firm, Replay, HistoryAfter;
  }

  function Before(rounds: seq<Round>): seq<Round>
    requires rounds != []
  {
    rounds[..|rounds| - 1]
  }

  function LastOf(rounds: seq<Round>): Round
    requires rounds != []
  {
    rounds[|rounds| - 1]
  }

  /** A round adds at least one entry that had to be waited for, and keeps all there was. */
  lemma {:induction false} RoundGrows(job: Job, rounds: seq<Round>)
    requires rounds != [] && ValidDrive(job, rounds) && FirmDrive(job, rounds)
    ensures Held(HistoryAfter(job, Before(rounds)), HistoryAfter(job, rounds), 0)
    ensures Held(HistoryAfter(job, Before(rounds))
                 + Recorded(DecisionAfter(job, Before(rounds), LastOf(rounds).bodies).commands),
                 HistoryAfter(job, rounds), 0)
    ensures |Waited(HistoryAfter(job, rounds))| > |Waited(HistoryAfter(job, Before(rounds)))|
    decreases |rounds|, 1
  {
    hide *;
    var front, last := Before(rounds), LastOf(rounds);
    var t := TurnAfter(job, front, last.bodies);
    FrontLength(rounds);
    DriveBefore(job, rounds);
    DriveSound(job, front, last.bodies);
    ArrivalsExpected(job, front, last.bodies, last.arrivals);
    TurnsOf(job, front, last.bodies);
    TurnCommands(t, job.program, 0);
    ProperFresh(Replay(t, job.program, 0), t.history.Keys, 0);
    NewEntries(t.history, Replay(t, job.program, 0).commands, 0);
    ArrivalsNew(t, job.program, last.arrivals, HistoryAfter(job, front), Issued(job, front, last.bodies));
    UnionHolds(t.history, Recorded(Replay(t, job.program, 0).commands), last.arrivals);
    GrownIs(HistoryAfter(job, front), DecisionAfter(job, front, last.bodies), last.arrivals);
  }

  lemma GrownIs(h: History, d: Decision, arrivals: History)
    ensures Grown(h, d, arrivals) == h + Recorded(d.commands) + arrivals
  {
  }

  lemma ArrivalsNew(t: Turn, p: Program, arrivals: History, h: History, issued: seq<Command>)
    requires Sound(t, p, 0) && Expected(t, p, 0, arrivals) && Arrive(arrivals, h, issued)
    ensures arrivals != map[]
    ensures forall s :: s in arrivals ==>
      s !in t.history && s !in Recorded(Replay(t, p, 0).commands) && arrivals[s].kind != StepKind
  {
    hide Sound, Replay, Recorded, Open;
    forall s | s in arrivals
      ensures s !in Recorded(Replay(t, p, 0).commands) && arrivals[s].kind != StepKind
    {
      OpenNotRecorded(t, p, 0, s, arrivals[s]);
    }
  }

  lemma UnionHolds(h: History, recorded: History, arrivals: History)
    requires arrivals != map[]
    requires forall s :: s in recorded ==> s !in h
    requires forall s :: s in arrivals ==> s !in h && s !in recorded && arrivals[s].kind != StepKind
    ensures Held(h, h + recorded + arrivals, 0)
    ensures Held(h + recorded, h + recorded + arrivals, 0)
    ensures |Waited(h + recorded + arrivals)| > |Waited(h)|
  {
    var s :| s in arrivals;
    var h2 := h + recorded + arrivals;
    assert s in Waited(h2) && s !in Waited(h);
    assert Waited(h) + {s} <= Waited(h2);
    SubsetSize(Waited(h) + {s}, Waited(h2));
  }

  lemma {:induction false} RoundsWithinHistory(job: Job, rounds: seq<Round>)
    requires ValidDrive(job, rounds) && FirmDrive(job, rounds)
    ensures |rounds| <= |Waited(HistoryAfter(job, rounds))|
  {
    hide *;
    if rounds != [] {
      FrontLength(rounds);
      DriveBefore(job, rounds);
      RoundsWithinHistory(job, Before(rounds));
      RoundGrows(job, rounds);
    }
  }

  lemma FrontLength(rounds: seq<Round>)
    requires rounds != []
    ensures |Before(rounds)| == |rounds| - 1
    ensures forall i :: 0 <= i < |rounds| - 1 ==> Before(rounds)[..i] == rounds[..i] && Before(rounds)[i] == rounds[i]
    ensures rounds[..|rounds| - 1] == Before(rounds) && rounds[|rounds| - 1] == LastOf(rounds)
  {
  }

  /** A valid drive's prefixes are valid drives, and no entry they reached is ever lost or changed. */
  lemma {:induction false} PrefixHeld(job: Job, rounds: seq<Round>, i: nat)
    requires ValidDrive(job, rounds) && FirmDrive(job, rounds) && i < |rounds|
    ensures ValidDrive(job, rounds[..i]) && FirmDrive(job, rounds[..i]) && FirmAfter(job, rounds[..i])
    ensures Held(HistoryAfter(job, rounds[..i])
                 + Recorded(DecisionAfter(job, rounds[..i], rounds[i].bodies).commands),
                 HistoryAfter(job, rounds), 0)
  {
    hide *;
    DriveBefore(job, rounds);
    RoundGrows(job, rounds);
    FrontLength(rounds);
    if i < |rounds| - 1 {
      PrefixHeld(job, Before(rounds), i);
      HeldOn(HistoryAfter(job, rounds[..i])
             + Recorded(DecisionAfter(job, rounds[..i], rounds[i].bodies).commands),
             HistoryAfter(job, Before(rounds)), HistoryAfter(job, rounds));
    }
  }

  lemma HeldOn(a: History, b: History, c: History)
    requires Held(a, b, 0) && Held(b, c, 0)
    ensures Held(a, c, 0)
  {
  }

  /**
   * The durable-execution theorem. However the engine drives the run, as long as each resume adds a
   * result the run had asked for, and no fail-fast fan raised a failure an earlier item can replace:
   * the run is suspended no more often than the direct execution has seqs to wait at;
   * and the turn that ends it ends it with the direct execution's output or error.
   */
  lemma DurableExecution(job: Job, rounds: seq<Round>, bodies: nat -> Captured, world: nat -> Entry)
    requires ValidDrive(job, rounds) && FirmDrive(job, rounds) && FirmAfter(job, rounds)
    requires WorldAgrees(world, HistoryAfter(job, rounds)
                                + Recorded(DecisionAfter(job, rounds, bodies).commands), 0)
    ensures |rounds| <= |Awaited(job.runId, job.program, 0, world)|
    ensures DecisionAfter(job, rounds, bodies).status != Continue ==>
      DecisionAfter(job, rounds, bodies).status == StatusOf(Direct(job.runId, job.program, 0, world).0)
  {
    hide *;
    var t, h := TurnAfter(job, rounds, bodies), HistoryAfter(job, rounds);
    DriveSound(job, rounds, bodies);
    TurnsOf(job, rounds, bodies);
    TurnCommands(t, job.program, 0);
    ProperFresh(Replay(t, job.program, 0), t.history.Keys, 0);
    NewEntries(h, DecisionAfter(job, rounds, bodies).commands, 0);
    RoundsWithinHistory(job, rounds);
    WaitedWithin(job, rounds, bodies, world);
    if DecisionAfter(job, rounds, bodies).status != Continue {
      TurnAgrees(t, job.program, 0, world);
    }
  }

  lemma WaitedWithin(job: Job, rounds: seq<Round>, bodies: nat -> Captured, world: nat -> Entry)
    requires Sound(TurnAfter(job, rounds, bodies), job.program, 0) && FirmAfter(job, rounds)
    requires forall s :: s in Recorded(DecisionAfter(job, rounds, bodies).commands) ==> s !in HistoryAfter(job, rounds)
    requires WorldAgrees(world, HistoryAfter(job, rounds)
                                + Recorded(DecisionAfter(job, rounds, bodies).commands), 0)
    ensures |Waited(HistoryAfter(job, rounds))| <= |Awaited(job.runId, job.program, 0, world)|
  {
    hide Conforms, Firm, Replay, Recorded, HistoryAfter;
    var h, more := HistoryAfter(job, rounds), Recorded(DecisionAfter(job, rounds, bodies).commands);
    forall s | s in h ensures world(s) == h[s] { assert s in h + more; }
    HistoryWithinDirect(job.runId, h, job.program, 0, world);
    SubsetSize(Waited(h), Awaited(job.runId, job.program, 0, world));
  }

  /** A suspended turn always waits for something, so the environment can always resume it. */
  lemma SuspendedCanResume(job: Job, rounds: seq<Round>, bodies: nat -> Captured)
    requires ValidDrive(job, rounds) && FirmDrive(job, rounds)
    requires DecisionAfter(job, rounds, bodies).status == Continue
    ensures exists arrivals :: ValidDrive(job, rounds + [Round(bodies, arrivals)])
  {
    hide *;
    var cs := DecisionAfter(job, rounds, bodies).commands;
    DriveSound(job, rounds, bodies);
    TurnsOf(job, rounds, bodies);
    TurnCommands(TurnAfter(job, rounds, bodies), job.program, 0);
    IssuedSplit(job, rounds, bodies);
    var earlier := if rounds == [] then [] else Issued(job, Before(rounds), LastOf(rounds).bodies);
    ProperLast(DecisionAfter(job, rounds, bodies), HistoryAfter(job, rounds));
    var arrivals: History := map[Last(cs).at := Resolution(Last(cs))];
    LastAnswer(earlier, cs, HistoryAfter(job, rounds));
    LongerDrive(job, rounds, bodies, arrivals);
  }

  lemma ProperLast(d: Decision, h: History)
    requires Proper(d, h.Keys, 0) && d.status == Continue
    ensures d.commands != [] && !Last(d.commands).RecordStep? && Last(d.commands).at !in h
  {
  }

  lemma LongerDrive(job: Job, rounds: seq<Round>, bodies: nat -> Captured, arrivals: History)
    requires ValidDrive(job, rounds) && DecisionAfter(job, rounds, bodies).status == Continue
    requires Arrive(arrivals, HistoryAfter(job, rounds), Issued(job, rounds, bodies))
    ensures ValidDrive(job, rounds + [Round(bodies, arrivals)])
  {
    hide Replay, HistoryAfter, Arrive, Issued;
    var longer := rounds + [Round(bodies, arrivals)];
    assert longer[..|longer| - 1] == rounds;
  }

  lemma LastAnswer(earlier: seq<Command>, cs: seq<Command>, h: History)
    requires cs != [] && !Last(cs).RecordStep? && Last(cs).at !in h
    ensures Arrive(map[Last(cs).at := Resolution(Last(cs))], h, earlier + cs)
  {
    hide Resolves, Arrive;
    assert (earlier + cs)[|earlier + cs| - 1] == Last(cs);
    OneAnswer(h, earlier + cs, |earlier + cs| - 1, Resolution(Last(cs)));
  }

  /** Any command not answered yet may be. */
  lemma OneAnswer(h: History, issued: seq<Command>, k: nat, entry: Entry)
    requires k < |issued| && Resolves(entry, issued[k]) && issued[k].at !in h
    ensures Arrive(map[issued[k].at := entry], h, issued)
  {
    var arrivals: History := map[issued[k].at := entry];
    assert issued[k].at in arrivals;
  }

  function Resolution(c: Command): (entry: Entry)
    requires !c.RecordStep?
    ensures Resolves(entry, c)
  {
    Entry(match c
      case Call(_, _, _, _, _) => CallKind
      case Sleep(_, _) => TimerKind
      case WaitSignal(_, _) => SignalKind
      case _ => ChildKind, None, Null, None)
  }

  /** What the workflow saw in one turn is a prefix of what it sees in every later one. */
  lemma TracesExtend(job: Job, rounds: seq<Round>, bodies: nat -> Captured, i: nat)
    requires ValidDrive(job, rounds) && FirmDrive(job, rounds) && i < |rounds|
    ensures DecisionAfter(job, rounds[..i], rounds[i].bodies).trace <= DecisionAfter(job, rounds, bodies).trace
  {
    hide *;
    PrefixHeld(job, rounds, i);
    DriveSound(job, rounds[..i], rounds[i].bodies);
    DriveSound(job, rounds, bodies);
    TurnsOf(job, rounds[..i], rounds[i].bodies);
    TurnsOf(job, rounds, bodies);
    TracePrefix(TurnAfter(job, rounds[..i], rounds[i].bodies), TurnAfter(job, rounds, bodies), job.program, 0);
  }

  /** A decision's command seqs strictly increase, and none is in the history it replayed. */
  lemma CommandsAreNew(job: Job, rounds: seq<Round>, bodies: nat -> Captured)
    requires ValidDrive(job, rounds) && FirmDrive(job, rounds)
    ensures FreshCommands(DecisionAfter(job, rounds, bodies).commands, HistoryAfter(job, rounds).Keys, 0)
  {
    hide *;
    DriveSound(job, rounds, bodies);
    TurnsOf(job, rounds, bodies);
    TurnCommands(TurnAfter(job, rounds, bodies), job.program, 0);
    ProperFresh(DecisionAfter(job, rounds, bodies), HistoryAfter(job, rounds).Keys, 0);
  }

  lemma {:induction false} RecordedHolds(cs: seq<Command>, k: nat)
    requires k < |cs| && cs[k].RecordStep?
    ensures cs[k].at in Recorded(cs)
  {
    if k < |cs| - 1 { RecordedHolds(cs[..|cs| - 1], k); }
  }

  /** A local body whose result one turn recorded is not run by any later turn. */
  lemma BodiesRunOnce(job: Job, rounds: seq<Round>, bodies: nat -> Captured, i: nat, k: nat)
    requires ValidDrive(job, rounds) && FirmDrive(job, rounds) && i < |rounds|
    requires k < |DecisionAfter(job, rounds[..i], rounds[i].bodies).commands|
    requires DecisionAfter(job, rounds[..i], rounds[i].bodies).commands[k].RecordStep?
    ensures forall j :: 0 <= j < |DecisionAfter(job, rounds, bodies).commands| ==>
      DecisionAfter(job, rounds, bodies).commands[j].at
      != DecisionAfter(job, rounds[..i], rounds[i].bodies).commands[k].at
  {
    hide HistoryAfter, Decide, Recorded, ValidDrive, FirmDrive;
    PrefixHeld(job, rounds, i);
    RecordedHolds(DecisionAfter(job, rounds[..i], rounds[i].bodies).commands, k);
    CommandsAreNew(job, rounds, bodies);
  }
}
