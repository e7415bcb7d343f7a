# Proofs about a durable workflow engine

This project models the algorithmic core of a durable workflow engine and proves what its documentation
promises. Nothing in it is run with the engine; verify it with `dafny verify dfyconfig.toml`.

* **Turn-based replay** (`WorkflowModel`, `WorkflowContext`, `OpMeaning`, `FanOutcomes`,
  `DurableExecution`, `FailFastRuns`). A workflow function is a program tree: at each durable op it names
  the rest of the function for the outcome it receives. A coordinator replays it from the top on every
  turn against a history keyed by seq. `WorkflowContext` is the replaying object, op by op;
  `DurableExecution` lets an engine append what a turn recorded and resolve anything asked for in that
  turn or an earlier one, and compares every such drive with one direct execution. A fan that fails fast
  may raise a failure before its other items settle: `FanOutcomes` and `FailFastRuns` say exactly when
  that is final.
* **Admission control** (`Queue`, `QueueMeaning`, `QueueProperties`, `RedisAdmission`, `FleetSafety`,
  `AdmissionBisimulation`, `AdmissionDivergence`). The in-process controller and the Redis script, each as
  the object whose fields it changes, proved against a pure step; then what each guarantees over all runs,
  and exactly which rules their callers must keep for the two to give the same answers.
* **Fast reads that agree with simple ones** (`CanonicalJson`, `CanonicalJsonFaithful`, `FanJoin`,
  `BufferedChildSignals`, `BufferedSignalSweep`, `SettlingMeaning`, `RunDetail`, `RunDetailStore`,
  `RunDetailFromStore`, `RunDetailViews`, `RunDetailPages`, `RunDetailMeaning`). Canonical texts as an
  equality test, ids and groups read back, keyed reads against a search by name, the batched sweep against
  the single decision, and run details built from aggregates against those built from the whole checkpoint
  list.
* **Smaller state machines** (`EventAccumulators`, `BoundedRunner`, `DbLease`, `Adaptive`,
  `AdaptiveMeaning`, `AdaptiveController`, `GateMeaning`).

`Basics` and `Ordering` hold shared vocabulary: optional values, decimal numerals, sorting and merging.

Each object is proved against a function of its old state; the lemmas beside it, and in the modules named
for meaning, state outright what that function makes of what goes in. Several promises hold only under a
condition the code does not check. Those are stated with the condition, and with a concrete run that
breaks them without it:

* a fail-fast fan of children or calls that raised a failure before every earlier item had settled can
  raise another one later (`FailFastRuns.FailFastForgets`; exactly when, `FanOutcomes.FirmExactly` for one
  fan and `FailFastRuns.LastingExactly` for a run), and a turn that ends on it can end unlike the direct
  execution (`FailFastRuns.UnfirmEndsUnlike`; exactly when what was seen is vouched for,
  `FailFastRuns.VouchedExactly`);
* the two admission backends answer some sequences differently, although
  redis-admission-backend.ts:227-229 calls their ordering identical: on a concurrency of zero or less
  (`AdmissionDivergence.CapMustBePositive`); under a cap, on calls without an id (`NamelessDiverges`), on
  a waiter whose place has expired (`ExpiredDiverges`) and on giving back a slot nobody holds
  (`UnheldGiveDiverges`); under a cap of two or more, on an id that asks while it holds a slot
  (`HeldIdDiverges`); and under a cap and fairness, on the empty key (`EmptyKeyDiverges`) and on a key
  that changes between retries (`ChangedKeyDiverges`). With one live instance and no rate limit these are
  all (`RulesExactly`);
* calls without a waiter id made in the same millisecond share a slot of the shared keys
  (`FleetSafety.AnonymousCallsShareSlot`);
* another completion's signal row hides a fold that covers the child
  (`BufferedChildSignals.HiddenFoldMissed`; exactly when, `BufferedChildSignals.FanChildKeyed`);
* a key submitted in the form the runner makes for itself can cost a waiting task its place
  (`BoundedRunner.ForgedKeyLosesTask`);
* a worker that outlived its lease can delete a step handed out again under the same id
  (`DbLease.LateDeleteLosesRetry`; exactly when, `DbLease.LostExactly`).

## Model

| member | source | states |
|---|---|---|
| `WorkflowModel.SingleEffect` | clients/python/durable_worker/workflow.py:384-399 | an op that reserves one seq replays what history holds there, parks on its one command when it can only wait, and otherwise records its body |
| `OpMeaning.FailureRaised` | clients/python/durable_worker/workflow.py:392-399 | the recorded failure of a single op is raised with its error, and nothing is recorded or asked for |
| `OpMeaning.ResultReturned` | clients/python/durable_worker/workflow.py:392-399 | an entry of it without an error returns its output, or nothing for a sleep |
| `OpMeaning.BodyRuns` | clients/python/durable_worker/workflow.py:532-615 | a local op without an entry runs its body once, records that outcome under its seq, and goes on with it, a raised error as that failure |
| `OpMeaning.OthersPark` | clients/python/durable_worker/workflow.py:436-459 | any other op without an entry suspends the turn on its one command, a pending signal excepted |
| `OpMeaning.UnexpectedDiverges` | clients/python/durable_worker/workflow.py:420-434 | an entry of another kind or name is the nondeterminism error at that seq, whatever it holds |
| `OpMeaning.UnexpectedItemDiverges` | clients/python/durable_worker/workflow.py:828-828 | so is the first such entry among the items of a fan |
| `OpMeaning.TailEnds` | clients/python/durable_worker/workflow.py:957-1003 | a tail op with a recorded error ends the turn as a failure with that error, one with a recorded output completes it |
| `OpMeaning.GoesOnWith` | clients/python/durable_worker/workflow.py:957-1003 | otherwise the function goes on, from the next seq, with what the entry says |
| `OpMeaning.DivergenceFails` | clients/python/durable_worker/workflow.py:957-1003 | a nondeterminism error nobody catches fails the turn |
| `OpMeaning.SettledByItem` | clients/python/durable_worker/workflow.py:922-947 | in a settled fan the item at each place is rejected, with its id and error, exactly when its entry has an error, and else fulfilled with its output |
| `OpMeaning.OutputsReturned` | clients/python/durable_worker/workflow.py:401-418 | a fan none of whose entries has an error returns their outputs in order |
| `OpMeaning.FailuresRaised` | clients/python/durable_worker/workflow.py:401-418 | one that waits for all and has an entry with an error raises exactly the failed items, in order, each under its name |
| `OpMeaning.FirstFailureRaised` | clients/python/durable_worker/workflow.py:830-833 | a fail-fast fan of children or calls raises its first failed item, however many are missing |
| `OpMeaning.MissingAsked` | clients/python/durable_worker/workflow.py:835-845 | a fan of children or calls that does not end early asks, in order, for exactly the items history has nothing of |
| `OpMeaning.LocalFanRecords` | clients/python/durable_worker/workflow.py:655-742 | a local fan without entries records one outcome per body, in order, under one group |
| `OpMeaning.LocalFanSettles` | clients/python/durable_worker/workflow.py:643-653 | settled, it gives one value per body: rejected exactly when the body raised |
| `OpMeaning.LocalFanFails` | clients/python/durable_worker/workflow.py:638-641 | otherwise it fails exactly when some body raised, and else returns what the bodies gave |
| `WorkflowContext.Context.constructor` | clients/python/durable_worker/workflow.py:330-360 | a turn starts at seq 0 with no commands, over the given history |
| `WorkflowContext.Context.Next` | clients/python/durable_worker/workflow.py:384-390 | every op gets the next seq, and only the counter moves |
| `WorkflowContext.Context.ReplayEntry` | clients/python/durable_worker/workflow.py:420-434 | what history holds at a seq is found exactly when its kind and name agree; anything else there is the nondeterminism error |
| `WorkflowContext.Context.Blocking` | clients/python/durable_worker/workflow.py:451-459 | a call, sleep, signal wait or child start does what the op means: its resolution, or one command and a suspended turn |
| `WorkflowContext.Context.LocalStep` | clients/python/durable_worker/workflow.py:532-615 | a captured body is run only when history has no entry for it, and its output or error is then recorded |
| `WorkflowContext.Context.LocalFan` | clients/python/durable_worker/workflow.py:655-742 | a local fan recorded in full is replayed, one not recorded is run and recorded item by item |
| `WorkflowContext.Context.RemoteFan` | clients/python/durable_worker/workflow.py:818-919 | a fan of children or calls asks for exactly the items history lacks, raises its first failed item when it fails fast, and completes only with every item present |
| `WorkflowContext.Context.Aggregate` | clients/python/durable_worker/workflow.py:401-418 | the outputs in input order, or one error naming every failed item |
| `WorkflowContext.Context.SettleItems` | clients/python/durable_worker/workflow.py:922-947 | failures come back as values in their input positions |
| `WorkflowContext.Context.Fan` | clients/python/durable_worker/workflow.py:617-742 | the three kinds of fan under the three endings do what the op means |
| `WorkflowContext.Context.Invoke` | clients/python/durable_worker/workflow.py:957-1003 | running the function against the object decides what the replay of its tree decides |
| `WorkflowContext.ProcessWorkflowTask` | clients/python/durable_worker/workflow.py:957-1003 | the decision for a task is the replay's, or a failure when no workflow of that name is registered |
| `DurableExecution.DurableExecution` | clients/python/durable_worker/workflow.py:384-459 | however the engine drives a run of firm turns, each resume adding a result asked for at any time: the run is suspended at most as often as the direct execution has seqs to wait at, and the turn that ends it ends it with the direct execution's output or error |
| `DurableExecution.NoFansFirmDrive` | clients/python/durable_worker/workflow.py:830-833 | every turn of a workflow without fail-fast fans of children or calls is firm |
| `DurableExecution.SuspendedCanResume` | clients/python/durable_worker/workflow.py:957-1003 | a suspended turn always waits on a command whose resolution carries the drive on |
| `DurableExecution.TracesExtend` | clients/python/durable_worker/workflow.py:384-434 | what the workflow saw in a firm turn is a prefix of what it sees in every later one |
| `DurableExecution.CommandsAreNew` | clients/python/durable_worker/workflow.py:546-549 | a decision's command seqs strictly increase and none is in the history it replayed |
| `DurableExecution.BodiesRunOnce` | clients/python/durable_worker/workflow.py:546-742 | a local body one turn recorded is commanded by no later turn |
| `DurableExecution.TracePrefix` | clients/python/durable_worker/workflow.py:384-434 | under any history that extends the one a firm turn replayed, fail-fast fans included, the op and outcome trace extends too |
| `DurableExecution.TurnAgrees` | clients/python/durable_worker/workflow.py:957-1003 | a firm turn that ends under a history the world agrees with ends as the direct execution does |
| `DurableExecution.GrowthConforms` | clients/python/durable_worker/workflow.py:420-434 | a history the workflow produced, grown by what a firm turn recorded and by anything asked for so far, never raises the nondeterminism error |
| `DurableExecution.IssuedOpen` | clients/python/durable_worker/workflow.py:789-795 | what was asked for in any earlier turn and has not come is still an item of an op the workflow has reached |
| `DurableExecution.HistoryWithinDirect` | clients/python/durable_worker/workflow.py:384-390 | every history a drive reaches lies within the seqs the direct execution uses, and what had to be waited for within those it waits at |
| `FanOutcomes.FirmExactly` | clients/python/durable_worker/workflow.py:830-833 | once a fail-fast fan of children or calls has raised an item, every turn that replays more history sees it do the same exactly when all earlier items have settled |
| `FanOutcomes.FirmStays` | clients/python/durable_worker/workflow.py:903-906 | a verdict reached with every item, or with every item before a failed one, is the verdict on any entries that complete it |
| `FailFastRuns.LastingExactly` | clients/python/durable_worker/workflow.py:830-833 | what a suspended turn of a run saw is a prefix of what the next turn sees, whatever arrives, exactly when the turn is firm |
| `FailFastRuns.DriveAsked` | clients/python/durable_worker/workflow.py:835-845 | once any item of a fan has arrived, every missing one was asked for in an earlier turn |
| `FailFastRuns.FailFastForgets` | clients/python/durable_worker/workflow.py:830-833 | in a run whose workflow catches a failed fan and sleeps, a late failure of an earlier child replaces the one that was caught |
| `FailFastRuns.VouchedExactly` | clients/python/durable_worker/workflow.py:957-1003 | what a turn saw, suspended or ended, is what every direct execution under its history sees first exactly when the turn is firm |
| `FailFastRuns.TurnVouchedExactly` | clients/python/durable_worker/workflow.py:957-1003 | so it is for the turn after any run of firm turns |
| `FailFastRuns.UnfirmEndsUnlike` | clients/python/durable_worker/workflow.py:830-833 | a workflow that lets out the failure its fan raised for an item ends unlike the direct execution in which a missing item before that one fails otherwise |
| `Queue.QueueController.constructor` | packages/core/src/queue.ts:74-89 | a controller starts idle, with nobody waiting and nothing served |
| `Queue.QueueController.TryToAdmit` | packages/core/src/queue.ts:104-144 | one call leaves the state and gives the verdict of the step the run lemmas are about, for every configuration and hint |
| `Queue.QueueController.Register` | packages/core/src/queue.ts:152-164 | a blocked call keeps the arrival number of its first sight, whatever it is refreshed with |
| `Queue.QueueController.CallerIsNext` | packages/core/src/queue.ts:173-182 | the scan that replaces its best answers yes exactly when no registered waiter is preferred to the caller |
| `Queue.QueueController.Take` | packages/core/src/queue.ts:138-143 | an admission takes a slot and a rate tick, clears the waiter and stamps its key as served last |
| `Queue.QueueController.ReleaseSlot` | packages/core/src/queue.ts:147-149 | a release frees one slot and never goes below none |
| `Queue.BetterTransitive` | packages/core/src/queue.ts:185-193 | the preference is transitive on all waiters, never-registered callers included |
| `QueueProperties.InFlightBounded` | packages/core/src/queue.ts:104-149 | over any run the slots in use stay within the concurrency, and arrival numbers are distinct and already handed out |
| `QueueProperties.BetterTotal` | packages/core/src/queue.ts:185-193 | on registered waiters the preference is irreflexive, and of two exactly one is preferred |
| `QueueProperties.ExactlyOneAdmitted` | packages/core/src/queue.ts:117-143 | with a slot free and the window open, exactly one waiter's retry is admitted |
| `QueueProperties.ArrivalOrderKept` | packages/core/src/queue.ts:152-193 | over any run of equal-priority FIFO calls that carry ids, waiters are admitted in registration order |
| `QueueProperties.BoundedOvertaking` | packages/core/src/queue.ts:117-143 | from any state whose ticks are in order: while a waiter of key k stays in line and none of key k is admitted, every other key is admitted at most once, and then counts as served later than k |
| `QueueProperties.OvertakenAtMostOnce` | packages/core/src/queue.ts:173-199 | the same after any run from the start, and key k itself not at all |
| `QueueProperties.RunCounted` | packages/core/src/queue.ts:108-115 | under a monotone clock the window counter is the number of admissions since the window opened, at most the limit, and so is that of the period before |
| `QueueProperties.RateBounded` | packages/core/src/queue.ts:104-115 | under a monotone clock at most twice the limit is admitted in any half-open interval of one period |
| `QueueProperties.RateBoundTight` | packages/core/src/queue.ts:104-115 | the factor two is reached |
| `QueueProperties.RetryAtReopens` | packages/core/src/queue.ts:108-115 | a call the rate window turns away is told the first moment at which the window no longer stands in the way |
| `QueueMeaning.AdmittedExactly` | packages/core/src/queue.ts:104-199 | a call is admitted exactly when a slot is free, fewer calls than the limit count against the rate, and either nothing orders the queue or nobody who waits goes before it |
| `QueueMeaning.ToldWhen` | packages/core/src/queue.ts:104-144 | a blocked call is told the end of the window when the rate closes it, and the retry interval from now when anything else does |
| `QueueMeaning.CountsAfter` | packages/core/src/queue.ts:138-143 | an admitted call takes one slot and counts in the window, and its key is then the one served last; a blocked one does none of that |
| `QueueMeaning.LineAfter` | packages/core/src/queue.ts:152-164 | who waits after a call: the admitted call no longer, one turned away for the first time under the next number, everyone else as before |
| `RedisAdmission.MetaRoundTrip` | packages/admission-redis/src/redis-admission-backend.ts:72-75 | a waiter's record reads back as the number and key it was written with, even when the key holds bars |
| `RedisAdmission.AdmissionKeys.ReclaimSlots` | packages/admission-redis/src/redis-admission-backend.ts:53-59 | exactly the slots of live owners stay, and their number is what is compared with the cap |
| `RedisAdmission.AdmissionKeys.PruneWaiters` | packages/admission-redis/src/redis-admission-backend.ts:61-65 | waiters whose expiry has come leave all three waiter keys at once |
| `RedisAdmission.AdmissionKeys.Enlist` | packages/admission-redis/src/redis-admission-backend.ts:72-79 | a caller takes a place in line on first sight and refreshes only score and expiry after |
| `RedisAdmission.AdmissionKeys.TopTier` | packages/admission-redis/src/redis-admission-backend.ts:88-90 | the tier read back is exactly the ids with the lowest score |
| `RedisAdmission.AdmissionKeys.SelectBest` | packages/admission-redis/src/redis-admission-backend.ts:91-109 | whatever order the tier is scanned in, the scan finds the one waiter nobody is ahead of |
| `RedisAdmission.AdmissionKeys.Admit` | packages/admission-redis/src/redis-admission-backend.ts:112-118 | an admission takes the caller's slot, clears it from the waiter keys, stamps its key and counts the rate |
| `RedisAdmission.AdmissionKeys.TryAcquire` | packages/admission-redis/src/redis-admission-backend.ts:42-120 | the whole script keeps the waiter keys' invariant and does what the pure acquire does |
| `RedisAdmission.RedisAdmissionBackend.TryToAdmit` | packages/admission-redis/src/redis-admission-backend.ts:219-263 | an instance asks for what its configuration and hints say; a queue nothing was registered for is not gated |
| `RedisAdmission.RedisAdmissionBackend.ReleaseSlot` | packages/admission-redis/src/redis-admission-backend.ts:265-270 | a release removes that slot alone |
| `FleetSafety.Run` | packages/admission-redis/src/redis-admission-backend.ts:50-119 | over any interleaving of instances, releases, heartbeats and lapses, the three waiter keys hold the same ids under distinct arrival numbers |
| `FleetSafety.SlotsCapped` | packages/admission-redis/src/redis-admission-backend.ts:53-84 | the slots never outnumber the configured concurrency |
| `FleetSafety.LiveSlotKept` | packages/admission-redis/src/redis-admission-backend.ts:166-170 | a live owner's slot goes away only by release, however long its step runs |
| `FleetSafety.AdmissionTakesSlot` | packages/admission-redis/src/redis-admission-backend.ts:112-113 | an admission adds a slot exactly when its id held none |
| `FleetSafety.AnonymousCallsShareSlot` | packages/admission-redis/src/redis-admission-backend.ts:242-242 | two calls without a waiter id in one millisecond are both admitted on one slot |
| `FleetSafety.OneRightfulNext` | packages/admission-redis/src/redis-admission-backend.ts:86-110 | a caller that reaches selection always finds a best waiter, and only one |
| `FleetSafety.WindowBounded` | packages/admission-redis/src/redis-admission-backend.ts:67-70 | no window of the fixed grid admits more than the limit across the fleet, and a window's counter outlives the window |
| `FleetSafety.RateExactly` | packages/admission-redis/src/redis-admission-backend.ts:67-70 | after any run a call passes a positive rate limit exactly when fewer calls than the limit were admitted in its window, and is then admitted exactly when it would be without the limit |
| `FleetSafety.RateAlone` | packages/admission-redis/src/redis-admission-backend.ts:67-84 | with neither a cap nor an order, that count alone decides |
| `FleetSafety.NoRate` | packages/admission-redis/src/redis-admission-backend.ts:67-70 | a limit or a period that is not positive closes nothing |
| `AdmissionBisimulation.AskAgrees` | packages/core/src/queue.ts:104-199 | one call gets the same answer from both backends, and their states stay related although their counters differ |
| `AdmissionBisimulation.SameAnswersAlways` | packages/admission-redis/src/redis-admission-backend.ts:227-229 | with one live instance, no rate limit and a cap unset or positive, every sequence of calls and releases that keeps the rules the configuration needs is answered alike; without a cap there are none to keep |
| `AdmissionBisimulation.UncappedAgrees` | packages/admission-redis/src/redis-admission-backend.ts:81-84 | without a cap and a rate limit both admit every call, whatever it says |
| `AdmissionBisimulation.SameChoice` | packages/admission-redis/src/redis-admission-backend.ts:86-110 | being next in line means the same on both sides |
| `AdmissionDivergence.CapMustBePositive` | packages/admission-redis/src/redis-admission-backend.ts:237-237 | without a rate limit, the first call is answered alike exactly when the cap is unset or at least one |
| `AdmissionDivergence.RulesExactly` | packages/admission-redis/src/redis-admission-backend.ts:227-229 | the backends agree on all commands that keep a set of rules exactly when, under a cap, calls carry ids, no place has expired and only held slots are given back; under a cap of two or more also ids that hold a slot do not ask; and under fairness also no key is empty and no waiter changes its key |
| `AdmissionDivergence.NamelessDiverges` | packages/admission-redis/src/redis-admission-backend.ts:242-242 | for every cap, a blocked call without an id goes on waiting on the shared keys and is forgotten in process |
| `AdmissionDivergence.ExpiredDiverges` | packages/admission-redis/src/redis-admission-backend.ts:61-65 | for every cap, a waiter that has expired on the shared keys still keeps its place in process |
| `AdmissionDivergence.UnheldGiveDiverges` | packages/core/src/queue.ts:147-149 | for every cap, giving back a slot nobody holds frees one in process and none on the shared keys |
| `AdmissionDivergence.EmptyKeyDiverges` | packages/admission-redis/src/redis-admission-backend.ts:224-224 | for every fair configuration with a cap, the controller passes over a waiter of the empty key that the script admits |
| `AdmissionDivergence.EmptyKeyUnheard` | packages/admission-redis/src/redis-admission-backend.ts:224-224 | the script treats every sequence as if the empty key were no key |
| `AdmissionDivergence.ChangedKeyDiverges` | packages/core/src/queue.ts:152-164 | for every fair configuration with a cap, the controller admits a waiter under the key it comes back with where the script, which keeps the first one, does not |
| `AdmissionDivergence.LaterKeyUnheard` | packages/admission-redis/src/redis-admission-backend.ts:72-79 | the script's verdict on a waiter does not depend on the key it comes back with |
| `AdmissionDivergence.HeldIdDiverges` | packages/admission-redis/src/redis-admission-backend.ts:112-112 | for every cap of two or more, an id that asks again while it holds its slot fills the controller and not the script |
| `CanonicalJson.SortedJsonPrints` | packages/core/src/buffered-child-signals.ts:31-40 | sorting while printing gives the compact text of the value with every object's keys in order |
| `CanonicalJson.StringText` | packages/core/src/buffered-child-signals.ts:39-39 | a string is its pieces between quotes |
| `CanonicalJson.ShortEscapes` | packages/core/src/buffered-child-signals.ts:39-39 | the seven characters that have an escape of two characters are written with it |
| `CanonicalJson.Numbered` | packages/core/src/buffered-child-signals.ts:39-39 | an unpaired surrogate and any other control character is written as a numbered escape |
| `CanonicalJson.EscapeSpells` | packages/core/src/buffered-child-signals.ts:39-39 | a numbered escape spells its code unit in four lower-case hexadecimal digits |
| `CanonicalJson.PairRaw` | packages/core/src/buffered-child-signals.ts:39-39 | a surrogate pair is written as it is |
| `CanonicalJson.UnitRaw` | packages/core/src/buffered-child-signals.ts:39-39 | every other character is written as it is |
| `CanonicalJson.ArrayText` | packages/core/src/buffered-child-signals.ts:32-32 | an array is its items joined by commas between square brackets |
| `CanonicalJson.ObjectText` | packages/core/src/buffered-child-signals.ts:37-37 | an object is its members joined by commas between braces, each a quoted key, a colon and its value |
| `CanonicalJsonFaithful.PrintReadsBack` | packages/core/src/buffered-child-signals.ts:31-40 | a printed value followed by a delimiter or by nothing reads back in one way only |
| `CanonicalJsonFaithful.EscapedReadsBack` | packages/core/src/buffered-child-signals.ts:37-39 | an escaped string ends at its closing quote and reads back as its code units, lone surrogates included |
| `CanonicalJsonFaithful.CanonKeepsMeaning` | packages/core/src/buffered-child-signals.ts:34-37 | putting keys in order changes nothing a value means, and orders every object in it strictly |
| `CanonicalJsonFaithful.CanonUnique` | packages/core/src/buffered-child-signals.ts:34-37 | a value has only one tree with its keys in order |
| `CanonicalJsonFaithful.CanonicalTextFaithful` | packages/core/src/buffered-child-signals.ts:19-29 | two values have the same canonical text exactly when they are the same JSON value up to key order, a missing one standing for null |
| `FanJoin.PartsExact` | packages/core/src/fan-join.ts:122-133 | the scan from the right finds exactly the one way an id matches the pattern of minted ids |
| `FanJoin.OneLineExactly` | packages/core/src/fan-join.ts:122-122 | a parent is any text of one character or more without a line terminator |
| `FanJoin.AllChildIdInjective` | packages/core/src/fan-join.ts:13-15 | different children never share an id, whatever the run ids look like |
| `FanJoin.ParentOfMinted` | packages/core/src/fan-join.ts:124-133 | the parent read off a fan child, a lone child or an onError run is the run that minted it |
| `FanJoin.FoldNamesItsChildren` | packages/core/src/fan-join.ts:87-96 | the ids read off a fold are those of the children it folded, in order |
| `FanJoin.GroupExact` | packages/core/src/fan-join.ts:49-63 | the scan finds exactly the one way a fan's group is written |
| `FanJoin.GroupRoundTrip` | packages/core/src/fan-join.ts:21-42 | a minted group reads back as its fan's kind, first seq, size and fail-fast mark |
| `FanJoin.MintedWaiterRead` | packages/core/src/fan-join.ts:144-155 | a minted waiter is read as a member of its own fan, or of its own wave |
| `FanJoin.ReadWaiterIsMember` | packages/core/src/fan-join.ts:138-155 | a waiter read as a member has a token and a group that agree on the fan |
| `FanJoin.AllWaves` | packages/core/src/fan-join.ts:108-120 | waves never put more children in flight than the limit and leave at most one place of it idle; a limit that binds but is no positive integer is refused |
| `BufferedChildSignals.SlotOfFanChild` | packages/core/src/buffered-child-signals.ts:63-88 | a fan child's id says where its signal and its fold sit, inverting the printer |
| `BufferedChildSignals.SlotOfLoneChild` | packages/core/src/buffered-child-signals.ts:90-91 | a lone child's id says where its signal sits |
| `BufferedChildSignals.KeyedNeverOverclaims` | packages/core/src/buffered-child-signals.ts:148-231 | whatever the layout, a keyed answer of settled is confirmed by the search by name |
| `BufferedChildSignals.FanChildKeyed` | packages/core/src/buffered-child-signals.ts:168-191 | for a fan child whose rows sit where documented, the keyed answer is the search's exactly when no differing signal row hides a fold that covers the child |
| `BufferedChildSignals.HiddenFoldMissed` | packages/core/src/buffered-child-signals.ts:148-231 | every child of a fan but the first has a history where the rows sit as documented, the search finds the fold and the keyed answer stops at another completion's row |
| `BufferedChildSignals.LoneChildKeyed` | packages/core/src/buffered-child-signals.ts:194-200 | the same for a lone child, with no exception |
| `BufferedChildSignals.KeyedMatchesSearch` | packages/core/src/buffered-child-signals.ts:42-58 | in a history laid out as documented, the keyed reads answer as the search of all checkpoints by name does |
| `BufferedChildSignals.ParentSettles` | packages/core/src/buffered-child-signals.ts:148-231 | however many children are asked about at once, each is answered as if asked about alone, and as the search by name answers |
| `BufferedChildSignals.ChildCompletionNeedsBuffer` | packages/core/src/buffered-child-signals.ts:254-266 | a completion is buffered exactly when its parent is known, still open and has not settled it |
| `SettlingMeaning.CoversExactly` | packages/core/src/buffered-child-signals.ts:94-103 | a fold of any fan or wave, from any index on, covers a child exactly when the child is among the ids read off it |
| `SettlingMeaning.FoldSettlesItsChildren` | packages/core/src/buffered-child-signals.ts:148-231 | in a laid-out history that holds such a completed fold, every child read off it is settled, those of later waves included |
| `SettlingMeaning.FoundExactly` | packages/core/src/buffered-child-signals.ts:221-228 | the search finds a fan child exactly by the completed row of its signal with the same completion, or by a completed fold that names it |
| `SettlingMeaning.LoneFoundExactly` | packages/core/src/buffered-child-signals.ts:221-228 | and a lone child exactly by such a signal row |
| `SettlingMeaning.SettledExactly` | packages/core/src/buffered-child-signals.ts:148-231 | in a laid-out history a fan child is settled exactly by one of those |
| `SettlingMeaning.KeptExactly` | packages/core/src/buffered-child-signals.ts:254-266 | its completion is kept exactly while its parent is there and may go on, and has not settled it |
| `SettlingMeaning.OrphansDropped` | packages/core/src/buffered-child-signals.ts:260-261 | a completion whose id names no parent is not kept |
| `SettlingMeaning.SweptRows` | packages/core/src/buffered-child-signals.ts:291-295 | the row of a child's completion is one the sweep may remove exactly when that completion need not be kept, and a row of another kind never is |
| `BufferedSignalSweep.UnneededChildSignals` | packages/core/src/buffered-child-signals.ts:286-345 | only rows no parent can consume are doomed; within the decided rows whose reads worked all of those are; a page that is not empty gets at least one row decided |
| `BufferedSignalSweep.SweepPass` | packages/core/src/engine.ts:2054-2108 | page after page, even with every deadline already past, a pass ends having removed only rows no parent can consume, and every one of those whose reads worked |
| `RunDetail.SummarizeFan` | packages/core/src/run-detail-summary.ts:87-127 | the loop gives a fan's summary: least and greatest seq, members by effective status, time bounds, label and first twenty failures |
| `RunDetail.SummaryUnique` | packages/core/src/run-detail-summary.ts:9-33 | a fan has only one summary |
| `RunDetailMeaning.CountsMean` | packages/core/src/run-detail-summary.ts:98-102 | a status is listed exactly when a member counts under it, with as many as its members stand for; a failed completion counts as failed and a fold as all it folded |
| `RunDetailMeaning.BoundsMean` | packages/core/src/run-detail-summary.ts:95-110 | the least and greatest seq, the earliest start, or enqueueing of a member not settled, and the latest finish of a settled one |
| `RunDetailMeaning.CaptionMeans` | packages/core/src/run-detail-summary.ts:78-84 | child runs when there are any, else the one name all members share, else steps |
| `RunDetailMeaning.DeclarationMeans` | packages/core/src/run-detail-summary.ts:111-122 | a minted group gives the size declared, how many never started, and whether it fails fast |
| `RunDetailMeaning.NothingDeclared` | packages/core/src/run-detail-summary.ts:111-122 | a group that declares nothing leaves those open |
| `RunDetailMeaning.FailuresMean` | packages/core/src/run-detail-summary.ts:103-103 | the failures shown are the first twenty failed members in seq order |
| `RunDetail.SummarizeTimeline` | packages/core/src/run-detail-summary.ts:134-160 | the rows outside wide fans in order, and one summary per wide fan in seq order |
| `RunDetail.DetailUnique` | packages/core/src/run-detail-summary.ts:129-160 | a run has only one such detail, so any two ways of producing it agree |
| `RunDetailMeaning.MembersMean` | packages/core/src/run-detail-summary.ts:138-144 | the members of a group are the rows of that group, in order |
| `RunDetailMeaning.WideMeans` | packages/core/src/run-detail-summary.ts:147-149 | a fan is summarized exactly when it has members and more than the bound of them, or more declared |
| `RunDetailMeaning.DetailMeans` | packages/core/src/run-detail-summary.ts:153-160 | what is listed alone is exactly what is in no wide fan, in order; each wide fan has its summary, by first seq |
| `RunDetailStore.CheckpointStatsOf` | packages/core/src/run-detail-store.ts:34-76 | one bucket per group, status and kind of name that occurs, each with the exact count, bounds and attempt sum of its rows |
| `RunDetailStore.SumIsCount` | packages/core/src/run-detail-store.ts:258-262 | any count by key is the sum of its buckets' counts, in whatever order the buckets come |
| `RunDetailMeaning.KindsMean` | packages/core/src/interfaces.ts:850-855 | the kinds of name by their prefixes |
| `RunDetailFromStore.QueryReads` | packages/core/src/run-detail-store.ts:79-96 | a query of a list in seq order selects and slices it |
| `RunDetailMeaning.QueryMeans` | packages/core/src/run-detail-store.ts:83-93 | a query selects by group, groups left out, statuses and prefix, each only when it is asked for, in seq order |
| `RunDetailMeaning.SliceMeans` | packages/core/src/run-detail-store.ts:94-95 | an offset skips that many and a limit takes at most that many of the rest |
| `RunDetailFromStore.LabelAgrees` | packages/core/src/run-detail-store.ts:148-156 | the label told from the buckets' least and greatest names is the one told from every member's name |
| `RunDetailViews.FirstFailures` | packages/core/src/run-detail-store.ts:179-186 | the first failures need only as many failed rows, merged with the failed children |
| `RunDetailViews.PartsTally` | packages/core/src/run-detail-store.ts:163-177 | plain buckets, folded rows and completed children add up to every member's count and size |
| `RunDetailViews.ReadChildren` | packages/core/src/run-detail-store.ts:115-130 | the completed children and the failed ones among them are read only when there is a bucket of them, and are then all of them |
| `RunDetailViews.SummarizeFanFromStats` | packages/core/src/run-detail-store.ts:132-204 | the summary made of a fan's buckets and a few reads is the one made of its members |
| `RunDetailPages.SummarizeRunFromStore` | packages/core/src/run-detail-store.ts:234-287 | the detail read through aggregates, in whatever order the store gives them, is the one made of the whole checkpoint list |
| `RunDetailPages.FanPageBounds` | packages/core/src/run-detail-summary.ts:172-182 | a page's limit is always between 1 and 500, and usable numbers in range are taken as they are, rounded down |
| `RunDetailMeaning.BoundsClamped` | packages/core/src/run-detail-summary.ts:172-182 | an offset below zero means zero and a limit out of range the nearest in it; without a finite number they are 0 and 100; else the number rounded down |
| `RunDetailMeaning.PageMeans` | packages/core/src/run-detail-summary.ts:162-169 | a page is a slice of the rows of its group, or of those that failed, and the total is how many there are |
| `RunDetailPages.PageFanFromStore` | packages/core/src/run-detail-store.ts:290-327 | for every offset, limit and failed-only flag the page and total read from the store are those of the whole list |
| `EventAccumulators.SeenEvents.constructor` | packages/core/src/event-accumulators.ts:93-96 | a burst remembers what it was re-armed with |
| `EventAccumulators.SeenEvents.Fresh` | packages/core/src/event-accumulators.ts:98-104 | a signal is new unless it carries an id still remembered, and a new id is remembered last |
| `EventAccumulators.SeenEvents.Rearm` | packages/core/src/event-accumulators.ts:107-111 | a burst re-arms with the newest thousand ids |
| `EventAccumulators.Remembered` | packages/core/src/event-accumulators.ts:89-112 | over any number of bursts, what is remembered is exactly the ids counted since the last re-arm and the newest thousand before it |
| `EventAccumulators.RemembersEnough` | packages/core/src/event-accumulators.ts:62-67 | the ids remembered are the newest counted: all of them, or at least a thousand |
| `EventAccumulators.NeverRecounted` | packages/core/src/event-accumulators.ts:62-67 | an id among the last thousand counted is never counted again |
| `EventAccumulators.CountedAgain` | packages/core/src/event-accumulators.ts:98-111 | a routed event is counted exactly when every earlier count of its id lies more than a thousand ids before the last re-arm |
| `EventAccumulators.NothingLost` | packages/core/src/event-accumulators.ts:158-201 | the batches fired and the open one are the fresh payloads in order, none lost and none twice |
| `EventAccumulators.BareTaken` | packages/core/src/event-accumulators.ts:98-104 | whatever came before, a signal without an id is taken: the batches fired and the open one grow by exactly its payload |
| `EventAccumulators.RoutedTaken` | packages/core/src/event-accumulators.ts:98-111 | a routed one is taken exactly when every earlier count of its id lies more than a thousand ids before the last re-arm, and otherwise changes nothing |
| `EventAccumulators.TimeoutFires` | packages/core/src/event-accumulators.ts:158-201 | a window that elapses fires the open batch as it stands, if there is one |
| `EventAccumulators.BareThenTimeout` | packages/core/src/event-accumulators.ts:158-201 | a burst that gets a signal without an id before a window elapses fires |
| `EventAccumulators.QuietGathers` | packages/core/src/event-accumulators.ts:158-201 | while signals without ids do not make a batch they gather in order, and the timeout fires all of them |
| `EventAccumulators.BatchSizes` | packages/core/src/event-accumulators.ts:186-199 | no batch is empty and none is larger than the size asked for, a size below one meaning one |
| `EventAccumulators.BurstsChain` | packages/core/src/event-accumulators.ts:175-176 | a burst begun from what the last one re-armed with carries the run on where it was |
| `EventAccumulators.Debounce` | packages/core/src/event-accumulators.ts:158-177 | a debounce fires the last fresh payload of its burst once a wait times out, and re-arms as the run does |
| `EventAccumulators.Batch` | packages/core/src/event-accumulators.ts:180-201 | a batch fires all fresh payloads of its burst at its size or when the window has elapsed |
| `Adaptive.ResolveConcurrency` | clients/python/durable_worker/adaptive.py:190-270 | whatever is given, minimum, start and maximum come out in order, and the resume mark, the admit mark and the ceiling too |
| `AdaptiveMeaning.FixedAsGiven` | clients/python/durable_worker/adaptive.py:190-270 | a fixed worker runs as many as it was given, one by default and at least one |
| `AdaptiveMeaning.WordAsGiven` | clients/python/durable_worker/adaptive.py:190-270 | only the word for adaptive is known, and anything else is an error |
| `AdaptiveMeaning.AdaptiveByDefault` | clients/python/durable_worker/adaptive.py:190-270 | the numbers of an adaptive worker without overrides |
| `AdaptiveMeaning.AdaptiveAsGiven` | clients/python/durable_worker/adaptive.py:190-270 | every override is taken as given, within the order the numbers must keep |
| `Adaptive.Isqrt` | clients/python/durable_worker/adaptive.py:916-916 | the integer square root |
| `Adaptive.Gradient` | clients/python/durable_worker/adaptive.py:941-956 | the gradient is never above one and missing exactly when there is nothing to measure |
| `AdaptiveMeaning.MedianRight` | clients/python/durable_worker/adaptive.py:463-471 | the latency measured is the middle of the sorted durations, or the mean of the two in the middle |
| `AdaptiveMeaning.PushbackExactly` | clients/python/durable_worker/adaptive.py:899-901 | errors or stalls push back exactly when more than one sample in five failed or two ticks in a row stalled |
| `AdaptiveMeaning.AllOkNoPushback` | clients/python/durable_worker/adaptive.py:899-901 | a window in which every sample is ok never does |
| `AdaptiveMeaning.MemoryBrake` | clients/python/durable_worker/adaptive.py:883-891 | the memory ceiling gives the whole limit back to the minimum, forgets the room counted and defers |
| `AdaptiveMeaning.OneOff` | clients/python/durable_worker/adaptive.py:892-901 | the processor ceiling, too many failures or too many stalls take one off the limit, down to the minimum |
| `AdaptiveMeaning.NothingNew` | clients/python/durable_worker/adaptive.py:902-902 | without a brake, and with nothing settled since, nothing moves |
| `AdaptiveMeaning.LookAtSamples` | clients/python/durable_worker/adaptive.py:902-918 | otherwise the limit shrinks when the median is well above the baseline, grows when it is close to it with enough load and room, and else stays |
| `AdaptiveMeaning.TickMeans` | clients/python/durable_worker/adaptive.py:833-866 | a tick counts room or none and a stall or none, and then decides |
| `AdaptiveMeaning.SettleMeans` | clients/python/durable_worker/adaptive.py:609-654 | a settled step joins the newest hundred samples, and in slow start a decision that can only grow follows each limit's worth of them |
| `AdaptiveMeaning.HealthyTick` | clients/python/durable_worker/adaptive.py:833-918 | a tick over a window without failures, with no brake and a step settled since the last one, never decides backpressure |
| `AdaptiveMeaning.FailingTick` | clients/python/durable_worker/adaptive.py:833-918 | a tick over one with more than a failure in five and no memory brake takes one off the limit, down to the minimum |
| `AdaptiveMeaning.MovesSeen` | clients/python/durable_worker/adaptive.py:868-932 | the limit moves only where a decision moves it, and up only to grow |
| `Adaptive.LimitBounded` | clients/python/durable_worker/adaptive.py:868-932 | on every run the limit stays between the configured minimum and maximum |
| `Adaptive.HeadroomCounted` | clients/python/durable_worker/adaptive.py:845-854 | the counter is the number of ticks in a row with room, since the last one without and the last memory brake |
| `Adaptive.GrowsOnlyWithRoom` | clients/python/durable_worker/adaptive.py:907-918 | the limit grows only after the configured number of ticks that all had room, with no memory brake since the first of them |
| `Adaptive.RunHalves` | clients/python/durable_worker/adaptive.py:101-111 | anywhere in a run, a stretch that never raises the limit and decides to shrink three times at least halves it, down to the minimum, whatever comes between |
| `Adaptive.RunRecovers` | clients/python/durable_worker/adaptive.py:913-918 | anywhere in a run after a back-off with the limit not below zero, a stretch that never lowers it and decides to grow three times per unit of the maximum's square root ends at the maximum |
| `AdaptiveController.Controller.constructor` | clients/python/durable_worker/adaptive.py:505-574 | a controller starts at the configured limit, with nothing in flight or learned |
| `AdaptiveController.Controller.OnStart` | clients/python/durable_worker/adaptive.py:590-607 | a started task gets a new token, is alone exactly when nothing was in flight, and ends the others being alone |
| `AdaptiveController.Controller.OnSettle` | clients/python/durable_worker/adaptive.py:609-654 | the task under the token, or else the oldest, is retired; a step is measured, teaches its cost only if it ran alone, and may grow the limit in slow start |
| `AdaptiveController.Controller.StepCost` | clients/python/durable_worker/adaptive.py:750-765 | the most a name's own runs have shown, else the most any has, else nothing |
| `AdaptiveController.Controller.TryAdmit` | clients/python/durable_worker/adaptive.py:658-708 | the gate admits by its six rules in order, and latches exactly when it turns a readable request away |
| `GateMeaning.AdmitsExactly` | clients/python/durable_worker/adaptive.py:682-708 | the six rules, with the projection written as bytes against a share of the limit |
| `GateMeaning.PctMeans` | clients/python/durable_worker/adaptive.py:1003-1007 | usage is read as a percentage of the limit, and not at all when either cannot be read or the limit is not positive |
| `GateMeaning.ReservedSums` | clients/python/durable_worker/adaptive.py:702-704 | what is in flight is taken to need the sum of its costs |
| `GateMeaning.CostsItsOwn` | clients/python/durable_worker/adaptive.py:762-764 | a name with samples costs the greatest of them |
| `GateMeaning.CostsTheWorst` | clients/python/durable_worker/adaptive.py:765-765 | one without costs the greatest of any, or nothing when there is none |
| `GateMeaning.CostsNothing` | clients/python/durable_worker/adaptive.py:760-761 | an unnamed task, or any while costs are not tracked, costs nothing |
| `GateMeaning.LearnsExactly` | clients/python/durable_worker/adaptive.py:776-790 | a cost is learned only from a named task that ran alone: the most it was seen to grow, kept with at most the newest four before it |
| `GateMeaning.GrowthSeen` | clients/python/durable_worker/adaptive.py:1012-1018 | a tick raises a lone task to the most its usage has risen since it started |
| `GateMeaning.RetiresRight` | clients/python/durable_worker/adaptive.py:629-632 | the task that settles is the one under the token, or else the oldest |
| `AdaptiveController.Controller.OnTick` | clients/python/durable_worker/adaptive.py:833-866 | a tick counts processor, room and stalls and then decides, as the run's step does |
| `AdaptiveController.Controller.DecideNow` | clients/python/durable_worker/adaptive.py:868-932 | one decision moves the limit as the run's decision does |
| `AdaptiveController.NeverDeadlocked` | clients/python/durable_worker/adaptive.py:665-666 | whatever was in flight and whatever memory looks like, once as many tasks have settled and none has started, the next request is admitted |
| `AdaptiveController.Controller.RequestTask` | clients/python/durable_worker/redis_runner.py:753-756 | a request asks the gate and starts the task exactly when it says yes |
| `AdaptiveController.LoadBounded` | clients/python/durable_worker/adaptive.py:667-668 | over any run, no more tasks are in flight than the greatest limit so far, or one, together with those in flight that did not pass the gate |
| `GateMeaning.UngatedExactly` | clients/python/durable_worker/adaptive.py:609-632 | those that did not pass the gate are those that started without it and have not settled |
| `GateMeaning.PeakReached` | clients/python/durable_worker/adaptive.py:667-668 | the greatest limit is one the run had, and none it had was greater |
| `AdaptiveController.GateMonotone` | clients/python/durable_worker/adaptive.py:674-675 | less memory in use never closes the gate, and having deferred never opens it |
| `DbLease.TaskTables.Claim` | clients/python/durable_worker/db_runner.py:97-113 | a claim leases the oldest claimable tasks of its group, up to the batch size, and changes nothing else |
| `DbLease.ClaimableExactly` | clients/python/durable_worker/db_runner.py:97-104 | a task is claimable exactly when it is of the group, not locked, and unclaimed or claimed longer ago than the lease |
| `DbLease.BatchExactly` | clients/python/durable_worker/db_runner.py:101-104 | a claim takes all claimable tasks when they fit the batch, and else exactly a batch of them, none newer than one it leaves |
| `DbLease.LeaseMeans` | clients/python/durable_worker/db_runner.py:106-113 | a lease stamps its worker and time on the claimed rows and nothing else |
| `DbLease.ResultMeans` | clients/python/durable_worker/db_runner.py:115-116 | the first result of a step is the one that stays |
| `DbLease.TaskTables.Complete` | clients/python/durable_worker/db_runner.py:183-186 | every completed task has a result and is gone, and no earlier result changes |
| `DbLease.TaskTables.Poll` | clients/python/durable_worker/db_runner.py:282-289 | one turn of a worker that does not die completes exactly what it claimed |
| `DbLease.NoStepLost` | clients/python/durable_worker/db_runner.py:174-186 | over any interleaving of workers and crashes, every outstanding step is in the table or has a result, if no step is handed out while a delete of it is still to come and it has no result row |
| `DbLease.NoStepLostOnce` | clients/python/durable_worker/db_runner.py:174-186 | the same, if no id is handed out again once its result was taken |
| `DbLease.LostExactly` | clients/python/durable_worker/db_runner.py:115-119 | a step just handed out can be lost by the next delete exactly when a live worker has still to delete it and no result row is there |
| `DbLease.AtRiskWasTaken` | clients/python/durable_worker/db_runner.py:174-186 | only a step whose result was already taken is ever at such risk, so ids handed out once are always safe |
| `DbLease.LateDeleteLosesRetry` | clients/python/durable_worker/db_runner.py:118-119 | that risk is real: handed out again, a step is deleted by a worker that outlived its lease |
| `DbLease.ResultsFixed` | clients/python/durable_worker/db_runner.py:115-116 | a result row once written never changes while it is there |
| `DbLease.LeaseRespected` | clients/python/durable_worker/db_runner.py:97-104 | between a claim of a task and the next claim of it more than the lease passes |
| `DbLease.StuckTaskReclaimed` | clients/python/durable_worker/db_runner.py:97-113 | a task nobody has, or whose lease has run out, is claimed: whatever else happens to the tables short of finishing it, once its group has been polled within one lease as often as there were tasks and new ones came, some claim took it |
| `DbLease.ClaimRunsOut` | clients/python/durable_worker/db_runner.py:99-100 | a claimed task left alone, its worker having crashed for instance, is in that position exactly from one lease after its claim |
| `DbLease.OldestClaimed` | clients/python/durable_worker/db_runner.py:101-104 | the oldest claimable task is always among those claimed |
| `BoundedRunner.Runner.constructor` | packages/core/src/bounded-runner.ts:10-15 | a runner starts idle |
| `BoundedRunner.Runner.SubmitTask` | packages/core/src/bounded-runner.ts:27-34 | a submitted task starts, waits or is a duplicate, as the run's step says |
| `BoundedRunner.Runner.RunUnderBound` | packages/core/src/bounded-runner.ts:40-52 | a task run under the bound starts or waits under a key of its own |
| `BoundedRunner.Runner.ClearWaiting` | packages/core/src/bounded-runner.ts:55-58 | a clear forgets every waiting task and tells exactly the callers that asked |
| `BoundedRunner.Runner.Settled` | packages/core/src/bounded-runner.ts:60-79 | a settled task's slot goes to the first in line, or is free |
| `BoundedRunner.AlwaysBounded` | packages/core/src/bounded-runner.ts:1-15 | never more tasks than the limit at once, and no one waits while there is a free slot |
| `BoundedRunner.SlotsAreRunning` | packages/core/src/bounded-runner.ts:60-79 | the slots in use are those of the tasks started and not settled: none is kept and none is given twice |
| `BoundedRunner.EveryTaskOnce` | packages/core/src/bounded-runner.ts:17-79 | each accepted task is in exactly one place: started, waiting, dropped by a clear, or displaced |
| `BoundedRunner.ArrivalOrder` | packages/core/src/bounded-runner.ts:69-77 | slots are given out in the order the tasks came |
| `BoundedRunner.LosesExactly` | packages/core/src/bounded-runner.ts:49-50 | a task is displaced exactly when a key like the one `run` makes next is already waiting |
| `BoundedRunner.NothingLost` | packages/core/src/bounded-runner.ts:49-50 | as long as callers keep off those keys no task is ever displaced |
| `BoundedRunner.ForgedKeyLosesTask` | packages/core/src/bounded-runner.ts:50-50 | otherwise a submitted task can be displaced without having run |

## Left out

- `engine.ts`: apart from its buffered-signal sweep, the engine is the environment: it writes what a turn recorded and resolves some of what it waits on.
- Cancellation between ops, live step events, timestamps and threads of `workflow.py`: a local body is an arbitrary outcome captured once.
- Pending signals of `workflow.py`: a drive resolves waits through history, which is all the engine sends; the replaying object reads them, the drive theorems have none.
- Partially recorded local fans: no history a drive reaches holds one.
- Workflows that never end: a program tree is well-founded, so every direct execution is finite.
- A workflow context without a partition: a call that names none then raises; here every context has one.
- DurableExecution.DurableExecution: turns that are not firm are excluded, which only fans of children or calls that fail fast can make so; what is then seen need not last (`FailFastRuns.LastingExactly`) nor be what a direct execution sees (`FailFastRuns.VouchedExactly`).
- Priorities, concurrency and limits are integers: fractions and non-numbers are not modelled in admission.
- Redis itself: sorted-set scores are integers here and not doubles, counters print in full at any size, and publish, subscribe and close are absent.
- FleetSafety.WindowBounded: a rate key lapses by the caller's clock, where Redis goes by its own.
- AdmissionBisimulation.SameAnswersAlways: rate limits are excluded, since one backend opens its window at a call and the other keeps a fixed grid; and one instance is live throughout.
- The pass of `canonicalJson` through `JSON.stringify` and back: a value is modelled as the plain tree that pass leaves, so `toJSON`, dropped members and non-finite numbers are outside it.
- Printing of numbers: a JSON number is represented by the numeral it prints as.
- FanJoin.PartsExact: numbers are unbounded, where the original's lose precision past 2^53.
- BufferedChildSignals.ParentSettles: a fold's start index is an integer, and an output is given with what fold it is rather than parsed for it.
- Batching and retries of `readRunsByIds`: the sweep is given which run rows could not be read and which runs' checkpoints cannot.
- `childIdsOf`, `children` and `childCount` of a run's detail, the query by several name prefixes they need, ETags and the hash behind them.
- Dates are integers, and names compare by code point: only that each is a total order matters.
- Routing into accumulators, their run ids and the waits' durations: a burst is given what its waits return.
- AdaptiveController.LoadBounded: a gate that is switched off admits everything and bounds nothing; workflow turns, and tasks whose wait was aborted or timed out, start without passing it, and those still in flight are added to the bound.
- Memory and processor probes, `await_admission`'s waiting loop, percentiles, snapshots and the apply callback of `adaptive.py`: readings are inputs.
- Adaptive.RunRecovers: a limit below zero, which a caller can configure, is excluded: the original's square root raises on it.
- SQL drivers and the mapping of rows to envelopes; the table owner's side of the task tables beyond enqueuing and taking results.
- Promises and microtasks of `bounded-runner.ts`: a task is given its slot at once and settles at some later event.
- The website, dashboard, command line, code generation, metrics and decorators.
