# A verified model of the T3 Code MCP gateway

The gateway sits between coding agents and a T3 server. It sends commands that
must not run twice, keeps evidence of failures that arrives late and out of
order, reads Git output as a stream, checks tool arguments against schemas, and
pages through its own log. This project models that logic in Dafny and proves
what the code promises about it. `dafny verify dfyconfig.toml` checks all of it.

| modules | what they model |
|---|---|
| `Journal`, `Dispatch`, `DispatchInvariant`, `DispatchTheorems`, `DispatchPayload`, `DispatchOutcomes` | the operation journal and the write-ahead protocol of commands to T3, as steps of callers that interleave at every `await`, a write chain, T3, other clients, and crashes |
| `FailureOrder`, `FailureMerge`, `FailureReasons`, `FailureAttribution`, `FailureChoice`, `FailureRecovery`, `FailureStore`, `FailureAnswers`, `Watermark`, `FailureTurns`, `FailureRestart` | the order on failure evidence across protocol eras, what is retained for a turn, and what a restart remembers |
| `Porcelain`, `PorcelainRefusals`, `StatusStream`, `StatusTheorems`, `PatchCapture` | the streaming reader of `git status --porcelain=v2 -z` and the bounded capture of patches |
| `Arguments`, `ArgumentWords`, `ArgumentsTheorems`, `ArgumentsStability`, `ToolArguments` | the schema-directed argument parser, what it accepts, and when it accepts its own output |
| `NativeRetry`, `OutputQueue`, `SingleFlight`, `ReadClock` | small concurrent protocols |
| `Calendar`, `Timestamps`, `TimestampReading`, `Latency`, `AuditPaging` | date arithmetic, the latency histogram, and paging over a growing log |
| `Options`, `Numbers` | optional values, results, and decimal numbers |

Where the source updates objects in place (the journal, the status accumulator,
the output queue, the pending map, the clocks, the histogram) the model has a
class whose methods are proved against functions on values; the theorems are
about those functions. Runs are sequences of steps, and every theorem about a
run holds for every sequence of enabled steps.

## Assumptions

- Identifiers drawn for a record are fresh. One fresh token stands for the
  operation, command, thread and message ids that one `begin` draws.
- T3 never applies a command it has refused; it may apply any other command it
  was sent, at any time, whether or not the answer arrives. A failed discovery
  before the dispatch counts as a refusal.
- One gateway process uses a data directory, and `init` finishes before any
  other journal call.
- The order of failure evidence is as `failureEvidenceOrder` builds it, or given
  its era by `orderFailureEvidence` at an earlier moment of the same turn, as
  `thread_get` does (src/gateway.ts:1096-1103); and reads of different protocols
  have different admissions, which the clock of `ReadClock` supplies.
  `Watermark.StepMovesBackExactly` assumes neither, and says which single calls
  then do harm.
- The failure of a run is retained under an operation of kind
  `thread.turn.start`, a new operation has no terminal failure, and an operation
  is bound to a turn once (src/gateway.ts:1349-1355 and 1504-1506).
- Byte decoding, regular expressions and JSON parsing are parameters, of which
  nothing is assumed beyond what a theorem's `requires` says.

## Where the code does less than its description

- A task can be shown as `run_accepted` without a message at T3: the stage comes
  from whatever record lies under the key `<task>:turn`, and an approval response
  may lie there (`DispatchTheorems.RunAcceptedWithoutMessage`;
  `RunAcceptedMeansApplied` gives the exact condition).
- `update` has no guard, so an acceptance can be overwritten by a late
  uncertainty (`AcceptedIsNotSticky`). `AcceptanceEndsExactly` names the three
  steps that end one. What always holds is soundness of each status.
- An order that was given its era for one turn can be retained for another: when
  the full read names a newer turn than the shell, `threadDetail` can hand the
  shell's order, annotated for the older turn, to the failure of the newer one
  (src/gateway.ts:2390-2393). Where no protocol transition is retained for that
  turn, its admission can go back (`Watermark.ForeignEraTakesTheAdmissionBack`).
- The comparison of failure orders is cyclic when only some orders of a scope
  carry `updatedAt` or an item (`FailureOrder.MixedUpdatedAtIsCyclic`). It is
  transitive on a class of orders if and only if the scope tells which of the two
  an order carries (`CompareIsTransitiveExactly`); then it is the dictionary
  order of a key.
- A schema constant that the parser itself would rewrite is accepted once and
  then refused, and a default of a native tool is returned unchecked
  (`ArgumentsStability.UntrimmedConstant`, `NativeDefaultIsNotChecked`).
  `ReparsingIsStableExactly` says for every schema without variants, and every
  value, when the parser returns its own output unaltered.
- The three date writers agree only up to the year 9999
  (`Timestamps.ObservedAtAgreesExactly`).
- Two header values of porcelain v2, a branch named `(detached)` and a commit
  named `(initial)`, cannot be told from the markers
  (`StatusTheorems.HeadersAreReadBackExactly`).
- A later read of the log can lose the last event of an earlier one: a line whose
  line end was never written is an event until the next append is glued to it
  (`AuditPaging.UnsteadyLineBreaksGrowth`, `GluedLineIsUnsteady`). Following the
  cursor is not affected: pages neither skip nor repeat, for any content of the
  file (`PagingReadsTheLog`).

## Model

| member | source | states |
|---|---|---|
| DispatchTheorems.DispatchedAtMostOnce | src/gateway.ts:1430-1449 | in every run with crashes, restarts and concurrent callers, no idempotency key is dispatched twice, and every dispatched key is on disk, and in the memory of a running gateway, with the dispatched command's record |
| DispatchTheorems.DispatchIsWriteAhead | src/operations/journal.ts:260-261 | whenever a command is about to be sent its record is on disk and nothing was ever sent under its key; a task's message waits for a create known to be applied |
| DispatchTheorems.TaskDispatchesAtMostTwice | src/gateway.ts:714-773 | a task retried at will sends at most one thread.create and one thread.turn.start, the latter to the thread of an applied create |
| DispatchTheorems.StatusesAreSound | src/gateway.ts:1430-1475 | in memory and in the file an accepted record's command was sent under its key and applied, and a rejected one's was not applied |
| DispatchTheorems.RejectedNeverApplies | src/gateway.ts:1430-1449 | T3 never applies the command of a record once it was marked rejected, however the run goes on |
| DispatchTheorems.InitLeavesNothingPrepared | src/operations/journal.ts:187-203 | init loads the file as it is, but for records left prepared, which become uncertain, and queues a write exactly if there was one |
| DispatchTheorems.RunAcceptedMeansApplied | src/gateway.ts:2021-2033 | in memory and in the file a task at run_accepted has had the command under its run key applied; T3 holds that command's message exactly when the record was begun as a turn start, and when that was on the task's behalf the message went to the thread that the task's own applied create made |
| DispatchTheorems.RunAcceptedWithoutMessage | src/gateway.ts:1938-1994 | a run that ends at run_accepted although no turn start was ever sent |
| DispatchTheorems.StagesAreSound | src/gateway.ts:728-772 | a task at thread_created had a command under its thread key applied, one at dispatch_rejected had one under its run key refused or given up and never applied |
| DispatchTheorems.AcceptedIsNotSticky | src/operations/journal.ts:377-406 | a run in which an accepted record becomes uncertain again |
| DispatchTheorems.AcceptanceEndsExactly | src/gateway.ts:1430-1449 | in every reachable world an accepted record stops being accepted in memory by exactly three steps: the answer to its own dispatch is lost, the guarded write of its acceptance fails, or the gateway stops |
| DispatchTheorems.MemoryIsIndexed | src/operations/journal.ts:382-391 | operation ids are distinct in every reachable memory, so update changes the record it means |
| DispatchPayload.CallsHoldTheirPayload | src/operations/journal.ts:217-247 | in every reachable world a caller past begin, with a new, reused or found record, holds the record of its own key, kind and payload, and memory has that record |
| DispatchPayload.DispatchedPayloadIsTheCallers | src/gateway.ts:1430-1437 | whoever gets past begin under a key that was dispatched asked for the very command that was dispatched: its kind and its payload |
| DispatchPayload.OtherPayloadIsRefused | src/operations/journal.ts:219-225 | a call whose key is in memory with another payload or kind fails and changes nothing; any other call goes on |
| DispatchPayload.OtherTaskIsRefused | src/operations/journal.ts:281-289 | a task key started with another payload is refused and changes nothing; otherwise the task of that payload is gone on with |
| DispatchOutcomes.AnswersAreRecorded | src/gateway.ts:1430-1475 | in every reachable world an answer sets the status of the caller's own record and of no other: accepted, rejected for a refusal or a command given up, uncertain for a lost answer; reconciliation accepts an undecided record it finds and else changes nothing |
| DispatchOutcomes.ReturnShowsTheOutcome | src/gateway.ts:728-772 | when a task's call returns the task is recorded at the stage of its outcome, and an accepted create goes on to the send |
| DispatchOutcomes.SummaryShowsTheOutcome | src/gateway.ts:2021-2033 | a summary records the run's outcome where there is a run, else the create's, else the stage as it was |
| DispatchOutcomes.FailedReadEndsTheCall | src/gateway.ts:774-779 | a call that fails before begin ends, and records its task as rejected for the errors that reject one |
| DispatchOutcomes.AppliedIsFoundExactly | src/gateway.ts:1451-1475 | in every reachable world reconciliation finds the create or message of a record exactly if T3 has applied its command |
| DispatchOutcomes.FinishedWriteIsOnDisk | src/operations/journal.ts:596-614 | a finished write leaves on disk the memory it started from, and its caller goes on from where it waited |
| DispatchOutcomes.TaskRunsThrough | src/gateway.ts:714-773 | for every task and payload there is a run that creates its thread, sends its message there, has both applied, and stores the task as run_accepted |
| DispatchInvariant.ReachableInv | src/gateway.ts:1124-1347 | the invariant behind these theorems holds in every reachable world |
| DispatchInvariant.StepKeepsInv | src/gateway.ts:1371-1475 | every step of a caller, the write chain, T3, another client or the host keeps the invariant |
| DispatchInvariant.BeginKeepsInv | src/operations/journal.ts:217-279 | a begin with a new key gives its caller the only right to send under the new record |
| DispatchInvariant.SendKeepsInv | src/gateway.ts:1430-1437 | sending uses that right up: the key was never sent before and will not be again |
| DispatchInvariant.FailWriteKeepsInv | src/operations/journal.ts:596-614 | a failed write, and the uncertainty recorded when the write of an acceptance fails, keep the invariant |
| Journal.OperationJournal.Init | src/operations/journal.ts:140-203 | loads the file once, turns prepared records uncertain, and asks for a write exactly when there was one |
| Journal.OperationJournal.Load | src/operations/journal.ts:187-199 | init's loop leaves in memory the recovered records of the file, and counts at least one exactly when one was prepared |
| Journal.OperationJournal.BeginOperation | src/operations/journal.ts:217-279 | refuses a known key exactly if its payload or kind is another, else reuses its record, and prepares a record of that payload under a new key, with the whole new state of memory and write queue |
| Journal.OperationJournal.Update | src/operations/journal.ts:377-391 | patches the one record with the operation id and queues a write, or fails and changes nothing |
| Journal.OperationJournal.BeginTaskRecord | src/operations/journal.ts:281-320 | refuses a known task key exactly if its payload is another, else reuses its task, and records a task of that payload under a new key, with the whole new state |
| Journal.OperationJournal.UpdateTask | src/operations/journal.ts:339-351 | patches the one task with the reference and queues a write, or fails and changes nothing |
| Journal.OperationJournal.EndWrite | src/operations/journal.ts:597-613 | a finished write replaces the file by the memory it started from; a failed one leaves the file and frees the chain |
| Journal.Recovered | src/operations/journal.ts:189-199 | recovery keeps every key and leaves no record prepared |
| FailureOrder.CompareRefinesKeyOrder | src/t3/failure-order.ts:13-28 | on orders placed on one timeline with the same optional fields, the comparison has the sign of the dictionary order of (era, sequence, update time, scope, item) |
| FailureOrder.CompareIsTotalPreorder | src/t3/failure-order.ts:13-28 | hence it is sign-antisymmetric, total and transitive there |
| FailureOrder.MixedUpdatedAtIsCyclic | src/t3/failure-order.ts:22-22 | three orders, one without updatedAt, each at or above the next |
| FailureOrder.CompareIsTransitiveExactly | src/t3/failure-order.ts:13-28 | the comparison is transitive on a class of orders if and only if their scope tells which of the optional fields they carry |
| FailureOrder.UnadmittedIsEarliest | src/t3/failure-order.ts:17-20 | an order without an admission is before every admitted one of another protocol |
| FailureOrder.WithEraCases | src/t3/failure-order.ts:3-11 | an observation, plain or annotated at an earlier moment, that is given its era is before the stored order, or of its era, or opens a new era strictly after it; its era never exceeds its admission |
| Watermark.WatermarkNeverMovesBack | src/operations/journal.ts:468-515 | over any run of retain and clear calls on a turn, with plain and annotated orders, the stored order never compares below the one before, era and admission never decrease, and era <= admission |
| Watermark.KeyNeverDecreases | src/operations/journal.ts:562-584 | any later state is at or above any earlier one, not only the next, on (era, sequence, update time, scope) where the scope tells whether there is an update time, and on the root item where it tells that as well |
| Watermark.StepMovesBackExactly | src/operations/journal.ts:469-470 | exactly which single call, with any order it may be given, moves the stored order back: one that is taken and is another protocol's read of the very same instant with an earlier era, or an older read with an era from another turn |
| Watermark.SameInstantTakesTheEraBack | src/t3/failure-order.ts:7-9 | two reads of one instant under different protocols that take the era back |
| Watermark.ForeignEraTakesTheAdmissionBack | src/gateway.ts:2390-2393 | an order annotated for another turn that takes the admission back |
| Watermark.V2Outcome | src/operations/journal.ts:471-515 | for protocol-2 evidence a strictly higher rank decides alone, and at equal ranks the recovery wins |
| Watermark.RunReachesVerdict | src/operations/journal.ts:468-584 | after any protocol-2 run of one era the retained state is the verdict of all facts: their highest rank, recovered exactly when a recovery has it |
| Watermark.ArrivalOrderDoesNotMatter | src/operations/journal.ts:562-584 | two runs with the same facts end at the same rank and the same verdict |
| Watermark.PermutedRunsAgree | src/operations/journal.ts:562-584 | in particular any permutation of the calls does |
| FailureReasons.KnownCategoryIsKept | src/operations/journal.ts:700-723 | a merge ends with an unknown category exactly when both sides had one, protocol-2 items aside |
| FailureReasons.WeakerSourceNeedsACategory | src/operations/journal.ts:705-709 | a weaker source takes over only by knowing a category the stronger one lacked |
| FailureReasons.RepeatedObservationChangesNothing | src/operations/journal.ts:690-723 | merging the same failure twice is merging it once, with either merge |
| FailureReasons.ReasonsAreObserved | src/operations/journal.ts:489-494 | over any run the retained source and message are those of one observation |
| FailureReasons.KnownExactlyIfLearned | src/operations/journal.ts:468-523 | over any run of calls a category is known in the end if and only if it was known at the start or taught by a call, and no call since forgot it |
| FailureReasons.V1ForgetsExactly | src/operations/journal.ts:476-493 | in any protocol-1 run a known category is lost exactly to a recovery that is not older, or to later evidence of the same source that knows none, is new for a session, and is not the same shell failure again |
| FailureReasons.V2ReasonIsAtTheTop | src/operations/journal.ts:474-516 | over any protocol-2 run of evidence that names its run, message and class of the retained failure were observed at the very rank retained, the highest of the run |
| FailureReasons.V2ReasonsAgree | src/operations/journal.ts:474-516 | two such runs with the same facts, and one text at their highest rank, retain that text |
| FailureAttribution.StrongerReasonIsKept | src/operations/journal.ts:700-723 | of two reasons the strictly stronger one is kept, by protocol-2 item, known category and source; it is kept whole, or completed field by field by the other when both are one reason in the same words |
| FailureAttribution.SourcesAreRanked | src/operations/journal.ts:686-688 | turn, session, activity, message and protocol-2 item, from the weakest source to the strongest |
| FailureAttribution.AnswerIsAttributed | src/operations/journal.ts:500-524 | the failure retained and answered names the admitted model and provider where the evidence kept is not of protocol 2, else the run of the observation, of the stored order, of the failure it competes with, or of its reason |
| FailureAttribution.V1RunNamesItsSettings | src/operations/journal.ts:517-524 | over any protocol-1 run under one operation the retained failure names the settings the operation was admitted with |
| FailureAttribution.RunIdentityStays | src/operations/journal.ts:502-516 | once a protocol-2 failure is retained with its run's identity, every later failure of the turn names that run, until a recovery or evidence of another run |
| FailureChoice.ReasonIsChosen | src/operations/journal.ts:472-493 | which reason a retain leaves, told by order, source, scope, identity and words: the retained one, the new one, one with reset times filled in, or their merge |
| FailureChoice.OrderIsChosen | src/operations/journal.ts:499-515 | whose order a retain leaves, with the run that either names and the latest admission of its era that it stands for |
| FailureChoice.IdentityIsChosen | src/operations/journal.ts:494-501 | which failure that order identifies: as the observation does exactly if its order is taken and the reason left is not the retained one |
| FailureRecovery.TombstoneHoldsTheState | src/operations/journal.ts:562-584 | a recovery that is not overtaken leaves a tombstone with its own state and order; an overtaken one leaves everything |
| FailureRecovery.TombstoneKeepsOutExactly | src/operations/journal.ts:470-471 | a tombstone keeps out a failure exactly if it is not strictly later |
| FailureRecovery.RecoveryIsTheLastTaken | src/operations/journal.ts:550-584 | over any run of calls the state told of a recovered turn is that of the last recovery that was not overtaken |
| FailureRecovery.V2RecoveryIsAtTheTop | src/operations/journal.ts:562-584 | over any protocol-2 run it is the state of a recovery of the highest rank |
| FailureTurns.RetainIsOneCall | src/operations/journal.ts:445-548 | a retain is one call on its turn, leaves every other turn alone, and answers what is then retained |
| FailureTurns.ClearIsARun | src/operations/journal.ts:562-584 | a list of recoveries is, for each turn, the run of its own clear calls |
| FailureTurns.JournalRunIsTurnRun | src/operations/journal.ts:445-594 | any run of journal calls about any turns is, for each turn, a run of calls on it |
| FailureTurns.JournalNeverMovesBack | src/operations/journal.ts:445-594 | in any run of journal calls about any turns, era and admission of the order stored for a turn never go back between any two moments, and each call on the turn leaves an order that compares at or above the one before |
| FailureTurns.JournalWatermarkAdvances | src/operations/journal.ts:445-594 | where the scope tells whether there is an update time, the order stored for a turn is at any later moment at or above what it was on era, sequence, update time and scope, and on the root item where the scope tells that too |
| FailureTurns.JournalsConverge | src/operations/journal.ts:445-594 | two journals that saw the same protocol-2 facts about a turn agree on its watermark and on whether it recovered |
| FailureStore.FailureJournal.RetainTerminalFailure | src/operations/journal.ts:445-548 | the retained failure, its order, the operation's record, the answer and whether a write is asked for, in all cases |
| FailureStore.FailureJournal.ClearTerminalFailures | src/operations/journal.ts:562-594 | tombstones, stripped operation records, and whether a write is asked for |
| FailureStore.FailureJournal.FindLegacy | src/operations/journal.ts:464-467 | the failure of the first run operation that records one for the turn |
| FailureStore.FindOperation | src/operations/journal.ts:457-459 | the first operation with the id, or none |
| FailureAnswers.MismatchFailsExactly | src/operations/journal.ts:453-463 | a retain fails exactly if the candidate or the named operation is of another turn, and then it changes nothing |
| FailureAnswers.TakenFailureIsTold | src/operations/journal.ts:445-548 | a failure that is taken is what is told of the turn from then on; one kept out by a recovery changes nothing |
| FailureAnswers.TakenRecoveryIsTold | src/operations/journal.ts:562-584 | a recovery that is not overtaken is what is told of the turn from then on, and no failure |
| FailureAnswers.RecordedFailureIsTold | src/operations/journal.ts:423-432 | where nothing is retained the first run operation that records a failure of the turn answers |
| FailureAnswers.CompetitorIsFound | src/operations/journal.ts:457-472 | a new failure competes with the retained one, else with the named operation's own, else with the first one recorded for the turn |
| FailureAnswers.OperationRecordsTheFailure | src/operations/journal.ts:535-544 | a failure that is taken stands on the named operation, bound to the turn, and on no other |
| FailureAnswers.OperationsForgetTheFailure | src/operations/journal.ts:585-592 | recoveries take the recorded failures of the turns they change off the run operations, and nothing else |
| FailureAnswers.ChangedExactly | src/operations/journal.ts:566-583 | a turn is changed exactly if one of its recoveries is neither overtaken nor the one already recorded |
| FailureAnswers.RetainWritesExactly | src/operations/journal.ts:525-532 | a retain asks for a write exactly if reason, order or operation is not as before |
| FailureAnswers.ClearWritesExactly | src/operations/journal.ts:562-594 | a list of recoveries asks for a write exactly if one of them changes the record of its turn |
| FailureRestart.RestartAnswersTheSame | src/operations/journal.ts:423-432 | with no write outstanding and none lost, a restart answers every question about every turn as before, and recalls its order up to the admission |
| FailureRestart.QueuedWritesGoThrough | src/operations/journal.ts:596-614 | from every reachable journal with queued writes, letting them go through brings the file to memory, whatever was lost before |
| FailureRestart.FailuresLeaveTheFile | src/operations/journal.ts:596-614 | a failed write leaves memory and file; a restart takes the file for memory |
| FailureRestart.OperationsAreRemembered | src/operations/journal.ts:247-262 | a new operation, and the binding of one to its turn, is remembered, asks for a write, and touches no other |
| FailureRestart.RunKeepsInv | src/operations/journal.ts:525-547 | in every run memory is what the last write holds, but for admissions and entries an operation's own failure answers for |
| FailureRestart.ClearedTurnsEffect | src/operations/journal.ts:566-584 | recoveries leave tombstones on the turns they change; every other turn keeps its state but for renewed admissions |
| FailureRestart.QuietRetainMirrors | src/operations/journal.ts:525-532 | a retain that skips its write leaves memory answering as the file does |
| Porcelain.ParsePrinted | rust/src/git/inspection.rs:735-812 | reading the record printed for a well-formed entry yields what the entry says, for every kind of entry |
| Porcelain.SplitJoin | rust/src/git/inspection.rs:770-777 | splitting undoes joining when only the last field may hold spaces |
| Porcelain.ParsePrintedAheadBehind | rust/src/git/inspection.rs:747-758 | printed counts are read back, or read as none beyond 64 bits |
| Porcelain.StripExactly | rust/src/git/inspection.rs:739-760 | a prefix is taken off exactly the records that start with it |
| PorcelainRefusals.RefusedExactly | rust/src/git/inspection.rs:764-778 | a record is refused exactly if it is of none of the known forms, and the error quotes its first 120 characters |
| PorcelainRefusals.FieldsAreRead | rust/src/git/inspection.rs:764-809 | what any record with fields says: path, two letters, submodule state and score, with a dot for a missing letter |
| PorcelainRefusals.CountsAreReadExactly | rust/src/git/inspection.rs:747-758 | counts are read exactly from "+digits -digits", each if it fits 64 bits |
| Porcelain.IndexOf | rust/src/git/inspection.rs:770-770 | the first position of a character |
| StatusStream.StatusAccumulator.Read | rust/src/git/inspection.rs:711-724 | one chunk is read as its bytes would be one by one, including the state at the first error |
| StatusStream.StatusAccumulator.Record | rust/src/git/inspection.rs:735-812 | one record changes the accumulator as specified, with a waiting rename taking it first |
| StatusStream.StatusAccumulator.RecordEntry | rust/src/git/inspection.rs:764-809 | records with fields, or the error about an unrecognized one with nothing changed |
| StatusStream.StatusAccumulator.AddChange | rust/src/git/inspection.rs:726-733 | a change is added to the staged and unstaged lists its two status letters name |
| StatusStream.FeedAppend | rust/src/git/inspection.rs:711-724 | reading two parts in turn is reading them joined |
| StatusStream.ChunkingInvariance | rust/src/git/inspection.rs:711-724 | any way of cutting a stream gives the same state, or the same first error |
| StatusStream.Inspect | rust/src/git/inspection.rs:330-395 | a whole status call depends on the bytes only, and is the outcome of reading them |
| StatusTheorems.BoundedReadingRefinesListing | rust/src/git/inspection.rs:105-116 | for every stream and limit each category is the unlimited list cut to its first items, with the full count; pending is what follows the last NUL |
| StatusTheorems.InspectionSummarizes | rust/src/git/inspection.rs:353-394 | the result of a call: an error, an incomplete end, or totals, omissions and cleanness of the full lists |
| StatusTheorems.PorcelainRoundTrip | rust/src/git/inspection.rs:711-812 | printing well-formed entries in -z form and reading them back gives exactly those entries; original paths may look like records |
| StatusTheorems.HeadersAreReadBackExactly | rust/src/git/inspection.rs:739-744 | a branch name or commit is read back if and only if it is not the marker text |
| StatusTheorems.Cut | rust/src/git/inspection.rs:714-723 | every stream is its finished NUL-free records followed by a NUL-free tail |
| PatchCapture.CapturePatch | rust/src/git/inspection.rs:664-697 | the captured bytes are the first min(maxBytes, total) of the stream, and the counts are exact |
| Arguments.ParseValue | rust/src/mcp/arguments.rs:88-378 | value and issues of the parser as it runs, against its specification |
| Arguments.ParseObject | rust/src/mcp/arguments.rs:197-245 | stripping, unknown keys, defaults and declared properties in order |
| Arguments.ParseArray | rust/src/mcp/arguments.rs:351-373 | item count bounds and items rewritten in place |
| Arguments.CheckBounds | rust/src/mcp/arguments.rs:380-415 | the four bound checks, the exclusive ones for every kind |
| ToolArguments.ParseArguments | rust/src/mcp/arguments.rs:13-41 | all issues, or the object a tool is called with: under each declared key the value sent, tidied, or the default, or nothing, no other key where keys are stripped or refused, and the whole conforms to its schema |
| ArgumentWords.TypesFit | rust/src/mcp/arguments.rs:163-179 | which type names fit which values |
| ArgumentWords.WhitespaceIsEcmas | rust/src/mcp/arguments.rs:425-430 | white space is WhiteSpace and LineTerminator of ECMA-262, character by character |
| ArgumentWords.TextsAreTrimmedExactly | rust/src/mcp/arguments.rs:246-274 | texts are trimmed for the gateway's own tools only, and only under the listed paths |
| ArgumentWords.LengthCountsCodePoints | rust/src/mcp/arguments.rs:297-299 | the length of UTF-16 units, unpaired surrogates included, is the number of code points they encode |
| ArgumentWords.SafeIntegersExactly | rust/src/mcp/arguments.rs:325-327 | integers are the whole numbers from -(2^53 - 1) to 2^53 - 1 |
| ArgumentWords.PathsAreJoined | rust/src/mcp/arguments.rs:232-236 | the path of an issue is its keys and indices joined by dots |
| Arguments.Trim | rust/src/mcp/arguments.rs:273-273 | trimming leaves no outer white space and leaves trimmed text alone |
| ArgumentsTheorems.AcceptedConforms | rust/src/mcp/arguments.rs:88-378 | what is accepted conforms to its schema at every depth, for the gateway and for native tools: types, bounds, patterns, required fields, constants, options, and no undeclared key where keys are stripped or refused; of constants it asks that the parser leaves them, of a native tool's defaults that they conform |
| ArgumentsTheorems.ConformingIsAccepted | rust/src/mcp/arguments.rs:88-378 | conversely every conforming value is accepted, for every use |
| ArgumentsTheorems.AcceptedIsCanonical | rust/src/mcp/arguments.rs:195-377 | an accepted value has nothing left to trim, strip, fill in or respell |
| ArgumentsTheorems.CanonicalIsFixed | rust/src/mcp/arguments.rs:195-377 | the parser leaves a canonical value as it is, with variants too |
| ArgumentsTheorems.ValuesAreOnlyTidied | rust/src/mcp/arguments.rs:195-377 | for every schema and use a given value changes at most in outer white space and the spelling of numbers, in every member and item |
| ArgumentsTheorems.DefaultsAreFilledIn | rust/src/mcp/arguments.rs:221-244 | under each declared key stands the given value tidied, or the default, or nothing |
| ArgumentsTheorems.TrimTakesOnlyWhitespace | rust/src/mcp/arguments.rs:273-273 | trimming takes white space off both ends and nothing else |
| ArgumentsTheorems.BoundsMeaning | rust/src/mcp/arguments.rs:380-415 | no bound issue exactly when the number is within all four limits |
| ArgumentsTheorems.FieldsRead | rust/src/mcp/arguments.rs:221-244 | the built object holds exactly what each property parsed to, and nothing else where keys are stripped |
| ArgumentsStability.UnalteredConforms | rust/src/mcp/arguments.rs:88-378 | what is accepted without a change conforms, whatever the schema and the use |
| ArgumentsStability.AcceptedUnalteredExactly | rust/src/mcp/arguments.rs:88-378 | without variants a value is accepted as it is if and only if it conforms and has nothing left to trim, strip, fill in or respell |
| ArgumentsStability.ReparsingIsStableExactly | rust/src/mcp/arguments.rs:88-378 | without variants the output of an accepted parse is accepted again and comes back unaltered if and only if every constant the given value meets is one the parser leaves, and every default a native tool takes conforms; for the gateway's own schemas it is accepted again at all exactly then |
| ArgumentsStability.OutputConformsExactly | rust/src/mcp/arguments.rs:88-378 | under the same condition, and no other, the value returned conforms to its schema and has nothing left to rewrite |
| ArgumentsStability.NativeDefaultIsStableExactly | rust/src/mcp/arguments.rs:95-98 | a native tool's default comes back unaltered when parsed if and only if it conforms |
| ArgumentsStability.ConstantIsStableExactly | rust/src/mcp/arguments.rs:131-144 | after accepting a schema's constant the parser accepts its own output if and only if the constant is canonical |
| ArgumentsStability.ReparsingIsStable | rust/src/mcp/arguments.rs:88-378 | with variants too: where constants are settled and native defaults conform, the output of an accepted parse is accepted again |
| ArgumentsStability.UntrimmedConstant | rust/src/mcp/arguments.rs:246-275 | a constant with outer spaces is accepted and then refused |
| ArgumentsStability.NativeDefaultIsNotChecked | rust/src/mcp/arguments.rs:95-98 | a default of a native tool can be returned and then refused |
| NativeRetry.CallTool | src/t3/native-mcp.ts:98-163 | at most three attempts; each attempt before the last was one to repeat, the last was not, and the ending is that of the last |
| NativeRetry.DroppedIsUnprocessed | src/t3/native-mcp.ts:363-386 | what drops a connection tells that the tool did not run, and an outcome is unknown exactly when no error tells so |
| NativeRetry.RepeatedExactly | src/t3/native-mcp.ts:142-150 | exactly which attempts are repeated, by their errors: first what cannot have run and was not refused, and for a reading call what may have failed in between; later only a forgotten session, up to three attempts |
| NativeRetry.EndingsTell | src/t3/native-mcp.ts:130-158 | each ending tells exactly what the last attempt met |
| NativeRetry.MutatingCallRunsAtMostOnce | src/t3/native-mcp.ts:130-158 | a mutating call may have run at most once, on its last attempt, and may have run exactly when it ends answered or with an unknown outcome |
| NativeRetry.MutatingCallCount | src/t3/native-mcp.ts:130-160 | rejected, credential and unavailable endings mean the tool ran zero times, an answer once |
| NativeRetry.ReadingCallRunsAtMostTwice | src/t3/native-mcp.ts:145-148 | a reading call runs at most twice, and not between its first and last attempt |
| OutputQueue.BytesAreConserved | rust/src/mcp/output.rs:54-114 | in every interleaving counted plus uncounted bytes are those in the channel or popped, at most 8 MiB, the subtraction never saturates, and the receiver has a prefix of what was accepted |
| OutputQueue.StepKeepsInv | rust/src/mcp/output.rs:54-114 | every step of senders, receiver and drops keeps conservation, order and bounds |
| OutputQueue.RefusedExactly | rust/src/mcp/output.rs:54-69 | in every reachable state of an open queue a frame is accepted exactly if it and the frames not yet received fit into 8 MiB, fewer than 128 wait, and there is a receiver; any other closes and fails the queue |
| OutputQueue.ClosedAcceptsNothing | rust/src/mcp/output.rs:54-73 | a closed queue stays closed and accepts nothing |
| OutputQueue.EndMeansDrained | rust/src/mcp/output.rs:86-104 | a receiver that sees the end has received every accepted frame |
| OutputQueue.FinishedQueueDrains | rust/src/mcp/output.rs:71-73 | after finish without failure reading on reaches the end with every frame |
| OutputQueue.WaitingHasAll | rust/src/mcp/output.rs:86-104 | a receiver that waits has received every accepted frame |
| OutputQueue.WaitingEndsExactly | rust/src/mcp/output.rs:86-104 | every next step ends the wait but a sender counting its frame, and the next poll then gives the frame, the failure or the end |
| OutputQueue.FailureIsReportedOnce | rust/src/mcp/output.rs:86-104 | a failure is reported once, before any frame that is left, and in every run after it nothing more is received |
| OutputQueue.DropsClose | rust/src/mcp/output.rs:107-114 | dropping the receiver closes and fails the queue, dropping the senders closes it |
| OutputQueue.OutputChannel.SendBytes | rust/src/mcp/output.rs:54-69 | accepts exactly a frame that fits while open, else closes and fails the queue |
| OutputQueue.OutputChannel.FinishSending | rust/src/mcp/output.rs:71-73 | closes the queue and leaves its frames, without a failure |
| OutputQueue.OutputChannel.Recv | rust/src/mcp/output.rs:86-104 | a failure before frames, then frames in order with their bytes given back, then the end, and waiting exactly while nothing is there and more may come |
| OutputQueue.OutputChannel.Fail | rust/src/mcp/output.rs:75-78 | closes, then cancels |
| SingleFlight.AtMostOnePreparationRuns | rust/src/git/worktree_manager.rs:125-146 | in every interleaving no two preparations of one path run at the same time |
| SingleFlight.JoinersGetTheCellsAnswer | rust/src/git/worktree_manager.rs:133-138 | a call returns the answer of the cell it joined |
| SingleFlight.CellsLeaveAnswered | rust/src/git/worktree_manager.rs:139-145 | a cell leaves the map only with an answer, answers are final, and calls keep their cell |
| SingleFlight.LeavingTakesTheCell | rust/src/git/worktree_manager.rs:139-145 | in every reachable state a call that leaves takes its own cell out of the map and no other |
| SingleFlight.ReturnedCallsLeaveNothing | rust/src/git/worktree_manager.rs:139-145 | once every call has returned the map is empty |
| SingleFlight.UnguardedLeavingOverlaps | rust/src/git/worktree_manager.rs:140-143 | without the identity comparison two preparations of one path overlap |
| SingleFlight.PendingMap.Enter | rust/src/git/worktree_manager.rs:125-132 | the cell in the map, or a new one that is put there |
| SingleFlight.PendingMap.Leave | rust/src/git/worktree_manager.rs:139-145 | removes the caller's own cell and no other |
| ReadClock.AtomicClock.ReadStartedAt | rust/src/gateway.rs:127-142 | admits at the wall time or right after the value its exchange found, whichever is later, under any interference, until the clock is exhausted |
| ReadClock.SingleThreadedClock.ReadStartedAt | src/gateway.ts:523-526 | each admission is above the last and not behind the clock, and no higher than needed |
| ReadClock.AdmissionsAreDistinct | rust/src/gateway.rs:127-142 | in every interleaving two reads share an admission only when the clock is exhausted |
| ReadClock.LaterReadsAreAdmittedLater | rust/src/gateway.rs:127-142 | a read after an admission is admitted later, until the clock is exhausted |
| ReadClock.ClockStaysNearTheWall | rust/src/gateway.rs:127-142 | in every interleaving the clock is ahead of the greatest wall time by at most the number of admissions |
| ReadClock.AdmissionsDiffer | rust/src/gateway.rs:127-142 | while that sum is below the largest 64-bit value no two reads share an admission |
| ReadClock.UndisturbedReadIsAdmitted | rust/src/gateway.rs:127-142 | a read that nobody comes between is admitted at its wall time or right after the value it finds |
| ReadClock.ExchangeAdvancesExactly | rust/src/gateway.rs:131-140 | an exchange over the value its reader has seen admits it, at its wall time or right after that value, and any other only shows the reader the value |
| Calendar.FromDaysIsRight | rust/src/native_login.rs:337-350 | the date of any day is a valid proleptic Gregorian date, and it is the date of that day |
| Calendar.DatesAreUnique | rust/src/native_login.rs:337-350 | every valid date is the one its day is shown as |
| Calendar.DatesAreOrdered | rust/src/native_login.rs:337-350 | earlier dates have smaller day counts |
| Calendar.YearIsRight | rust/src/native_login.rs:343-346 | the year of an era is the one whose March 1 the day follows by less than a year |
| Calendar.MonthIsRight | rust/src/native_login.rs:347-350 | month and day are those of the day of the year |
| Timestamps.FromMillisIsRight | rust/src/native_login.rs:337-361 | a timestamp is a valid instant and maps back to its count of milliseconds |
| Timestamps.InstantsAreUnique | rust/src/native_login.rs:337-361 | every valid instant is the one its count of milliseconds is shown as |
| Timestamps.YearsHaveSixDigits | rust/src/native_login.rs:333-333 | in the time range of ECMA-262 the years are -271821 to 275760 |
| Timestamps.IntermediatesFit | rust/src/native_login.rs:336-350 | nothing overflows 64 bits on the way |
| Timestamps.DateAndTimestampAgree | rust/src/settings.rs:168-196 | iso_date and iso_timestamp write the same text for the same millisecond |
| Timestamps.ObservedAtAgreesExactly | rust/src/git/mod.rs:721-743 | observed_at agrees with them if and only if the year is at most 9999 |
| Timestamps.TextOrderIsTimeOrder | rust/src/settings.rs:184-195 | from year 0 to 9999 the order of texts is the order of times |
| TimestampReading.TextReadsBack | rust/src/settings.rs:181-196 | every written instant up to year 999999 has the form of ISO 8601 and reads back as itself |
| TimestampReading.IsoDateReadsBack | rust/src/native_login.rs:332-362 | what iso_date writes reads back as the whole milliseconds it was given |
| TimestampReading.IsoTimestampReadsBack | rust/src/settings.rs:168-196 | the same of iso_timestamp |
| TimestampReading.WholeMillisTruncates | rust/src/settings.rs:169-172 | a fraction of a millisecond is cut off toward the epoch |
| Latency.Histogram.AddLatency | src/operations/usage-summary.ts:156-162 | exactly finite durations of at least zero are counted; buckets, sum and extremes stay exact |
| Latency.Histogram.Quantile | src/operations/usage-summary.ts:164-173 | the least bound with enough samples at or below it, or null, for the rank as binary arithmetic rounds it |
| Latency.Histogram.BucketsSumToCount | src/operations/usage-summary.ts:156-162 | the buckets sum to the count |
| Latency.Histogram.BucketOf | src/operations/usage-summary.ts:160-160 | the first bucket whose bound is not exceeded |
| Latency.BoundsIncrease | src/operations/usage-summary.ts:1-12 | the bounds increase strictly, and only the last bucket has none |
| Latency.ExactQuantileIsInBucket | src/operations/usage-summary.ts:164-173 | the exact quantile is at or below the reported bound and above all smaller ones |
| Latency.SortedSampleIsOrderStatistic | src/operations/usage-summary.ts:164-173 | that exact quantile is the sample of its rank in sorted order |
| Latency.RanksAreExact | src/operations/usage-summary.ts:169-169 | in spite of binary rounding the two ranks asked for are half and 19 of 20 of the samples, rounded up, for up to 2^48 samples |
| AuditPaging.Scan | src/operations/audit-log.ts:119-129 | items, total and invalid lines of one scan |
| AuditPaging.Query | src/operations/audit-log.ts:109-143 | a page is the slice of matching events at its cursor, with the next cursor if and only if there is more; for any reader of cursors and any line ends |
| AuditPaging.QueryLooksThrough | src/operations/audit-log.ts:119-129 | a query looks through exactly the events of the file that lie in the time range and carry every value asked for |
| AuditPaging.PagesConcatenate | src/operations/audit-log.ts:135-142 | pages over views that grow but for their last event join without gap or repeat, and are complete once the cursor is null |
| AuditPaging.PagingReadsTheLog | src/operations/audit-log.ts:362-394 | the same for queries at any lengths of a growing file of any content: torn lines, lines glued to them, and lengths within a line or a character |
| AuditPaging.SnapshotsGrow | src/operations/audit-log.ts:362-365 | later snapshots only add events at the end, when every line is steady |
| AuditPaging.UnsteadyLineBreaksGrowth | src/operations/audit-log.ts:380-387 | for any line that is not steady two snapshots exist whose events do not grow |
| AuditPaging.GluedLineIsUnsteady | src/operations/audit-log.ts:99-101 | a torn event with the next append glued to it is such a line |
| AuditPaging.CursorIsRead | src/operations/audit-log.ts:303-310 | no cursor is the start; any other is the offset it reads as, if that is an integer from 0 to 2^53 - 1, and else refused |
| AuditPaging.LinesAreAccountedFor | src/operations/audit-log.ts:379-387 | every line is blank, an event, or counted as invalid, where blank is what trimming leaves nothing of |
| AuditPaging.CursorRoundTrip | src/operations/audit-log.ts:303-310 | the cursor handed out is read back as its offset, by any reader of numbers that reads that decimal |

## Left out

- HTTP, WebSocket, OAuth, stdio and process plumbing: T3 is an environment that applies, refuses or loses an answer.
- SHA-256, UUIDs, base64, JSON text and regular expressions: parameters or fresh values.
- Redaction and failure-text classification: a failure is its source, message, category, class and attribution.
- Audit writes, timestamps, `lastError`, settings receipts and the Git baseline of a task: they do not steer the protocol.
- Legacy operation kinds in the journal and their summaries.
- Record validation while loading: loaded files are assumed to hold valid records.
- The property order and absent-versus-undefined differences of `JSON.stringify` comparisons in `samePersistedFailureOrder` and `retainTerminalFailure`.
- The iteration order of the journal's maps, but for the operations of `FailureStore`, which keep it.
- `src/t3/thread-state.ts`, operation partitioning and result shapes: finite case analysis with easy claims.
- Connection reference counting in `src/t3/native-mcp.ts`: `connect` does not recheck after it has awaited `retire`.
- Arguments.ParseValue: issue texts, their order and repetitions are not modelled, numbers are exact reals beside their spelling, and the conversion of native schemas in `rust/src/mcp/native_input_schema.rs` is not part of this model.
- Arguments.ParseObject: the key order of objects is not modelled; equality of objects does not depend on it.
- StatusStream.Inspect: counts are unbounded, and the identification of the workspace before the call is left out.
- Timestamps.IsoDate: the number is an exact real.
- Durations, and the totals and means of the latency summary, are exact reals.
- How Node decodes a partial character at the end of a read, and `Number` on cursors: parameters.
- Stability of schemas with `anyOf` or `oneOf` beyond `ReparsingIsStable`: an earlier variant may take the output.
- `read_pairing_code_from`, `safe_segment`, `absolute_normalized`, `boundedKey` and pagination of in-memory lists: small helpers with easy claims.
- `src/mcp/server.ts`, contract lists, configuration, setup, doctor and command line: schemas, constants and rendering.
