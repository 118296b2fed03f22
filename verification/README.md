# The autopilot's control loop, modelled and proved

Razvilka's autopilot decides which service is checked next, which candidate
node is tried next, when a route may be applied, and what must be on disk
first, so that a crash never turns into a second blind attempt. This project
models that loop in Dafny and proves what it promises over whole runs.

`dafny verify dfyconfig.toml` checks everything. Nothing here runs the original
program.

| file | what it models |
|---|---|
| `Traversals.dfy` | the persisted work list: preparation, fresh-proof partition, source sort |
| `SearchHistory.dfy` | everything a search does that outlives it, as one history, and what a permitted history guarantees |
| `FirstUsable.dfy` | the search: the library loop, the hooks it drives, both phases, the round around them |
| `RollbackReceipts.dfy` | what a failed application must show before the search may go on |
| `ConsentDocument.dfy`, `ConsentStore.dfy` | the consent document: its validator, and its compare-and-swap save with the one-way latch |
| `RoundSelection.dfy`, `DurableJobs.dfy` | the two schedulers and their bounded waiting |
| `Ranking.dfy` | ranking by smoothed success share |
| `Prefixes.dfy`, `ResourceExclusions.dfy` | the exclusion check over the whole address space |
| `Loans.dfy`, `OneUseReview.dfy`, `ApplyReview.dfy` | loans of a review, one-use reviews, guards whose expected image moves at commit |
| `InstallReceipts.dfy` | crash-safe hand-off receipts of automatic installation |
| `Matchers.dfy`, `Membership.dfy`, `Messages.dfy` | exact comparisons, device membership, message bounding |
| `Basics.dfy`, `Sorting.dfy`, `Histories.dfy` | shared: options, stable sorting and its uniqueness, runs as histories |

## How to read it

A protocol is modelled twice. A **history** is a list of events, and
`Safe` says which event may follow which state. Lemmas about safe histories are
the results: every prefix of a safe history is safe, so they hold wherever a
crash cuts a run. A **class** then holds the fields the original updates in
place; its methods have the original's branches, and every one of them is proved
to add only permitted events. So whatever the outcomes of checks, writes, guards
and applications are, the run of the class is a safe history.

Outcomes that the original takes from outside (a node check, an application, a
guard's observation, whether a write landed or was confirmed) are arbitrary
values: parameters of the steps they decide. `FirstUsable.Turn` holds those of one
turn of the search, `FirstUsable.Outside` those of a round. `FirstUsable.Live` chooses them
arbitrarily and puts rounds, owners' resets, crashes and restarts
together in any order.

## Assumptions

- Identifiers, digests and encoded documents are integers or structures compared
  for equality: hashing and JSON encoding are injective. Node ids have a total
  order. In JSON a byte of a text takes at most six bytes.
- The clock does not run backwards inside one history. Times are integers.
- A file is one cell. A write that fails may or may not have reached it. Comparing
  the file and writing it is one step: other writers take the file's lease.
- A round holds exclusive admission, as the worker does: no enrolment and no
  other save of the document happens inside it. `SearchHistory.dfy` has no other
  writers of the file; `ConsentStore.dfy` has.
- `Traversal` is a value held in a field. The original compares the pointer
  before and after preparation; here preparation says whether it replaced the
  traversal.
- The runs of the job scheduler are those of one process: a restart sets the cursors
  of batched jobs back. A turn is one whose start was admitted to the journal, and
  turns may come at any times: that a bound is reached can mean that nothing was
  selected while the jobs ahead were backing off, as when another task held the
  admission.
- Offered candidate ids are distinct and at most 512, as the catalogue's bound
  gives them; the readiness order is a stable sort by tier.

## What turned out not to hold

The code is modelled as it is. These expectations fail; the input and the exact
condition are proved.

- **A consumed refusal is not always counted.** If the round's context is
  canceled before a cursor write, the hook refuses the write and the count does
  not move, but the closing save of the round has a context of its own and
  writes the advanced cursor. `FirstUsable.RefusalsLostToCancellation` drives a
  process from its start through any number of such rounds: that many refusals
  are consumed in a row and the search does not pause. As long as no save fails,
  a consumption is counted exactly when the context was not canceled as the hook
  was entered, or counting would have changed nothing
  (`FirstUsable.Autopilot.ConsumeAndClose`). A round loses one at most, so the
  refusals in a row are three and those that were lost
  (`SearchHistory.RefusalsInARow`). The count is kept in memory only: a restart
  begins a new run.
- **The validator is closed under every update of an entry, but not its size
  bound.** At 262144 bytes a cursor write from 9 to 10 is refused, and so is the
  halt before an application (`ConsentDocument.WritesAtTheBoundAreRefused`); eight
  services with full traversals exceed the bound whatever else the document holds
  (`ConsentDocument.EightFullTraversalsAreRefused`). A refused save blocks the
  autopilot. `ConsentDocument.RuntimeWriteAcceptedExactly` says exactly when a
  write is accepted. With room for lists of n ids no save with such a list is
  refused, and the room stays (`ConsentDocument.RoomyTraversalIsNeverRefused`);
  with room for 512 that is every save the search makes.
- **A crash can forget an attempted installation.** The one slot holds one
  record. If the process dies after recording an attempt at another version and
  before handing it off, the first version may be handed off again
  (`InstallReceipts.CrashForgetsAnAttempt`,
  `InstallReceipts.ForgottenAttemptIsHandedOffTwice`). While a version that was
  handed off is neither refused nor running, it may be recorded again exactly
  when the record of another attempt was not put back
  (`InstallReceipts.RecordedAgainExactly`).
- **The number of earlier jobs does not bound how often an aged job is passed.**
  A job of several items is put back after each of them with its acceptance time:
  a check of 512 nodes, a node a second, passes a job 512 times
  (`DurableJobs.CatalogueCheckPasses`). The bound is the number of starts the
  earlier jobs have left (`DurableJobs.PassesAreBounded`). It is exact for every
  queue in which they have the time they need (`DurableJobs.PassedAtMostExactly`):
  once for each earlier job if and only if none of them is put back
  (`DurableJobs.OnceForEachExactly`). A busy gate adds a pass every five seconds
  at most, until the earlier jobs expire (`DurableJobs.BusyBoundIsReached`).
- **The owner clears the halt.** Enrolling a service again resets its entry,
  halted or not, and so does asking to remove it. Every theorem about the halt
  names this event.
- **A canceled save inside an application leaves the halt on disk without an
  application.** The closing save writes it; this is the safe side, and the
  model keeps it.

## Model

| member | source | states |
|---|---|---|
| Traversals.PrepareTraversal | internal/app/autonomy_first_usable.go:87-115 | computes the prepared traversal exactly as the specification `Prepared`, and says whether it replaced the stored one; the restart recursion ends after one step |
| Traversals.RefreshedKeepsConsumed | internal/app/autonomy_first_usable.go:93-108 | a kept traversal keeps its consumed prefix, its cursor and its halt; offered pending ids keep their order ahead of the new ones, and every offered id is in the list while there is room |
| Traversals.RefreshedOffersOnlyEligible | internal/app/autonomy_first_usable.go:93-108 | what is left to try was offered now and was never consumed |
| Traversals.RefreshedExhaustedExactly | internal/app/autonomy_first_usable.go:107-108 | it is exhausted if and only if nothing offered is pending and nothing offered can still be added |
| Traversals.PreparedRestartsOnlyWhenDue | internal/app/autonomy_first_usable.go:87-115 | the prepared traversal is acceptable to the validator; it is a new one if and only if the version changed, or it was unhalted, past its set recheck time, and had nothing left |
| Traversals.PrioritizeFreshProofs | internal/app/autonomy_first_usable.go:401-464 | the loop over the pending suffix computes the partition by fresh proof followed by the stable sort by readiness |
| Traversals.FreshFirstKeepsConsumed | internal/app/autonomy_first_usable.go:413-463 | that reordering permutes the pending suffix only, with the proven ids first in their old order |
| Traversals.PrioritizeSources | internal/app/autonomy_source_priority.go:32-60 | sorts the pending suffix stably by preferred source, and its count is exactly the length of the part that has one |
| Traversals.SourceSortKeepsConsumed | internal/app/autonomy_source_priority.go:50-51 | the sort permutes the pending suffix only and orders it by source rank |
| Traversals.SourceSortIsStable | internal/app/autonomy_source_priority.go:50-51 | ids of one rank keep the order that fresh proofs gave them |
| Traversals.ReorderedKeepsConsumed | internal/app/autonomy_first_usable.go:172-173 | both reorderings of a round together keep the consumed prefix and the set of pending ids, and leave them ordered by source when sources are preferred |
| Traversals.PreferredAreConsumedFirst | internal/app/autonomy_source_priority.go:50-59 | no candidate without a preferred source is consumed before every pending one that has one |
| Traversals.SourceRank | internal/app/autonomy_source_priority.go:17-28 | the least position among the preferred sources of an allowed and current origin, or their number when there is none |
| Traversals.ConsumedOnce | internal/app/autonomy_first_usable.go:275-303 | over any number of writes of one traversal an id consumed at one position is never consumed at another |
| Traversals.PermutedSuffixStaysValid | internal/app/autonomy_store.go:68-79 | permuting the pending suffix of a valid traversal gives a valid traversal with the same consumed prefix |
| SearchHistory.SafeIsCoherent | internal/app/autonomy_first_usable.go:161-163 | at every moment: an unresolved application, or a halt found at a start, has the halted traversal on disk; every applied candidate is consumed on disk; local routes are tried only once that is on disk; what is open was observed by the last check; the check budget and the refusal limit hold |
| SearchHistory.HaltedOnDiskAtEveryCrash | internal/app/autonomy_first_usable.go:304-320 | wherever the process is cut off, an application that started and neither succeeded nor was verifiably rolled back has left the halted traversal on disk |
| SearchHistory.HaltedUntilReleased | internal/app/autonomy_first_usable.go:304-335 | an application stays open, with its halt on disk, until it succeeds, an accepted receipt of its own rollback is there, or the owner resets the service |
| SearchHistory.CrashedApplicationWaits | internal/app/autonomy_first_usable.go:161-163 | an application that a crash cut off stays open and halted on disk until the owner resets the service: no success and no receipt is accepted for it any more |
| SearchHistory.ApplicationsNeverOverlap | internal/app/autonomy_first_usable.go:304-335 | between two candidate applications of the search the first succeeded, was rolled back with an accepted receipt of its own candidate and plan, or the owner reset the service |
| SearchHistory.HaltedStopsEveryLaterRound | internal/app/autonomy_first_usable.go:161-163 | once a restart or a round finds a halted traversal, the search starts no later candidate application before the owner enrolls the service anew or asks to remove it, whatever version is asked for |
| SearchHistory.HaltedIsNeverReplaced | internal/app/autonomy_first_usable.go:111-114 | no save ever replaces a halted traversal by a new one, and any other only for another version or after its recheck time |
| SearchHistory.ConsumedPrefixIsFrozen | internal/app/autonomy_first_usable.go:85-115 | across rounds, reorderings, writes, restarts and crashes the consumed prefix on disk only grows until the traversal is replaced |
| SearchHistory.AppliedOncePerTraversal | internal/app/autonomy_first_usable.go:304-320 | one candidate is applied at most once in a traversal |
| SearchHistory.EveryApplicationWasCleared | internal/nodestore/first_usable.go:196-242 | the candidate of every application was checked last in its round, with a pass that no other application has used; its record was read back once it was consumed on disk, and a guard passed after that |
| SearchHistory.NothingWithoutAGuard | internal/nodestore/first_usable.go:154-176 | every check, consumption and application follows a guard that passed since the check, consumption or application before it |
| SearchHistory.ConsumedAsChecked | internal/nodestore/first_usable.go:196-228 | a candidate that is consumed with an observation is the one that was checked last, the observation is what that check found, and its record was read back before |
| SearchHistory.CountIsTheTrailingRun | internal/app/autonomy_service_refusals.go:21-36 | the count is the longest run of service refusals that the outcomes counted since the last pause, new traversal or start end with |
| SearchHistory.ThreeRefusalsEndTheRun | internal/app/autonomy_first_usable.go:289-296 | three refusals in a row are always the last outcome counted before the pause |
| SearchHistory.CountedAreTheOutcomes | internal/app/autonomy_first_usable.go:275-303 | what was counted are exactly the observed consumptions on disk whose write reached the count, in their order |
| SearchHistory.OneUncountedPerRound | internal/app/autonomy_first_usable.go:284-302 | a round leaves at most one consumption on disk uncounted |
| SearchHistory.RefusalsInARow | internal/app/autonomy_first_usable.go:284-302 | the refusals consumed on disk in a row before a pause are at most three and those that were not counted, which are at most one for a round |
| SearchHistory.PauseHolds | internal/app/autonomy_first_usable.go:206-231 | until something is checked or consumed the pause stands and the cursor on disk does not move |
| SearchHistory.NothingMovesDuringThePause | internal/app/autonomy_first_usable.go:219-231 | the first check or consumption after a pause, of that traversal in that process, is not earlier than its end |
| SearchHistory.SearchResumesAtTheSameCursor | internal/app/autonomy_first_usable.go:206-213 | and it takes the candidate right behind the prefix that was consumed when the search paused |
| SearchHistory.LocalRoutesTriedOnce | internal/app/autonomy_first_usable.go:180-193 | local routes are tried at most once in a traversal, after that fact is on disk |
| FirstUsable.CursorWrittenConsumesOne | internal/app/autonomy_first_usable.go:275-283 | a cursor write consumes exactly the candidate at the cursor |
| FirstUsable.PendingIsUntried | internal/app/autonomy_first_usable.go:209-213 | the candidate at the cursor was not applied before in this traversal |
| FirstUsable.Autopilot.Boot | internal/app/autonomy_store.go:121-160 | a process that starts over whatever a crash left satisfies the invariant |
| FirstUsable.Autopilot.PersistLocked | internal/app/autonomy_store.go:161-190 | a save is refused once blocked; a confirmed one leaves the entry on disk; any failure blocks, although the bytes may have landed |
| FirstUsable.Autopilot.PersistSearch | internal/app/autonomy_first_usable.go:119-133 | a confirmed save has the traversal of the round on disk; a canceled context touches nothing and does not block |
| FirstUsable.Autopilot.Guard | internal/app/autonomy_first_usable.go:138-157 | passes if and only if it is not canceled, nothing changed, the process is not blocked, the document is readable and no pause is on; only then is it noted |
| FirstUsable.Autopilot.Check | internal/app/autonomy_first_usable.go:232-274 | one check of the budget is spent, behind a guard; usable exactly for a pass; only a pass, a refusal or a definite failure is an observation, and only a refusal by the service is one |
| FirstUsable.Autopilot.VerifyRecord | internal/nodestore/first_usable.go:343-372 | the exact record of the last check is read back, or the search stops |
| FirstUsable.Autopilot.PersistCursor | internal/app/autonomy_first_usable.go:275-303 | the linear cursor moves by exactly one inside the window, whatever the ring says; the refusal count moves only with a confirmed write, and the third refusal starts the pause |
| FirstUsable.Autopilot.Apply | internal/app/autonomy_first_usable.go:304-320 | an application starts if and only if a switch is affordable and the halt is confirmed on disk, only on the candidate consumed last, with its own passing check; it succeeds exactly when it commits and its record is saved, and fails exactly when it does not commit |
| FirstUsable.Autopilot.Commit | internal/app/autonomy_first_usable.go:319 | an application fails exactly when it does not commit, and stays unresolved; it counts as successful only once its record is saved |
| FirstUsable.Autopilot.ContinueAfterRollback | internal/app/autonomy_first_usable.go:321-335 | the halt is lifted if and only if the application failed, nothing changed around the round and its receipt is accepted; otherwise nothing changes and the halt stays; the search goes on only over a confirmed save |
| RollbackReceipts.Examine | internal/app/autonomy_reserves.go:41-95 | a receipt is accepted if and only if the failure is definite, everything was rolled back and verified under the same plan, digest and network, only the health check of the candidate engine failed, the dataplane still reports that execution, and a reviewed route of the plan resolves to the candidate and is named by the cause |
| FirstUsable.Autopilot.ApplyConsumed | internal/nodestore/first_usable.go:243-268 | reported as done exactly when the application committed; going on without success means that it did not and that its receipt was accepted; without anything in the way each outcome is determined |
| FirstUsable.Autopilot.Advance | internal/nodestore/first_usable.go:163-172 | without an error the cursor has moved by one between two guards; with nothing in the way it moves, and only the third refusal in a row stops the search |
| FirstUsable.Autopilot.Consume | internal/nodestore/first_usable.go:174-228 | the candidate at the cursor is skipped, or checked once and consumed; without an error it is usable if and only if it was checked and passed, and it was never applied; with nothing in the way the outcome is determined by what the check found |
| FirstUsable.Autopilot.Examine | internal/nodestore/first_usable.go:173-268 | without an error the candidate of the turn is applied if and only if it was checked and passed, and reported if and only if that application committed; a turn with nothing in the way does apply a passing candidate |
| FirstUsable.Autopilot.SearchFirstUsable | internal/nodestore/first_usable.go:138-271 | the loop refuses a limit outside 1 to 4 and a first guard that does not pass; it stays in its window and its budget; without an error and without an application it has passed the whole window or spent the whole budget, right behind a guard; what it reports is the candidate consumed last, and its application succeeded in this round |
| FirstUsable.Autopilot.SaveRuntime | internal/app/autonomy_store.go:196-207 | the closing save keeps the invariant whatever its outcome |
| FirstUsable.Autopilot.StandardRoutes | internal/app/autonomy_first_usable.go:180-193 | local routes get their turn if and only if they are allowed, have not had it in this traversal, and that fact is confirmed on disk |
| FirstUsable.Autopilot.LoadRefusals | internal/app/autonomy_first_usable.go:166-171 | the round starts with the stored count of the same traversal, or with none for a new one |
| FirstUsable.Autopilot.BeginRound | internal/app/autonomy_first_usable.go:158-163 | a halted entry refuses the round before anything else happens |
| FirstUsable.Autopilot.PrepareSearch | internal/app/autonomy_first_usable.go:164-171 | preparation of an unhalted entry yields a traversal of the asked version; kept, it continues the stored one |
| FirstUsable.Autopilot.ReorderByProof | internal/app/autonomy_first_usable.go:172-173 | the fresh-proof partition keeps the invariant of the round |
| FirstUsable.Autopilot.ReorderBySource | internal/app/autonomy_first_usable.go:173-176 | the source sort keeps the invariant of the round |
| FirstUsable.Autopilot.Reorder | internal/app/autonomy_first_usable.go:172-176 | the round sorts by fresh proof and then by source; unreadable sources refuse it |
| FirstUsable.Autopilot.SearchNext | internal/app/autonomy_first_usable.go:337-348 | one bounded search: the cursor stays in the presented window and the checks are taken from the common budget |
| FirstUsable.Autopilot.RunPhases | internal/app/autonomy_first_usable.go:349-362 | both phases together stay in one check budget, and without an outcome they spend it or exhaust the list; local routes and the second phase come only after the whole preferred prefix, and then allowed local routes do get their turn |
| FirstUsable.Autopilot.SearchPrepared | internal/app/autonomy_first_usable.go:194-213 | a pausing traversal is not searched, and that is the only way to report a pause; success is reported if and only if an application succeeded in this round |
| FirstUsable.Autopilot.AwaitRecheck | internal/app/autonomy_first_usable.go:194-205 | an exhausted traversal gets a recheck time exactly if it has none and sources are preferred, and local routes their turn; what the round reports is determined by the two saves |
| FirstUsable.Autopilot.RunFirstUsable | internal/app/autonomy_first_usable.go:135-396 | the search of one round: over a halted entry nothing is recorded but the start of the round; the budget holds, and a round that ends still searching has spent it or exhausted the list; success is reported if and only if an application of this round succeeded; what it hands back may be saved |
| FirstUsable.Autopilot.ConsumeAndClose | internal/app/autonomy_first_usable.go:284-302 | a cursor write and the closing save: as long as no save fails the candidate is consumed on disk, and it is counted if and only if the context was not canceled as the hook was entered, or counting would not have changed the count |
| FirstUsable.Autopilot.LoseOneRefusal | internal/app/autonomy_first_usable.go:297-301 | a round of the process, step by step, whose canceled context consumes a refusal without counting it |
| FirstUsable.RefusalsLostToCancellation | internal/app/autonomy_first_usable.go:297-301 | from the start of a process n such rounds consume n refusals in a row, count none and do not pause |
| FirstUsable.Live | internal/app/autonomy_worker.go:41-162 | any rounds, resets of the owner, and crashes after any event with new processes, in any order, make a permitted history |
| FirstUsable.Autopilot.Reset | internal/app/autonomy_services.go:85-87 | the owner enrolling the service anew, or asking to remove it, clears its entry |
| FirstUsable.Autopilot.SaveInPlace | internal/app/autonomy_first_usable.go:119-133 | a save that does not move the cursor keeps the invariant, or is refused by a canceled context |
| FirstUsable.Autopilot.Round | internal/app/autonomy_worker.go:148-158 | a whole round saves the entry first, extends the history by permitted steps only and leaves the invariant |
| FirstUsable.RingNext | internal/nodestore/first_usable.go:178 | the ring position after i is i + 1, and 0 exactly at the end of the window |
| ConsentDocument.UpdatesKeepRuntimeValid | internal/app/autonomy_store.go:67-99 | every update the search makes to an entry (traversal, reserves, switch budget, candidate failure) is again accepted |
| ConsentDocument.OneFailurePerNode | internal/autonomy/candidate_failures.go:47-52 | after a refusal is recorded, the only record of its node is the new one |
| ConsentDocument.RefusalsKept | internal/autonomy/candidate_failures.go:32-52 | the new refusal is kept last; of the others only those of other nodes that are still in force for the same network, definition and scope, and all of them while there is room |
| ConsentDocument.SwitchesAreFew | internal/autonomy/decision.go:82-95 | a switch is granted if and only if fewer than the limit were spent in the last hour; exactly those are kept, and it is the last of them |
| ConsentDocument.ReservesKept | internal/app/autonomy_first_usable.go:305-308 | an application leaves all reserves but the current node, and adds its candidate while there is room |
| ConsentDocument.EntryAcceptedExactly | internal/app/autonomy_store.go:67-99 | an entry is accepted if and only if its traversal, its lists, its counters and its texts are within their bounds and its refusals are definite and in force for five minutes at most |
| ConsentDocument.TraversalWriteAcceptedExactly | internal/app/autonomy_store.go:52-116 | writing a valid traversal into an accepted document is accepted if and only if the growth of its JSON (list, cursor digits, flags, recheck time) fits |
| ConsentDocument.RuntimeWriteAcceptedExactly | internal/app/autonomy_store.go:171-176 | the same for a whole entry, with its texts, times, reserves, switches and failures |
| ConsentDocument.TraversalBytesRange | internal/autonomy/traversal.go:8-16 | between its emptiest and its fullest scalars the JSON of a traversal grows by 61 bytes at most |
| ConsentDocument.StampLengths | internal/autonomy/decision.go:10-26 | how long a time is in JSON: whole seconds, a half and a nanosecond, with and without an offset (section 5.6 of RFC 3339) |
| ConsentDocument.RuntimeIsAtMost | internal/autonomy/decision.go:10-26 | an accepted entry is never longer than the bound for lists of n ids and for what the search does not rewrite |
| ConsentDocument.RoomySavesAreAccepted | internal/app/autonomy_store.go:171-176 | in a document with room for lists of n ids no save of the search with such a list is refused for its length, preparations among them, and the document keeps that room |
| ConsentDocument.RoomyTraversalIsNeverRefused | internal/app/autonomy_store.go:171-176 | so none of any number of saves is refused, over any number of traversals |
| ConsentDocument.SlackIsRoom | internal/app/autonomy_store.go:54-56 | a stated number of free bytes, and what the list may still grow, give that room |
| ConsentDocument.TraversalSlack | internal/app/autonomy_store.go:54-56 | with 61 free bytes no write of a traversal that is no longer is refused |
| ConsentDocument.WritesAtTheBoundAreRefused | internal/app/autonomy_store.go:54-56 | a document of eight services is at the bound; there a cursor write from 9 to 10 is refused, and so is the halt before an application |
| ConsentDocument.StartKeepsTheSearch | internal/app/autonomy_store.go:149-158 | a start keeps traversals, reserves, switches and failure records of loaded entries, and resets their check time, failure counts and state |
| ConsentDocument.FullDocumentIsWellFormed | internal/app/autonomy_store.go:57-105 | a document of such services exists |
| ConsentDocument.EightFullTraversalsAreRefused | internal/app/autonomy_store.go:54-56 | eight services with full fresh traversals make a document that passes every other check and is refused for its size |
| ConsentDocument.AllBytesUpdate | internal/app/autonomy_store.go:171-176 | the encoded length changes exactly by the entry that is replaced |
| ConsentStore.State.constructor | internal/app/autonomy_store.go:121-148 | a process starts over whatever is in the file, with nothing loaded |
| ConsentStore.State.Load | internal/app/autonomy_store.go:121-160 | succeeds if and only if what is loaded is not blocked, or the file is readable and absent or holds an acceptable document; that document, its observations reset, is loaded; undecodable bytes block |
| ConsentStore.State.Persist | internal/app/autonomy_store.go:161-190 | succeeds if and only if it is not blocked, the document is acceptable, the disk still holds the image last read or written, and the write is confirmed; the file changes exactly when such a write lands; every failure blocks |
| ConsentStore.State.DiskCurrent | internal/app/autonomy_store.go:211-223 | true if and only if the file is readable and is the known image; otherwise the process is blocked |
| ConsentStore.StateIsSound | internal/app/autonomy_store.go:161-223 | whatever its methods are called with, the process is blocked exactly when its history has latched, and its history is a permitted one |
| ConsentStore.NoWriteAfterLatch | internal/app/autonomy_store.go:161-170 | after a failed save or comparison the same process never writes again |
| ConsentStore.NoForeignWriteIsLost | internal/restorejournal/file_target.go:141-169 | bytes of another writer that takes the lease are overwritten only by a process that knows exactly those bytes |
| ConsentStore.OwnBytesDecode | internal/app/autonomy_store.go:171-184 | without other writers a file that was absent or acceptable stays so, wherever a crash cuts a process off |
| RoundSelection.FirstAutonomySearchDue | internal/app/autonomy_round_selection.go:40-61 | agrees with the definition of a search that may go on: unhalted, unexhausted, past its recheck time, with a pending candidate that is not cooling down |
| RoundSelection.SomeReadyMeans | internal/app/autonomy_round_selection.go:47-59 | some pending candidate is not cooling down |
| RoundSelection.SelectRound | internal/app/autonomy_round_selection.go:16-38 | none if and only if nothing is due; otherwise the least first search in a slot that may take one, or the least of all that are due |
| RoundSelection.AheadIsTotal | internal/app/autonomy_round_selection.go:16-38 | of two services exactly one stands ahead, the one with the earlier check time |
| RoundSelection.Worker.AutonomyRound | internal/app/autonomy_worker.go:110-158 | a non-empty round stores the outcome of the serviced entry, with its own check time if that is in the future and the configured interval otherwise, leaves every other entry as it is, and sets the alternation flag to the kind of the slot |
| RoundSelection.RoundNeverMovesOthersAhead | internal/app/autonomy_worker.go:148-158 | after a round no service stands before a due one that did not before, and an ordinary slot removes one that did |
| RoundSelection.BoundedWaiting | internal/app/autonomy_round_selection.go:16-38 | a due service with k services before it is selected within 2(k + 1) non-empty rounds, one less after a first-search slot, however many first searches wait |
| RoundSelection.FirstSearchesNeverTakeTwoSlots | internal/app/autonomy_round_selection.go:16-38 | of two slots in a row at most one goes to a first search, and the one after it goes to the least of all that are due |
| Ranking.MoreComparesShares | internal/app/autonomy_ranking.go:57-73 | the integer comparison is the comparison of the shares (p+1)/(p+f+2) as real numbers, with passes and latency deciding between equal ones |
| Ranking.MoreIsStrictWeak | internal/app/autonomy_ranking.go:59-73 | the comparison is asymmetric and negatively transitive |
| Ranking.NodeStability | internal/app/autonomy_ranking.go:25-55 | counts every service pass and every attributed failure in scope exactly once |
| Ranking.OneMoreCheck | internal/app/autonomy_ranking.go:29-55 | one more check adds nothing unless it is of the service on the network by sing-box, of the last day, and the first of its probe; then it adds one pass or one attributed failure |
| Ranking.RankingIsTotal | internal/app/autonomy_ranking.go:111-124 | the sort comparator is a strict total order on distinct ids |
| Ranking.RankIsTheSortedPermutation | internal/app/autonomy_ranking.go:110-125 | the ranked list is the only sorted arrangement of its ids, whatever order they came in |
| Ranking.KeptNodeIsFirst | internal/app/autonomy_ranking.go:111-116 | a current node that is kept always comes first |
| Ranking.RankFollowsStability | internal/app/autonomy_ranking.go:117-122 | no more stable node stands behind a less stable one, the kept one apart, and of two equally stable ones the lower id comes first |
| Ranking.RankAutonomyNodes | internal/app/autonomy_ranking.go:79-126 | fills the scores from the histories and latencies and returns that arrangement |
| Ranking.TotalSources | internal/app/autonomy_ranking.go:137-157 | the record of each source is the sum over the nodes that come from it, each node once |
| Ranking.BestRecords | internal/app/autonomy_ranking.go:156-166 | every node has the best record among its sources, summed over all nodes |
| Ranking.BestSource | internal/app/autonomy_ranking.go:158-166 | a record of one of the sources, and none of them is better |
| Ranking.CandidateOrderIsTotal | internal/app/autonomy_ranking.go:169-177 | the candidate comparator is a strict total order |
| Ranking.CandidatesFollowTheirSources | internal/app/autonomy_ranking.go:168-178 | no candidate stands behind one with a worse best source; among equal ones no unchecked candidate stands behind a checked one; among those the lower id comes first |
| Ranking.OrderAutonomyCandidates | internal/app/autonomy_ranking.go:132-179 | fills the totals of the sources and returns the candidates in that order: by the best record among their sources, the unchecked first, then by id |
| Ranking.CandidateOrderForgetsInput | internal/app/autonomy_ranking.go:168-178 | the candidate order depends on the set of ids alone |
| Prefixes.OverlapExactly | internal/app/autonomy_resource_exclusions.go:202-206 | two prefixes overlap if and only if some address lies in the ranges of both (section 3.1 of RFC 4632), and the address of the longer one does |
| Prefixes.ContainsExactly | internal/app/autonomy_resource_exclusions.go:191-206 | a prefix contains exactly the addresses of its family with the same quotient by the power of two its length leaves; when it is masked, exactly that many from its own address on |
| Prefixes.ValidAddressExactly | internal/app/autonomy_resource_exclusions.go:164-168 | an IPv4 address has 32 bits and an IPv6 address 128 |
| Prefixes.LowBitsClearExactly | internal/app/autonomy_resource_exclusions.go:191-194 | a prefix is masked if and only if its address is a multiple of that power |
| Prefixes.HostHoldsOneAddress | internal/app/autonomy_resource_exclusions.go:164-168 | the prefix of one address holds exactly that address |
| ResourceExclusions.Matches | internal/config/resource_exclusions.go:374-419 | free if and only if the set and the target are well formed, no list and no excluded top-level domain means the target, and no rule means it for its device, for all devices, or for an unknown one |
| ResourceExclusions.HitsExactly | internal/config/resource_exclusions.go:356-372 | a match hits exactly what it means: the service, the name, the name or one below it, the address, or an address in the range of the prefix |
| ResourceExclusions.PlainV4Exactly | internal/config/resource_exclusions.go:350-352 | the IPv4 ranges a target may not name |
| ResourceExclusions.PlainV6Exactly | internal/config/resource_exclusions.go:350-352 | the IPv6 ranges a target may not name |
| ResourceExclusions.Check | internal/app/autonomy_resource_exclusions.go:105-125 | passes if and only if the target is free for every device of the round |
| ResourceExclusions.DevicesAllowed | internal/app/autonomy_resource_exclusions.go:80-92 | the observed devices are all selected, none excluded, within the bound; without a selection there are none |
| ResourceExclusions.ClientsAllowed | internal/app/autonomy_resource_exclusions.go:94-105 | passes if and only if no address is in the range of a client source and of an excluded client prefix |
| ResourceExclusions.NegativePrefixes | internal/app/autonomy_resource_exclusions.go:157-190 | collects exactly the address negatives that apply to some device of the round |
| ResourceExclusions.CidrsAllowed | internal/app/autonomy_resource_exclusions.go:191-207 | passes if and only if every prefix is masked, its base address is free, and no address is in its range and in that of an applicable negative |
| ResourceExclusions.NamesAllowed | internal/app/autonomy_resource_exclusions.go:129-133 | passes if and only if every name of the service is free |
| ResourceExclusions.EndpointsAllowed | internal/app/autonomy_resource_exclusions.go:134-156 | passes if and only if every endpoint is well formed and free |
| ResourceExclusions.NoAddressIsExcluded | internal/app/autonomy_resource_exclusions.go:157-207 | no address in the range of an accepted prefix is meant by a negative, for any device of the round |
| ResourceExclusions.CidrFreeExactly | internal/app/autonomy_resource_exclusions.go:157-207 | behind a free service a prefix passes if and only if it is masked, its base may be named, and no address in its range is meant by a negative for any device of the round |
| ResourceExclusions.Eligible | internal/app/autonomy_resource_exclusions.go:64-209 | accepts if and only if the service is open and bounded and nothing of it, of its clients or of the devices is excluded |
| ResourceExclusions.AcceptedServiceIsOutsideEveryExclusion | internal/app/autonomy_resource_exclusions.go:157-207 | so no address in the range of any prefix of an accepted service is excluded |
| ResourceExclusions.AcceptedTargetsAreOutsideEveryExclusion | internal/app/autonomy_resource_exclusions.go:129-156 | nor any of its names or endpoints, by name, zone, top-level domain or address |
| ResourceExclusions.AcceptedClientsAreOutsideEveryExclusion | internal/app/autonomy_resource_exclusions.go:94-105 | and no address in the range of its client sources is in the range of an excluded client prefix |
| OneUseReview.CommittedExactly | internal/app/default_route_executor.go:368-380 | the check accepts if and only if the image is the sanctioned one of some moment within the commit |
| OneUseReview.CommitImageExists | internal/config/network_policy_commit.go:55-80 | there is a sanctioned image if and only if the settings run, a revision is left, their policy is the reviewed one but for an automatic default route, and the services are well formed |
| OneUseReview.CommittedKeepsTheRest | internal/config/network_policy_commit.go:55-104 | a sanctioned commit changes the applied part, the revision, and the automation of exactly the services whose applied state changed, which ends under the new route; what each of them becomes is stated in full; a current consent stays current, and no other becomes so |
| OneUseReview.EnteredAtMostOnce | internal/app/default_route_executor.go:298-366 | over every interleaving of calls the application is entered at most once |
| OneUseReview.ClaimedAtMostOnce | internal/app/default_route_executor.go:307-313 | a review that was claimed is never claimed again |
| OneUseReview.GuardsAcceptOnlySanctioned | internal/app/default_route_executor.go:317-324 | before publication the guards accept only the reviewed image; after it only a sanctioned commit of that image |
| OneUseReview.PublishedOnceEntered | internal/app/default_route_executor.go:338-356 | what is published was read from the settings, by a run that has entered the application |
| OneUseReview.ExecutionIsSound | internal/app/default_route_executor.go:298-366 | however its methods are called, the application is entered once at most and the guards expect the reviewed settings or a sanctioned commit of them |
| OneUseReview.OnlyPublicationMovesExpectation | internal/app/default_route_executor.go:343-354 | no other write to the settings changes what the guards expect |
| OneUseReview.Execution.Claim | internal/app/default_route_executor.go:298-313 | succeeds for the digest of the review, if and only if it is unused |
| OneUseReview.Execution.FirstGuard | internal/app/default_route_executor.go:314-316 | accepts only the reviewed settings |
| OneUseReview.Execution.Enter | internal/app/default_route_executor.go:317-326 | the application is entered once, by the caller that claimed the review |
| OneUseReview.Execution.Guard | internal/app/default_route_executor.go:238-265 | accepts if and only if the settings are the expected ones and everything else was observed |
| OneUseReview.Execution.BeginCommit | internal/app/default_route_executor.go:326-337 | a commit begins only over the reviewed settings |
| OneUseReview.Execution.Publish | internal/app/default_route_executor.go:338-356 | the image read back becomes the expected one if and only if it is sanctioned and still there |
| ApplyReview.Review.CheckReviewedSources | internal/app/apply_review.go:206-273 | accepts exactly the reviewed sources and announces nothing |
| ApplyReview.Review.CheckDrafts | internal/app/apply_review.go:258-271 | passes if and only if every draft is staged as reviewed, or its adapter has taken it over |
| ApplyReview.Review.CheckSelections | internal/app/apply_review.go:221-234 | passes if and only if every selection is in its reviewed state, or in its committed state once the DNS adapter has committed |
| ApplyReview.Review.Guard | internal/app/apply_review.go:177-203 | accepts if and only if both reads of the sources and the network agree with the review; only then is the adapter announced |
| ApplyReview.Review.Commit | internal/app/apply_review.go:275-298 | the expected settings move if and only if the guard accepts and the image read back has the reviewed revision |
| ApplyReview.AnnouncedExactly | internal/app/apply_review.go:199-201 | an adapter counts as committed if and only if a complete guard accepted its commit |
| ApplyReview.RevisionNeverMoves | internal/app/apply_review.go:290-296 | the expected settings never leave the reviewed revision |
| ApplyReview.DraftsAreConsumedOnlyByTheirAdapter | internal/app/apply_review.go:258-271 | in every accepted guard of a run each draft is staged as reviewed, or taken over by an adapter whose commit this or an earlier accepted guard was about |
| ApplyReview.SelectionsSwitchOnce | internal/app/apply_review.go:221-234 | DNS selections are compared with their reviewed state until the DNS commit is guarded, and with their committed state from then on |
| ApplyReview.ReviewedUntilTheCommit | internal/app/apply_review.go:210-212 | every guard accepted before the commit saw the very settings that were reviewed |
| ApplyReview.ReviewIsSound | internal/app/apply_review.go:177-298 | whatever is asked of a review, an adapter counts as committed exactly when a complete guard accepted its commit, and the expected revision is the reviewed one |
| Loans.ReviewClosedExactlyOnce | internal/app/autonomy_device_scope.go:229-245 | over every interleaving the review is closed at most once, never while on loan, exactly once when owner and borrower have finished; at most one loan is granted |
| Loans.NothingSucceedsAfterTheEnd | internal/app/autonomy_device_scope.go:176-197 | after Close, or after one failed check, no use, loan or check succeeds again |
| Loans.UseSucceedsExactly | internal/app/autonomy_device_scope.go:199-227 | over every interleaving a use succeeds if and only if nothing has ended the scope, the intent is the same, both checks pass and the leaf succeeds |
| Loans.LentExactly | internal/app/autonomy_xray_finite_device_scope.go:296-308 | a loan is granted if and only if there is a review, it was observed, no loan was granted before, and the check of a scope that nothing has ended passes |
| Loans.LoanOutlivesTheOwner | internal/app/autonomy_managed_xray.go:128-141 | a loan outlives the close of its owner, and its release then closes the review |
| Loans.DeviceScope.Current | internal/app/autonomy_device_scope.go:176-197 | a check succeeds if and only if the scope is open and valid and passes; a check that does not pass ends an open scope |
| Loans.DeviceScope.UseScope | internal/app/autonomy_device_scope.go:199-227 | a use succeeds if and only if the scope is open and valid, the intent is the same, both checks pass and the leaf succeeds; another intent or a failed check ends the scope |
| Loans.DeviceScope.BorrowScope | internal/app/autonomy_xray_finite_device_scope.go:296-308 | a loan is granted if and only if there is a review that was observed and never lent, and an open and valid scope passes its check; exactly then it is lent |
| Loans.DeviceScope.ReleaseLoan | internal/app/autonomy_xray_finite_device_scope.go:309-322 | the release runs once, ends the loan, and closes the review if and only if the owner has closed |
| Loans.DeviceScope.CloseScope | internal/app/autonomy_device_scope.go:229-245 | the owner closes once, and the review with it if and only if there is one and it is not on loan |
| Loans.ScopeIsSound | internal/app/autonomy_device_scope.go:176-245 | whatever calls are made on a scope, its review is closed at most once, never on loan, and lent at most once |
| InstallReceipts.NoBlindSecondHandOff | internal/app/autonomy_maintenance.go:227-303 | between two automatic hand-offs of one version the first is definitely refused, the process runs as that version, or the version is recorded again, and that only while the record of another attempt has not been put back |
| InstallReceipts.RecordedAgainExactly | internal/app/autonomy_maintenance.go:227-303 | after a hand-off, and while the version was neither refused nor running nor recorded anew, the slot holds its record if and only if every record of another attempt was put back, and it may be recorded again if and only if one was not |
| InstallReceipts.SlotSinceHandOff | internal/app/autonomy_maintenance.go:266-303 | since then the slot holds that record, or another attempt whose put-back leads back to it |
| InstallReceipts.AttemptSurvivesCompletedWindows | internal/app/autonomy_maintenance.go:95-111 | a completed window never replaces the record of an attempt at a version that is not running |
| InstallReceipts.Updater.BeginWindow | internal/app/autonomy_maintenance.go:56-83 | a window runs if and only if the policy is the same, neither its receipt nor that of its slot is there, and, unless it is a new one, it is not running, due, and not past its retries or resumed; at most three fresh runs are counted |
| InstallReceipts.RetryDelayDoubles | internal/app/autonomy_maintenance.go:89 | the delay is a minute and doubles from run to run |
| InstallReceipts.Updater.EndWindow | internal/app/autonomy_maintenance.go:86-113 | a completed window is recorded if and only if it was not canceled, its policy is the same, its save is confirmed, and the slot holds no attempt at a version that is not running; the next run comes one, two or four minutes after this one began |
| InstallReceipts.Updater.RunAutoInstall | internal/app/autonomy_maintenance.go:248-308 | a package is handed off only over its confirmed record; only a definite refusal takes the record back, and the save that does so may land without being confirmed |
| InstallReceipts.Updater.Persist | internal/app/autonomy_store.go:161-190 | a save of the slot; a failure blocks, and may have landed |
| InstallReceipts.UpdaterIsSound | internal/app/autonomy_maintenance.go:56-308 | whatever an updater is asked, what it did is a permitted history of its slot |
| InstallReceipts.CrashForgetsAnAttempt | internal/app/autonomy_maintenance.go:266-284 | a crash between recording another attempt and handing it off leads to a run in which the first record is lost |
| InstallReceipts.ForgottenAttemptIsHandedOffTwice | internal/app/autonomy_maintenance.go:227-232 | in that run one version is handed off twice although it was not refused, did not run, and no other version was handed off |
| DurableJobs.PriorityRange | internal/app/durable_job_priority.go:8-29 | 0 exactly for Stop, at most 4, and 1 for every other job that has waited six minutes |
| DurableJobs.PriorityExactly | internal/app/durable_job_priority.go:8-29 | the priorities over time: a check of several items goes from 4 to 1 in six minutes, one of a single item from 2 to 1 in two, and what the owner asked for is at 1 |
| DurableJobs.WaitingOnlyHelps | internal/app/durable_job_priority.go:25-27 | a job never becomes less urgent by waiting |
| DurableJobs.BeforeIsTotal | internal/app/durable_job_priority.go:46 | the selection order is a strict total order on distinct ids |
| DurableJobs.SelectDurableServiceJob | internal/app/durable_job_priority.go:31-51 | -1 if and only if nothing is runnable, otherwise the first of the least runnable jobs by priority, acceptance time and id |
| DurableJobs.StopGoesFirst | internal/app/durable_job_priority.go:8-11 | a runnable Stop waits for nothing but another Stop |
| DurableJobs.OnlyEarlierJobsPassAnAgedOne | internal/app/durable_job_priority.go:25-49 | after six minutes only a Stop or a job accepted earlier can go ahead |
| DurableJobs.StartsAreFew | internal/app/durable_service_jobs.go:632 | a job may still be started once for a remaining service, three times for a remaining node, and 1536 times at most |
| DurableJobs.RemainingExactly | internal/app/durable_service_jobs.go:632 | checks of nodes and services, and selections, have their remaining items ahead of them, every other job one |
| DurableJobs.TurnKeepsTheJob | internal/app/durable_service_jobs.go:632-640 | a turn keeps what a job is and when it was accepted; an expired job, one from the future and one without attempts fails; an interruption costs an attempt |
| DurableJobs.TurnSpends | internal/app/durable_service_jobs.go:726-806 | a turn with a free gate finishes a job or spends one of its starts; a turn with a busy gate spends five seconds of its lifetime |
| DurableJobs.PassersAreEarlier | internal/app/durable_job_priority.go:31-51 | over a run of one process, every job that passes an aged one is a Stop or an earlier job that was there when it had aged |
| DurableJobs.PassesAreBounded | internal/app/durable_service_jobs.go:623-806 | an aged job is passed over a free gate at most as often as the earlier jobs may still be started, and over a busy one at most as often as their lifetimes allow |
| DurableJobs.OnceForEachEarlierJob | internal/app/durable_service_jobs.go:623-806 | if no earlier job may be started more than once, it is passed at most once for each |
| DurableJobs.PassedAtMostExactly | internal/app/durable_service_jobs.go:623-806 | behind any earlier jobs that have the time they need, every run with a free gate passes an aged job at most n times if and only if these jobs may be started at most n times in all |
| DurableJobs.OnceForEachExactly | internal/app/durable_service_jobs.go:623-806 | so it is passed at most once for each earlier job if and only if none of these may be started more than once |
| DurableJobs.SlowRun | internal/app/durable_service_jobs.go:726-806 | there is a run in which every earlier job is started as often as it may be |
| DurableJobs.BusyBoundIsReached | internal/app/durable_service_jobs.go:726-729 | the bound for a busy gate is reached behind one earlier job |
| DurableJobs.CatalogueCheckPasses | internal/app/durable_service_jobs.go:773-782 | a check of a catalogue of 512 nodes, a node a second, passes one aged job 512 times |
| Matchers.SameStringSet | internal/app/app.go:3367-3381 | equal up to reordering |
| Matchers.AutopilotTargetsUnchanged | internal/app/app.go:2213-2229 | true if and only if both lists name each service once, the same services, with equal targets up to reordering |
| Matchers.UnchangedIsAnEquivalence | internal/app/app.go:2210-2213 | no sequence of accepted changes drifts away from the reviewed targets |
| Matchers.RollbackAppliedSettingsMatch | cmd/razvilka/main.go:1277-1310 | true if and only if the settings are comparable and the routes are in non-empty bijection with the enabled applied services, with equal selections, and sources up to reordering |
| Matchers.MatchDeterminesThePlan | cmd/razvilka/main.go:1277-1310 | two plans that match the same settings have the same services, selections and sources |
| Membership.BindDevices | internal/app/autonomy_device_scope.go:253-270 | accepts if and only if device ids and addresses are distinct and usable, and then the index maps every address to its owner |
| Membership.AutonomyPhysicalDeviceMembers | internal/app/autonomy_device_scope.go:249-284 | the sorted list without repetition of exactly the owners of the sources; given if and only if the observation is sound and every source has a selected owner that is not excluded |
| Membership.OwnerIsUnique | internal/app/autonomy_device_scope.go:257-270 | in a sound observation an address has one owner |
| Membership.AutonomyFiniteExcludedDevicesEqual | internal/app/autonomy_xray_finite_device_scope.go:261-274 | true if and only if both lists are free of repetition and of empty ids, within the bound, and equal as sets |
| Membership.FiniteMembers | internal/app/autonomy_xray_finite_device_scope.go:208-257 | names the selected device if and only if what was asked agrees and exactly one device of that name was observed, holding the source as its only IPv4 address |
| Membership.CheckFiniteMember | internal/app/autonomy_xray_finite_device_scope.go:227-251 | the device is on the segment and the source is its only IPv4 address |
| Messages.BoundedAutonomyMessage | internal/app/autonomy_store.go:237-251 | at most 512 bytes, valid UTF-8 for valid UTF-8, the message itself if it fits, and otherwise its longest valid prefix that leaves room, at most three bytes short, plus the ellipsis |
| Messages.ValidUtf8Exactly | internal/app/autonomy_store.go:237-251 | the texts that count as valid are exactly the encodings of Unicode scalar values (section 3 of RFC 3629) |
| Messages.CutExactly | internal/app/autonomy_store.go:247-249 | a valid text may be cut in front of a byte that starts a character and nowhere else (section 4 of RFC 3629) |
| Messages.StartIsNear | internal/app/autonomy_store.go:247-249 | at most three bytes in a row continue a character (section 3 of RFC 3629) |
| Sorting.SortedIsUnique | internal/app/autonomy_ranking.go:111-125 | under a total order the sorted arrangement of a multiset is unique |
| Sorting.SortIsStable | internal/app/autonomy_source_priority.go:51 | a stable sort keeps the order of the elements its comparator does not tell apart |

## Left out

- FirstUsable.Autopilot.StandardRoutes: what trying a local route does to the entry besides its bookkeeping is one arbitrary step with its save, because the route trials of `autonomy_source_priority.go:62-109` have no invariant of their own.
- FirstUsable.Autopilot.Check: the classification of check results into usable, definite, refused and inconclusive is arbitrary; only what each class leads to is modelled.
- FirstUsable.Autopilot.Apply: the switch budget and the reserves are left to an arbitrary yes or no here; their effect on the stored entry is in `ConsentDocument.UpdatesKeepRuntimeValid`.
- FirstUsable.Autopilot.PersistSearch: the refusal for a service that left the document does not occur, because a round excludes enrolment and removal.
- FirstUsable.Autopilot.Commit: the transaction and its own consent checks are one given outcome.
- RollbackReceipts.Examine: the error types, the time limits of a cause and the comparison of a route with its service are flags of the failure; the conditions around the round (settings, consent, document, resources, network) are one guard.
- FirstUsable.Autopilot.Guard: the conditions of the guard other than cancellation, the blocked latch and the pause are arbitrary.
- SearchHistory.HaltedStopsEveryLaterRound: covers the search's candidate applications; the worker's trials of local routes and its restoring of a committed route (`autonomy_worker.go:451-466`) have no latch and are not events here.
- SearchHistory.HaltedOnDiskAtEveryCrash: assumes that no other writer replaces the document during the run; `ConsentStore.dfy` covers such writers.
- ConsentDocument.UpdatesKeepRuntimeValid: the format of single fields (hexadecimal ids, maintenance keys) is not modelled; of texts only their lengths are.
- InstallReceipts.NoBlindSecondHandOff: stated with a record of another attempt that was not put back; with "another version was handed off" it is false, as shown above.
- DurableJobs.PassesAreBounded: a restart of the process, which sets the cursors of batched jobs back, is not part of a run, and neither is a start the journal refuses.
- Loans.DeviceScope.UseScope: which devices a use is given is in `Membership.dfy`, not here; errors of closing are not modelled.
- OneUseReview.Execution.Guard: the physical observation, the catalogue hash and the committed plan are one arbitrary condition; undoing a commit and the journal fence are not modelled.
- OneUseReview.CommittedExactly: a policy that the validation of applied policies refuses does not reach the commit.
- ApplyReview.Review.Guard: the kinds of errors are reduced to canceled, changed and network changed; how a binding is built from a plan is not modelled.
- Membership.FiniteMembers: the carrier's own conditions and the agreement of the lists with the observation are one given condition.
- Traversals.PrioritizeFreshProofs: which candidates have a fresh proof is given; the store and the runtime contracts that decide it are not modelled.
- Ranking.NodeStability: which failures are attributed to the service is a given flag of a check.
- Ranking.RankAutonomyNodes: which measurement supplies a latency is not modelled; latencies are given.
- ResourceExclusions.Matches: the validation of the set itself is a given flag.
- ResourceExclusions.EndpointsAllowed: endpoint texts are given as targets.
- ConsentStore.NoForeignWriteIsLost: other writers that do not take the file's lease could write between its comparison and its write.
- ResourceExclusions.Eligible: texts are given parsed, and the texts of endpoints are given as targets; name normalization is not modelled.
- Matchers.RollbackAppliedSettingsMatch: `waitForHealth` and `classifyPriorRoutes` beside it are retry loops over process and network facts.
- Maintenance windows across time zones and clock changes: a window is an opaque key.
- Preparation, pending and active runtimes of managed Xray, network probes, WAN profile reads, adapters and their rollback: outcomes only.
- HTTP handlers, request decoding, status views, process supervision, command-line tools, backups and migrations: no deep invariant.
- Integer width: revisions end at the 64-bit maximum in `OneUseReview.dfy`; counters elsewhere are far from their width and are unbounded.
