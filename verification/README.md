# Ghost Chimera: a verified model

A Dafny model of the parts of Ghost Chimera that have to stay right when things go wrong: the
durable trust journal and its approvals, the locking and atomic-write layer under it, the
execution protocols above it, and the small pieces of arithmetic and text handling they rely on.
`dafny verify dfyconfig.toml` checks the whole project.

## How it is built

**Trust store** (`Redaction`, `HashChain`, `TrustStore`, `TrustCrash`, `TrustViews`,
`TrustInvariant`, `TrustSteps`, `TrustRuns`, `TrustOnce`, `TrustCalm`, `TrustResume`,
`TrustChronicle`, `TrustBars`, `TrustTools`, `TrustHistories`). Each operation of `TrustRuntimeStore` is specified by the sequence of states it
leaves on disk, one per file write. The class keeps a ghost trace, to which every file write adds
the disk it leaves, and each method is proved to add exactly the states of its specification, in
their order. Every load of the index and of the approvals file may fail and then returns the empty
dictionary; which ones do is an argument of each operation (`Loads`). A crash between two writes is
a state of the sequence, and a history with crashes is a list of operations cut short anywhere.
Redaction is concrete (the tree walk, the depth cap, the secret markers); only the scrubber of one
string is a parameter. `TrustCrash`, `TrustTools` and `TrustHistories` prove what survives crashes
and failed loads, `TrustCalm`, `TrustResume` and `TrustChronicle` what survives failed loads that
forget no approvals, and `TrustInvariant`, `TrustRuns` and `TrustOnce` what holds while no load
fails on a file with entries.

**State I/O** (`StateLock`, `StateIo`, `StateIoRuns`). `PathLock` is a class. `StateIo` is a step
relation over any number of processes and threads, each with a stack of nested `with` blocks, a
file system of whole and half-written files, unlocked readers, and crashes at every point. The
system lock, the load of an update, an unlocked read, a body and every write can fail; a load or
read that fails returns the default, as the source does.

**Execution** (`Executor`, `Parallel`, `ParallelRuns`, `JobQueue`, `QueueRuns`, `QueueHistory`). The
executor and the queue are classes, the parallel executor is methods with the source's loops.
`ParallelRuns` is the thread pool behind those loops: workers begin and finish tasks in any order
while the caller submits, waits, gives up waiting and checks the token; every run of it is shown to
do what the loops do. `Specified` says what an execution must be from the ranking, the verdicts and
the cancellations alone; traces are read by an automaton. The queue's locked sections are functions
on its state, and `QueueRuns` lets any number of callers interleave them, with failing writes and
restarts of the process.

**Smaller pieces** (`Sums`, `Envelope`, `CheckDigits`, `CodeBlocks`, `RoundTrip`, `Egress`, `Text`,
`Listing`, `Identities`, `Admission`, `AdmissionRuns`). Envelope merging over the reals, the Luhn
and IBAN checks from text to verdict, code-block stashing with Python's `str.replace`, clipping and
scrubbing of texts that leave the machine, and the capability admission registry with the texts its
ids are made from.

## What the model found

* A load that fails inside `update()` returns the default, and the update commits what its body
  makes of that: every earlier commit is gone (`FailedLoadOverwrites`, `FailedLoadLosesTwo`).
* An `update()` entered inside the body of another `update()` of the same file loses its commit:
  re-entrancy makes it legal, and the outer block writes what it loaded before
  (`NestedUpdateIsOverwritten`). In every run the document is the serial one exactly when no block
  sees the difference between what it loaded and the version just before its commit
  (`SerialIffUnseen`); without nested writers and failing loads it always is (`NoUpdateIsLost`).
* `record_step` finds a used key again exactly when the scrubber leaves the key alone
  (`RecordedIsFoundIff`); a key it changes records the step twice (`ScrubbedKeyRecordsTwice`).
* A load that fails counts as an empty file, and a writer then forgets what is on file: a checkpoint
  stays through a call exactly unless another is filed by a call that could not read the approvals
  (`CheckpointKeptIff`), a run stays listed exactly unless another is created by a call that could
  not read the index (`RunKeptIff`), and a step count stays right exactly when the touch of the
  record can read the index (`CountKeptIff`). A run that waits for an approval is resumed exactly
  when the approvals cannot be read (`WaitingRunResumesIff`). A barred capability stays barred
  through a step exactly unless the step files a record without having read those on file
  (`BarredIff`), after which it can be approved (`BarredIsApprovedAgain`).
* Step ids join their parts with `|` before hashing. A step type with a `|` in it can give two
  steps one id; when both are resumed in one second, the second resume finds its key used, records
  nothing, and the same boundary is resumed once more (`BarsResumeTwice`). So do a key that looks
  like a clock reading (`ClockKeyResumesTwice`), a key that spells out the resume key
  (`SpelledKeyResumesTwice`), and a resume neither of whose touches can read the index
  (`UnreadIndexResumesTwice`). A resume is followed by no second resume of its boundary exactly when
  it left its record or needed none and left another status or needed none
  (`NoBoundaryIsResumedTwiceIff`), which it does in every run whose step types and statuses hold no
  `|` and whose keys look like no clock reading and no resume key
  (`PlainRunsResumeOncePerBoundary`).
* A repeated tool use adds a line to the tool file although its step is recorded once
  (`ToolCallEffect`).
* Capability ids join their parts with `|` and their permissions with `,`. `version` and
  `artifact_digest` can trade characters across the one, and the permission `a,b` counts for the
  two permissions `a` and `b`; either way a review is inherited (`ReviewCarriesOverBars`,
  `ReviewCarriesOverCommas`), contrary to the docstring at
  `ghostchimera/capability_admission.py:189-192`. When the five parts hold no `|` and the
  permissions no `,`, ids agree exactly when the parts and the permission sets agree up to trimming
  and case, or SHA-1 prefixes collide (`SameIdIff`); a `|` in a permission does no harm.
* `redact_egress_text` is not idempotent. With the first secret pattern as its scrub, a second pass
  changes nothing exactly when the text fits the limit, or the scrub saves nothing on the clipped
  text, or it saves at least the length of the mark, where it saves for each key its length less
  ten (`KeysEgressIdempotentIff`). So one key of 15 to 23 characters in a clipped text breaks it,
  and a longer one does not (`ClippedKeyIdempotentIff`).
* Stashing and restoring code blocks gives a text back exactly when each block's placeholder occurs
  neither in the text up to its block nor in what the rest is stashed to (`RestoreUndoesStashIff`);
  a placeholder spelled inside its own block, or a later one, is harmless.
* A task that outlives its timeout runs to its end before the call returns, and what it came to is
  discarded: the caller gets a failure (`LateTasksRunAndAreDiscarded`).
* A job's runner is invoked at most once more often than its results have reported the status
  `queued`; the bound is reached for every number (`BoundIsReached`).
* In the executor a cancellation after at least one attempt records CANCELLED and then FAILED; one
  before any attempt records CANCELLED alone (`ExecutionLaws`).
* An empty group makes `execute_tasks_parallel` raise: it asks for a pool of no workers
  (`RunGroups`).

## Assumptions

Hypotheses are predicates that the theorems name. `EnvOk`: the scrubber is idempotent and leaves
digests and the store's status words alone, and no secret marker hides a field the store reads back
(proved of the real markers in `StoreFieldsAreNotSecret`). `KeysOk`: generated ids are new, the
scrubber leaves keys and the run id of a new checkpoint alone, and a caller's key stays out of the
two approval namespaces of the store. `CallCalm` is `KeysOk` and that the call does not forget the
approvals (`ForgetsApprovals`: it files a checkpoint, its load of the approvals failed and there
were some). `CallOk` is `KeysOk` and that no load fails on a file that has entries (`Harmless`);
`ViewsAgree` needs it, because a touch that cannot read a file leaves a count behind. Only why a
resume key is new needs more: `StepIdsOk` (SHA-1 prefixes are not empty, hold no colon, are left
alone by the scrubber and do not collide), `ClockOk` (clock readings print differently) and
`PlainCall` (the clock has advanced, and a caller's step has no `|` in its type and status and a key
that is neither a clock reading nor a resume key). Histories of the admission registry may have
failed loads too; where a theorem excludes steps that forget the records on file it says so
(`Remembers`). The chain theorems assume of the digest only that it is never empty and that the
scrubber fixes it; tamper evidence names the colliding records instead of assuming there are none.
Numbers are their values: 1 and 1.0 are one JSON number here, so that journals agree record for
record up to that. A denial is not sticky: approving a second checkpoint after denying a first makes
a run resumable, and nothing here says otherwise.

## Model

| member | source | states |
|---|---|---|
| Redaction.FixedPointIffClean | ghostchimera/redaction.py:309-360 | A tree is a fixed point of redaction exactly when its secrets are blank, its strings are scrubbed and it is cut at the depth cap |
| Redaction.RedactIdempotent | ghostchimera/redaction.py:338-360 | Redacting twice equals redacting once, for every tree and depth, given an idempotent string scrubber |
| Redaction.RedactNesting | ghostchimera/redaction.py:309-360 | Output nesting is bounded by what is left of the depth cap, however deep the input |
| Redaction.RedactedTree | ghostchimera/redaction.py:309-360 | Nesting bounded by the cap, no value under a marked key survives anywhere, every string scrubbed, second pass is the identity |
| Egress.ClipKeepsIff | ghostchimera/redaction.py:301-306 | Clipping leaves a text alone exactly when it fits or is itself a clipped text |
| Egress.ShortKeysEgressIdempotent | ghostchimera/redaction.py:301-306 | On every text within the limit a second pass changes nothing: the scrub by that pattern lengthens no text |
| Egress.ScrubShortens | ghostchimera/redaction.py:24-25 | The scrub shortens a text by exactly what its matches are longer than the replacement, and leaves it alone when that is nothing |
| Egress.ScrubKeysIdempotent | ghostchimera/redaction.py:24-25 | The scrub by the first secret pattern is idempotent on every text |
| Egress.KeysEgressIdempotentIff | ghostchimera/redaction.py:301-306 | For every text, with that pattern as the scrub: a second pass changes nothing if and only if the text fits the limit, or the matches in the clipped text save nothing, or they save at least the length of the mark |
| Egress.ClippedKeyIdempotentIff | ghostchimera/redaction.py:301-306 | For every key at the head of a clipped text: a second pass changes nothing exactly when the key is at least as long as the replacement and the mark together |
| Egress.SavedByTwo | ghostchimera/redaction.py:24-25 | Two keys that stand apart save what both are longer than the replacement |
| HashChain.VerifyRunIntegrity | ghostchimera/trust_runtime.py:710-735 | Accepts exactly the whole chains; otherwise names the first bad record, everything before it being whole, and tells a broken link from a broken seal |
| HashChain.AppendKeepsChain | ghostchimera/trust_runtime.py:1221-1250 | Appending to a journal that verifies gives one that verifies, and the record read back after three redactions is the record that was hashed |
| HashChain.HashFieldsStaySettled | ghostchimera/trust_runtime.py:1221-1228 | The two hash fields keep a redacted payload a fixed point of redaction |
| HashChain.TamperEvidence | ghostchimera/trust_runtime.py:710-735 | Two journals that verify with the same latest hash agree record for record, or it names a record of each whose different payloads share a digest |
| HashChain.TamperingChangesLatestHash | ghostchimera/trust_runtime.py:710-735 | Without such a collision two journals that verify are equal if and only if their latest hashes are |
| HashChain.InsertedLineIsInvisibleIff | ghostchimera/trust_runtime.py:1239-1250 | A line inserted anywhere is invisible to every reader exactly when it is not a JSON object |
| TrustStore.TrustRuntimeStore.TouchRun | ghostchimera/trust_runtime.py:1194-1207 | Writes the run file once for a run in the index it loads, with status, step count and the pending approvals it can read, and nothing for any other run or when the index cannot be read |
| TrustStore.TrustRuntimeStore.RecordStep | ghostchimera/trust_runtime.py:369-407 | Returns the stored record of a used key and writes nothing, or appends the hashed record and then touches the run |
| TrustStore.TrustRuntimeStore.CreateRun | ghostchimera/trust_runtime.py:332-367 | Lists the run among those it can read and then records its first step |
| TrustStore.TrustRuntimeStore.RecordToolCall | ghostchimera/trust_runtime.py:409-450 | Records one step under the tool key, blocked and retryable when there are violations, and then appends the call to the tool file, naming the given or the recorded step |
| TrustStore.TrustRuntimeStore.CreateApproval | ghostchimera/trust_runtime.py:452-495 | Files the checkpoint among those it can read, records it and touches the run: the file writes are exactly these, in that order |
| TrustStore.TrustRuntimeStore.ResolveApproval | ghostchimera/trust_runtime.py:497-552 | Every error branch in order and without a write, an unreadable file among them, and the file writes of a finalised decision in their order |
| TrustStore.TrustRuntimeStore.DecideResume | ghostchimera/trust_runtime.py:555-572 | The decision from the index and approvals it can read and the last step |
| TrustStore.TrustRuntimeStore.ResumeRun | ghostchimera/trust_runtime.py:554-586 | That decision, and the file writes of a resume in their order |
| TrustCrash.CallSafe | ghostchimera/trust_runtime.py:332-586 | Whichever loads fail, every state an operation leaves between two of its file writes keeps every journal verifying and every step count at most the journal length |
| TrustCrash.JournalsAlwaysVerify | ghostchimera/trust_runtime.py:390-405 | After any sequence of operations, with loads that fail and each cut short after any number of writes, every journal verifies and no step count exceeds its journal |
| TrustCrash.NoCrashIsAHistory | ghostchimera/trust_runtime.py:332-586 | Runs of completed operations are among the histories with crashes |
| TrustViews.StoreFieldsAreNotSecret | ghostchimera/redaction.py:20-22 | The real secret markers hide none of the fields the store reads back, nor the two hash fields |
| TrustViews.RecordStepEffect | ghostchimera/trust_runtime.py:369-407 | What `record_step` does to journals, index and approvals, for a new and for a used key, and which counts it writes when a load fails |
| TrustInvariant.RecordCompletes | ghostchimera/trust_runtime.py:481-493 | Recording the step of an operation whose dictionary is already written restores the invariant |
| TrustInvariant.HarmlessIsPlain | ghostchimera/state_io.py:364-366 | A load that fails on a file without entries changes nothing an operation writes |
| TrustSteps.StatesMidway | ghostchimera/trust_runtime.py:332-586 | Whichever loads fail, every state an operation leaves has at most the one record it asks for, only after the approvals file was written, and the last state has both |
| TrustRuns.CallKeepsInv | ghostchimera/trust_runtime.py:332-586 | While no load fails on a file with entries, every operation keeps the invariant that ties index, approvals and journals together |
| TrustRuns.ViewsAgree | ghostchimera/trust_runtime.py:343-551 | After any run in which no load fails on a file with entries: step count is journal length, pending count is the number of pending checkpoints, a checkpoint is resolved exactly when its run's journal holds its resolution record with its decision, and no approval record lacks its checkpoint |
| TrustRuns.KeysAreUsedOnce | ghostchimera/trust_runtime.py:385-406 | No two records of one journal share a non-empty idempotency key |
| TrustOnce.JournalsOnlyGrow | ghostchimera/trust_runtime.py:390-405 | Whatever is called, stored records stay where they are, unchanged |
| TrustOnce.RecordedIsFoundIff | ghostchimera/trust_runtime.py:385-406 | After recording under a key, the key is found again exactly when the scrubber leaves it alone or it was there before, and what is found is the record that was returned |
| TrustOnce.RecordingIsIdempotent | ghostchimera/trust_runtime.py:385-406 | Repeating `record_step` with a used key, however many operations later, returns the stored record and changes nothing |
| TrustOnce.ScrubbedKeyRecordsTwice | ghostchimera/trust_runtime.py:1215-1219 | A key the scrubber changes records the same step again on an immediate retry |
| TrustOnce.CheckpointKeptIff | ghostchimera/trust_runtime.py:481-483 | A checkpoint stays on file through a call exactly unless another is filed by a call that could not read the file |
| TrustOnce.ResolvedOnlyAsConfirmed | ghostchimera/trust_runtime.py:506-551 | A pending checkpoint that stays on file becomes resolved exactly by a call for it that can read the file, with a readable decision that its authority, if asked, confirms; otherwise it stays as it is |
| TrustOnce.ResolvedKeptIff | ghostchimera/trust_runtime.py:479-551 | A resolved checkpoint stays as it is through a call exactly unless the call forgets the approvals |
| TrustOnce.ResolvedIsFinal | ghostchimera/trust_runtime.py:506-551 | While no load fails on a file with entries, a resolved checkpoint never changes again |
| TrustResume.ResumesIff | ghostchimera/trust_runtime.py:554-586 | In a reached state a run resumes exactly when the index can be read and lists it, its pending counter is zero or the approvals cannot be read, and it or its last step is at a boundary; it resumes from its last step, or from `start` when that has no id |
| TrustResume.WaitingRunResumesIff | ghostchimera/trust_runtime.py:558-572 | A run that waits for an approval is resumed exactly when the approvals file cannot be read |
| TrustResume.NoBoundaryIsResumedTwiceIff | ghostchimera/trust_runtime.py:554-586 | After a successful resume every later one, whatever was called between and whichever loads failed as long as none forgets the approvals, has a new boundary record or approval before it, if and only if the resume left its record or the last step is at no boundary, and a touch could read the index or the status is no boundary |
| TrustResume.UnspentIsResumedAgain | ghostchimera/trust_runtime.py:554-586 | A resume that is not spent in that sense leaves the approvals alone and can be repeated at once |
| TrustChronicle.StepsHaveDifferentIds | ghostchimera/trust_runtime.py:389 | Two steps of one journal whose types and statuses hold no separator have different ids: keys are used once and a keyless step is told by its clock |
| TrustChronicle.ResumeKeyIsNew | ghostchimera/trust_runtime.py:570-586 | The resume key of the last step of such a journal is not yet in it |
| TrustChronicle.CallNotes | ghostchimera/trust_runtime.py:332-586 | Every operation adds at most one journal record, that of the step it asks for, and only when its key is new |
| TrustChronicle.PlainRunsResumeOncePerBoundary | ghostchimera/trust_runtime.py:554-586 | After any run of calls without separators in step types and statuses and without keys that look like a clock reading or a resume key, no boundary is resumed twice, when one touch of the resume can read the index |
| TrustBars.BarredStepsShareAnId | ghostchimera/ids.py:27-36 | Two different steps share an id across the separator |
| TrustBars.TwinsResumeTwice | ghostchimera/trust_runtime.py:554-586 | From every idle state: two interruptions with one id, each resumed, the resumes in one second, and the second resume can be repeated from the same boundary |
| TrustBars.BarsResumeTwice | ghostchimera/trust_runtime.py:554-586 | So with a separator in a step type |
| TrustBars.ClockKeyResumesTwice | ghostchimera/trust_runtime.py:389 | So with a keyless step and one whose key is the text of its clock reading |
| TrustBars.SpelledKeyResumesTwice | ghostchimera/trust_runtime.py:570-586 | And with one interruption whose resume key a caller has used |
| TrustResume.UnreadIndexResumesTwice | ghostchimera/trust_runtime.py:1194-1199 | And with a resume neither of whose touches can read the index |
| TrustTools.ToolCallEffect | ghostchimera/trust_runtime.py:409-450 | Every use adds one line to its own tool file, which reads back as the reply; under a used key journal and index stay as they are |
| TrustTools.ToolLinesNameSteps | ghostchimera/trust_runtime.py:436-449 | After any history with crashes every tool line whose caller named no step names one that is in the journal of its run |
| TrustCalm.MidwayKeepsBacked | ghostchimera/trust_runtime.py:332-586 | However far a call has come that forgets no approvals: resolution records are backed by resolved checkpoints, keys are used once, and resolved checkpoints stay as they are |
| TrustCalm.NextIndex | ghostchimera/trust_runtime.py:1194-1207 | Whichever loads fail: the runs the index lists after a call, and the status of each |
| TrustHistories.RecordsStay | ghostchimera/trust_runtime.py:390-405 | In every history with failed loads and crashes, records already in a journal stay where they are |
| TrustHistories.KeysAreUsedOnceInCrashes | ghostchimera/trust_runtime.py:385-406 | In every such history whose keys the scrubber leaves alone, no two records of a journal share a key |
| TrustHistories.HistoryKeepsApprovals | ghostchimera/trust_runtime.py:452-552 | In every such history that forgets no approvals, every checkpoint stays on file and a resolved one as it is |
| TrustHistories.ResolutionsAreBacked | ghostchimera/trust_runtime.py:479-551 | There a resolution record in a journal has its checkpoint resolved with its decision, and an approval record its checkpoint on file |
| TrustHistories.ForgottenCheckpoint | ghostchimera/trust_runtime.py:481-483 | A call that forgets the approvals leaves a journal that speaks of a checkpoint no longer on file |
| TrustHistories.RunKeptIff | ghostchimera/trust_runtime.py:356-358 | A run stays listed through a call exactly unless another is created by a call that could not read the index |
| TrustHistories.CountKeptIff | ghostchimera/trust_runtime.py:1194-1207 | A step count that was right stays right exactly when the touch of the new record can read the index; it never runs ahead |
| StateLock.PathLock.Acquire | ghostchimera/state_io.py:207-215 | Takes the system lock only at depth zero; a failure leaves no trace; success deepens by one |
| StateLock.PathLock.Release | ghostchimera/state_io.py:217-224 | The last release frees both locks |
| StateLock.NestingIsCounted | ghostchimera/state_io.py:198-224 | Depth counts nested acquisitions, and each release undoes the acquisition before it |
| StateIo.StepKept | ghostchimera/state_io.py:97-425 | Every step of every thread, reader, failure and crash keeps the invariant of locks, log, files, blocks in progress and readers |
| StateIoRuns.LocksInEveryRun | ghostchimera/state_io.py:198-306 | In every reached state at most one thread of one process is inside; the system lock is held exactly while depth is positive; depth is the holder's number of nested blocks; a process whose threads have left is wholly unlocked |
| StateIoRuns.DocumentInEveryRun | ghostchimera/state_io.py:345-425 | The target is always a wholly committed version; every commit is what its block makes of what it loaded; a load or read gets the version current when it opened the file, or the default when it failed; nothing but a nested block of the same thread commits between an update's load and its commit |
| StateIoRuns.OnlyRenameChangesTheFile | ghostchimera/state_io.py:97-128 | Only a rename changes the document, by one commit; a raising body, a failed write and a crash anywhere leave the old one |
| StateIoRuns.OsFailureLeavesNoTrace | ghostchimera/state_io.py:207-215 | Entering a block whose system lock cannot be taken leaves every lock, stack and file as it was |
| StateIoRuns.SerialIffUnseen | ghostchimera/state_io.py:410-425 | In every run, nested blocks, failures and crashes included, the document is always the committed bodies applied one after another in lock order if and only if no block sees the difference between what it loaded and the version just before its commit |
| StateIoRuns.FlatRunsAreSerialIff | ghostchimera/state_io.py:364-366 | Without writers nested in an update's body that holds exactly when each block whose load failed makes the same of the default as of the version it did not see |
| StateIoRuns.NoUpdateIsLost | ghostchimera/state_io.py:410-425 | Without nested writers, and while no load fails once there is a document, no update is lost, over every interleaving, other failure and crash |
| StateIoRuns.FailedLoadOverwrites | ghostchimera/state_io.py:364-366 | From any unlocked state: an update whose load fails commits its body of the default over everything before; serial exactly when the body does not see the difference |
| StateIoRuns.FailedLoadLosesTwo | ghostchimera/state_io.py:364-366 | A counter at two drops to one when the third increment cannot read the file |
| StateIoRuns.NestedUpdateIsOverwritten | ghostchimera/state_io.py:421-425 | A nested update commits and is then overwritten; the result is serial exactly when the outer body does not see the difference |
| StateIoRuns.NestedIncrementLosesOne | ghostchimera/state_io.py:421-425 | A counter incremented by two nested updates counts one |
| Verifier.VerifiedIff | ghostchimera/chimera_pilot/verifier.py:15-42 | A result is verified exactly when it meets every constraint, exactly then there is no error, and an error is never empty |
| Executor.ChimeraPilotExecutor.ExecuteWithContext | ghostchimera/chimera_pilot/executor.py:288-591 | The execution is what the ranking, the verdicts and the cancellations determine, with the rejected and cancelled outcomes before scheduling |
| Executor.ChimeraPilotExecutor.TryRanked | ghostchimera/chimera_pilot/executor.py:375-591 | The loop over the ranking meets that specification for every cancellation point |
| Executor.ChimeraPilotExecutor.CancelRun | ghostchimera/chimera_pilot/executor.py:261-263 | Adds the run to the cancelled runs, and nothing else |
| Executor.StoppingPoint | ghostchimera/chimera_pilot/executor.py:375-591 | There is exactly one stopping point, at most one winner, and the winner comes before it |
| Executor.OneExecution | ghostchimera/chimera_pilot/executor.py:375-591 | The ranking, the verdicts and the cancellations leave exactly one execution |
| Executor.ExecutionLaws | ghostchimera/chimera_pilot/executor.py:63-591 | Ok exactly when some backend wins and exactly when the trace ends in COMMITTED; attempts are the rank prefix ending in the result, none before it acceptable; the trace fits the grammar with one round per attempt |
| Parallel.ExecuteGroup | ghostchimera/chimera_pilot/executor_parallel.py:59-123 | Raises exactly for an empty group or a raising group of one; otherwise pairs each submitted task, in order, with its own outcome |
| Parallel.RunGroups | ghostchimera/chimera_pilot/executor_parallel.py:176-194 | The loop over the groups goes up to the token or a group that raises, and records what the groups it got through contribute |
| ParallelRuns.EveryRunIsTheLoop | ghostchimera/chimera_pilot/executor_parallel.py:94-194 | Every run of caller and workers, with timeouts and cancellation at any moment, that returns has recorded what those loops record for the outcomes the caller got, and one that raises has come to a group that raises |
| ParallelRuns.OrderLeavesNoTrace | ghostchimera/chimera_pilot/executor_parallel.py:94-123 | The order in which tasks begin and finish, and the number of workers, do not show in what is recorded |
| ParallelRuns.GroupsRunOneAfterAnother | ghostchimera/chimera_pilot/executor_parallel.py:183-194 | A group begins only when every begun task of earlier groups has ended, late ones included; no task begins twice; never more run than there are workers; nothing outlives the call |
| ParallelRuns.LateTasksRunAndAreDiscarded | ghostchimera/chimera_pilot/executor_parallel.py:104-121 | A task that was waited for in vain has run to its end when the call is over, and the caller got a failure for it |
| ParallelRuns.NoRunGetsStuck | ghostchimera/chimera_pilot/executor_parallel.py:97-123 | Until the call returns or raises, the caller or a worker can move |
| Parallel.ExecuteTasksParallel | ghostchimera/chimera_pilot/executor_parallel.py:168-242 | Returns exactly when no group it comes to raises, with results in increasing index |
| Parallel.ResultsBelongToTheirTasks | ghostchimera/chimera_pilot/executor_parallel.py:213-242 | Successes and failures add up to the tasks, indices strictly increase, each result is that of the task its index names |
| Parallel.RecordsWhatIsListed | ghostchimera/chimera_pilot/executor_parallel.py:176-194 | Without cancellation exactly the listed indices are recorded |
| Parallel.SameAsOneByOneIff | ghostchimera/chimera_pilot/executor_parallel.py:168-242 | With a deterministic executor and no cancellation the output equals running the tasks one by one exactly when every task is listed |
| JobQueue.AutonomyJobQueue.AddJob | ghostchimera/chimera_pilot/autonomy_queue.py:72-91 | Appends one queued record and saves |
| JobQueue.AutonomyJobQueue.BeginRun | ghostchimera/chimera_pilot/autonomy_queue.py:94-102 | Takes a queued record to running and saves before anything is invoked; every other record is only returned |
| JobQueue.AutonomyJobQueue.FinishRun | ghostchimera/chimera_pilot/autonomy_queue.py:107-115 | Writes the runner's status and payload into the job's own record |
| JobQueue.AutonomyJobQueue.FailRun | ghostchimera/chimera_pilot/autonomy_queue.py:116-124 | Writes the error into the job's own record |
| JobQueue.AutonomyJobQueue.Run | ghostchimera/chimera_pilot/autonomy_queue.py:93-124 | The three sections in sequence, a failed final save ending in the handler |
| JobQueue.AutonomyJobQueue.RunNext | ghostchimera/chimera_pilot/autonomy_queue.py:126-131 | Runs the first queued job, if there is one |
| JobQueue.AutonomyJobQueue.CancelJob | ghostchimera/chimera_pilot/autonomy_queue.py:133-147 | Cancels a queued job and refuses every other |
| QueueRuns.RunAloneIsARun | ghostchimera/chimera_pilot/autonomy_queue.py:93-124 | A call that nothing comes between is one of the interleaved runs |
| QueueRuns.InvokedAtMostOncePerQueuedResult | ghostchimera/chimera_pilot/autonomy_queue.py:93-124 | Over every interleaving, failed write and restart a runner is invoked at most once more often than its results said `queued`; so at most once if none does |
| QueueRuns.BoundIsReached | ghostchimera/chimera_pilot/autonomy_queue.py:107-111 | For every number of `queued` results there is a run with one invocation more |
| QueueRuns.CancelledJobNeverRuns | ghostchimera/chimera_pilot/autonomy_queue.py:133-141 | Once `cancel` has returned no continuation invokes the runner, restarts included, and none has before unless a result put the job back |
| QueueHistory.NoRecordIsLost | ghostchimera/chimera_pilot/autonomy_queue.py:174-192 | A job once in the file stays in it, and in memory, with its request, through every continuation of every run |
| QueueHistory.RecordKept | ghostchimera/chimera_pilot/autonomy_queue.py:86-147 | A step other than a restart changes no record but its own job's |
| QueueHistory.ResultsAreTheJobsOwn | ghostchimera/chimera_pilot/autonomy_queue.py:103-115 | No record ever carries a payload that its own runner did not return |
| QueueHistory.EveryJobHasOneStory | ghostchimera/chimera_pilot/autonomy_queue.py:86-141 | Status histories are queued, cancelled, or queued, running, one final status, with `error` after it only when its write failed |
| Sums.Chebyshev | ghostchimera/chimera_pilot/result_envelope.py:113-118 | Chebyshev's sum inequality for similarly ordered sequences, strict exactly when both differ at some two places |
| Envelope.MeanWeightedMax | ghostchimera/chimera_pilot/result_envelope.py:109-119 | For every non-empty list mean <= weighted <= max before rounding, with the exact cases of equality |
| Envelope.FlattenKeepsEveryList | ghostchimera/chimera_pilot/result_envelope.py:138-143 | Each envelope's list stands where those before it end, and the whole ends where the last does |
| Envelope.Consensus | ghostchimera/chimera_pilot/result_envelope.py:123-130 | The counting loop finds the first-appearing most frequent key |
| Envelope.ConsensusIsUnique | ghostchimera/chimera_pilot/result_envelope.py:123-130 | There is one such place, and it is where its key first appears |
| Envelope.MergeEnvelopes | ghostchimera/chimera_pilot/result_envelope.py:99-150 | Every field of the merged envelope, for every strategy and value mode, and for no envelopes |
| CheckDigits.LuhnOk | ghostchimera/redaction.py:185-196 | The loop accepts exactly 13 to 19 digits whose Luhn sum is a multiple of ten |
| CheckDigits.ExactlyOneDigitFits | ghostchimera/redaction.py:185-196 | Whatever the other digits, exactly one digit at a place makes the number acceptable |
| CheckDigits.SwapIsMissedIff | ghostchimera/redaction.py:185-196 | A swap of adjacent digits of an accepted number goes unnoticed exactly for equal digits and for 0 and 9 |
| CheckDigits.LuhnNoticesAChangedDigit | ghostchimera/redaction.py:185-196 | Changing one digit in an accepted text, separators and all, makes it rejected |
| CheckDigits.IbanNoticesAChangedCharacter | ghostchimera/redaction.py:199-208 | Replacing a character of an accepted text by another of its class and of different value makes it rejected, on either side of the rotation |
| CodeBlocks.FindFence | ghostchimera/chimera_pilot/context_compressor.py:220-227 | The first fence from a place on, or none |
| CodeBlocks.StashCodeBlocks | ghostchimera/chimera_pilot/context_compressor.py:220-227 | Scanning with a growing list of blocks is the recursive stash |
| CodeBlocks.RestoreCodeBlocks | ghostchimera/chimera_pilot/context_compressor.py:230-233 | The replacing loop is the recursive restore |
| CodeBlocks.PlaceholdersDiffer | ghostchimera/chimera_pilot/context_compressor.py:223-225 | Placeholders with different numbers never stand at one place, ten or more blocks included |
| CodeBlocks.WordsArePlaceholders | ghostchimera/chimera_pilot/context_compressor.py:220-227 | In stashed text the word occurs only inside placeholders, across every border |
| CodeBlocks.RestoreUndoesStash | ghostchimera/chimera_pilot/context_compressor.py:220-233 | For every text without the word, restoring the stashed text gives back the exact text |
| RoundTrip.RestoreUndoesStashIff | ghostchimera/chimera_pilot/context_compressor.py:220-233 | For every text the round trip is exact if and only if each block's placeholder occurs neither in the text up to its block, the border included, nor in what the rest is stashed to |
| RoundTrip.LostForever | ghostchimera/chimera_pilot/context_compressor.py:220-233 | A placeholder whose end was overwritten is never found again, whatever is replaced later |
| RoundTrip.OneBlockIsOnlyInserted | ghostchimera/chimera_pilot/context_compressor.py:220-233 | A text that is one block survives even if it spells its own placeholder |
| CodeBlocks.SpelledPlaceholderIsRewritten | ghostchimera/chimera_pilot/context_compressor.py:230-233 | A text that spells its block's placeholder before it comes back with the block twice |
| Admission.CapabilityAdmissionStore.CreateRecord | ghostchimera/capability_admission.py:115-171 | Refuses a blank kind or name and an identity it can read; otherwise files a discovered record among those it can read |
| Admission.CapabilityAdmissionStore.NewestSibling | ghostchimera/capability_admission.py:198-209 | A record of the same kind, source and name that none was updated after, or none |
| Admission.CapabilityAdmissionStore.RegisterOrUpdate | ghostchimera/capability_admission.py:173-255 | Fills in from request, metadata and newest sibling it can read, then refreshes the same identity or files a new one with a second load |
| Admission.CapabilityAdmissionStore.MoveTo | ghostchimera/capability_admission.py:273-298 | Every refusal in order, an unreadable file among them, and the record after an allowed transition |
| AdmissionRuns.RegisterMoves | ghostchimera/capability_admission.py:173-255 | Unless it forgets those on file, registering changes no review and adds only fresh records |
| AdmissionRuns.ActiveWasApproved | ghostchimera/capability_admission.py:31-39 | Over every history an active record was approved earlier under the same id |
| AdmissionRuns.BarredForever | ghostchimera/capability_admission.py:31-39 | As long as no step forgets the records on file, a quarantined or revoked record never becomes approved or active, and a revoked one stays revoked |
| AdmissionRuns.BarredIff | ghostchimera/capability_admission.py:149-171 | A barred record is still barred after a step exactly unless the step files another record without having read those on file |
| AdmissionRuns.BarredIsApprovedAgain | ghostchimera/capability_admission.py:329-337 | From any records: a barred capability registered while the file cannot be read starts again and is approved two transitions later |
| AdmissionRuns.AtMostSixChanges | ghostchimera/capability_admission.py:31-39 | As long as no step forgets the records on file, a record changes status at most six times |
| AdmissionRuns.ClassFollowsStatus | ghostchimera/capability_admission.py:290-295 | The trust class is a function of the status |
| Listing.CommaTextTellsSets | ghostchimera/capability_admission.py:69-90 | Sorted and joined with commas, two sets of comma-free texts read alike exactly when they are equal |
| Identities.SameIdIff | ghostchimera/capability_admission.py:69-90 | Without `|` in the five parts and `,` in the permissions, ids agree exactly when the parts and the permission sets do up to trimming and case, or digests collide |
| Identities.BarsBlurIdentities | ghostchimera/ids.py:27-36 | With `|` in a part, different versions and digests share an id |
| Identities.CommasBlurPermissions | ghostchimera/capability_admission.py:69-90 | With `,` in a permission, different permission sets share an id |
| AdmissionRuns.ChangedArtifactIsReviewedAfresh | ghostchimera/capability_admission.py:173-255 | A changed version, digest or permission set, compared as sets, leaves the old record untouched unless the step forgets those on file, and answers with another, fresh if new |
| AdmissionRuns.ReviewCarriesOverBars | ghostchimera/capability_admission.py:173-255 | An approval is inherited across the separator |
| AdmissionRuns.ReviewCarriesOverCommas | ghostchimera/capability_admission.py:173-255 | An approval for the permission `a,b` answers, still approved, for the permissions `a` and `b` |
| AdmissionRuns.ApprovedPermissionsMatchTheId | ghostchimera/capability_admission.py:290-293 | Without those separators in any registered identity, and without digest collisions, the permissions approved for a reviewed record are those of its id up to trimming and case, whatever was registered since |
| AdmissionRuns.CleanInEveryHistory | ghostchimera/capability_admission.py:339-343 | What is stored is always redacted, and redacting it again changes nothing |

## Left out

- KeysEgressIdempotentIff: the scrub is the first secret pattern alone; for the whole of `redact_egress_text` the exact condition is `EgressIdempotentIff`, given what the other patterns do.
- SameAsOneByOneIff: assumes that no group the call comes to raises, since otherwise there is no output to compare.
- ApprovedPermissionsMatchTheId: assumes that SHA-1 prefixes do not collide and that the scrubber leaves the requested permissions alone.
- PlainRunsResumeOncePerBoundary: assumes that SHA-1 prefixes do not collide and that the clock advances between calls; step types, statuses and keys of the kinds it excludes are accepted by the store, and `TrustBars` proves that they fail.
- ViewsAgree: assumes that no load fails on a file with entries; `TrustHistories` says what each failed load loses.
- MeanWeightedMax: arithmetic is over the reals; floating point and the rounding to four places, which is monotone, are not modelled.
- EveryJobHasOneStory: within one life of the process; after a restart a job takes up the status that is in the file.
- ResumeRun: resume tokens and the replies' texts are not modelled; nor is a run id ending in `.tools`, whose journal path coincides with the tool file of another run.
- StepKept: directory syncs, file modes, Windows locking, fork handling and torn appends are not modelled; nor are files that something else wrote, or saves of a value that is not an object, which a later load would quarantine; a rename and a one-line append are single steps, and what a body makes depends only on the document it loaded.
- ResolutionsAreBacked: one direction; a crash between the two writes of a decision leaves a resolved checkpoint without its record.
- Histories of the admission registry: its calls take no lock and are modelled one at a time.
- Regular expressions, entropy tests and base64 decoding of the string scrubbers; they are one parameter.
- Each store operation sees one clock reading, a whole number of ticks.
- Text is ASCII where the code lowers, strips or looks for digits.
- `replay_run`, `simulate_replay`, `export_trace`, `trust_status`, sessions and eval baselines: reporting over the same state.
- The scheduler's ranking, the policy, telemetry, checkpoints and result envelopes of the executor: the ranked list, the verdicts and the policy's answers are inputs.
- `validate_request` of the queue, and two processes sharing one queue directory, which the queue does not lock against.
- The inspection dictionary of admission records, which is merged like the metadata, and their listing and summary.
- The greedy budget loop and whitespace passes of the compressor, which do not restore exact text.
- HTTP handlers, model providers, gateways, desktop adapters and command lines.
