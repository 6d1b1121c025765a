# A verified model of the AI web testing backend

This Dafny project models the state-changing cores of the Go backend and proves what
they keep, over every input, every run and every interleaving.

- **Execution queue** (`Recovery`, `RecoveryMeaning`, `Queue`, `QueueMeaning`, `QueueInvariant`,
  `QueueProtocol`, `QueueRuns`, `QueueLease`, `QueueStatus`, `QueueStore`).
  Batches own jobs, jobs own runs; workers claim under a lease, start, dispatch and finish
  while the clock ticks, leases expire, workers are lost and clients cancel. `Queue` gives
  one function per database transaction, `QueueMeaning` what each of them does to every
  column, `QueueStore` the transactions as they run, and `QueueProtocol` any number of
  workers over them; `QueueRuns` and `QueueLease` hold the theorems over whole runs. The
  status a batch ends with is not frozen: `QueueStatus` shows a run that rewrites a passed
  batch and says exactly when a status is kept.
- **DSL** (`Text`, `Json`, `DslCase`, `DslMeaning`, `DslDemands`, `DslFixpoint`, `ResearchV2`,
  `DslValidate`, `DslValidator`, `CaseBindings`). A case is a JSON object; validators accept it
  and canonicalisation rewrites it. `DslDemands` says what acceptance demands and `DslMeaning`
  that the canonical case still says what the author wrote. The canonical form is a fixpoint,
  and validating it again succeeds exactly when no condition has an explicit null `method`:
  the code uppercases that null to `""`, which its own validator then refuses.
- **Plan compiler** (`BrowserContract`, `Compiler`, `CompilerSound`, `CompilerChecks`,
  `CompilerLineage`, `CompilerExecutable`, `CompilerGaps`). A draft and a grounded plan become an
  executable case, and the conditions under which the later validators accept it are given
  exactly, as properties of the draft and the plan; two valid drafts show that the failing
  sides occur.
- **Tool summaries and the exploration gate** (`Summary`, `SummarySize`, `Transcript`,
  `Compaction`, `Governance`, `GovernanceMeaning`, `ExplorationLimits`, `Pairing`). Summaries
  shrink against a byte budget, one batch at a time and no further than needed, with an
  omission ledger; the gate recomputes its counters from the transcript that compaction
  rewrites; the turn loop keeps tool calls and answers paired.
- **Research control plane** (`ResearchLog`, `ResearchLogMeaning`, `ResearchControl`). An
  append-only log with idempotent replay, compare-and-swap replacement and keyset paging,
  and service calls whose checks and writes are separate transactions.
- **Agent run log and broker** (`AgentLog`, `AgentProtocol`, `Broker`). Dense event sequences, a
  cancellation that races with every other operation, and one-slot wake channels.

Each file holds one module. Code that changes state in the source is a class or a method
with loops here, proved against a function whose properties are then proved as lemmas;
code that only computes is functions and lemmas. Lemmas that end in `Means`, `Iff` or `Kept`
say what such a function computes in terms of its input alone, not of its helpers: field by
field, row by row, or as the exact condition under which it accepts. Every database
transaction is one atomic step. Hashes, JSON encoding, `unicode.ToUpper`, `url.Parse`, the condition-intent parser and
the encoded size of a summary are function parameters; where a law is needed (a round
trip, injectivity, idempotence) the lemma that needs it states it.

Where code and documentation disagree, the model follows the code. The comment on
`governanceOutcome` says the last completed attempt decides; the loop returns the first.
`requiresManualRecovery` depends on Go map order for some inputs (`Recovery.OrderMatters`);
that it never does so for a reachable expired job is a theorem about the whole queue.

## Model

| member | source | states |
|---|---|---|
| `Recovery.WalkOrders` | backend-go/internal/execution/worker_store.go:344-361 | the closed form of the answers of the loop over the protected map is exact: an answer is possible if and only if some order of the map keys produces it |
| `Recovery.OrderIndependence` | backend-go/internal/execution/worker_store.go:344-361 | the recovery answer is the same for every map order if and only if the protected steps do not mix one that blocks with one that clears |
| `Recovery.OrderMatters` | backend-go/internal/execution/worker_store.go:344-361 | a concrete report for which two map orders give different answers |
| `Recovery.DecidedWithoutReport` | backend-go/internal/execution/worker_store.go:287-363 | while the last run is missing or still running without a report, every map order blocks a protected case and clears an unprotected one |
| `Recovery.ResearchRequiresManualRecovery` | backend-go/internal/execution/worker_store.go:316-363 | answers no without protected steps, yes without run or report, and otherwise one of the answers some map order gives |
| `Recovery.RequiresManualRecovery` | backend-go/internal/execution/worker_store.go:267-314 | every answer is one the recovery rules allow, for unreadable, research and legacy cases |
| `RecoveryMeaning.EvidenceMeans` | backend-go/internal/execution/worker_store.go:322-343 | the evidence of a step is the last report entry about it |
| `RecoveryMeaning.ResearchMeans` | backend-go/internal/execution/worker_store.go:316-363 | a research case is never held back without a risky step and always without run or report; otherwise yes is possible exactly when a risky step was lost in a running run or its last entry leaves its effect possible, and no exactly when some risky step was never reported by an ended run or none holds the job back |
| `RecoveryMeaning.LegacyMeans` | backend-go/internal/execution/worker_store.go:267-314 | a legacy case is held back exactly when it clicks and its run is missing, running or without report, or the report shows a click that may have happened, or no click |
| `RecoveryMeaning.UnreadableMeans` | backend-go/internal/execution/worker_store.go:267-286 | a case that cannot be read is always held back |
| `Queue.CreateReplay` | backend-go/internal/execution/store.go:83-105 | repeating a batch request with its idempotency key creates nothing and names the first batch, or conflicts for another project |
| `QueueMeaning.ClaimableMeans` | backend-go/internal/execution/worker_store.go:112-138 | a job may be taken exactly when it is pending, or running with an ended lease, and its batch, attempts, cancellation flag and concurrency allow it |
| `QueueMeaning.ClaimMeans` | backend-go/internal/execution/worker_store.go:166-194 | a claim writes status, worker, attempts and a lease that ends the requested seconds (1800 when none) after the clock, starts job and batch once, and nothing else |
| `QueueMeaning.QuarantineMeans` | backend-go/internal/execution/worker_store.go:196-265 | a quarantine ends the named jobs and their running runs as needing intervention at the clock, refreshes their batches and touches no other row |
| `QueueMeaning.FinishMeans` | backend-go/internal/execution/worker_store.go:440-502 | a finish of the owner writes status, report and clock to job and run and refreshes the batch; any other finish changes nothing |
| `QueueMeaning.RefreshMeans` | backend-go/internal/execution/worker_store.go:504-529 | a refresh writes, for each status exactly when the jobs call for it, the status of a batch and the finish time of one that has just ended |
| `QueueMeaning.CancelMeans` | backend-go/internal/execution/store.go:575-611 | cancelling ends the pending jobs, flags the running ones and ends the batch unless one runs |
| `QueueMeaning.CreateMeans` | backend-go/internal/execution/store.go:69-219 | a created batch and its jobs, column by column: one pending job per distinct case, in order |
| `QueueMeaning.ProtectedMeans` | backend-go/internal/execution/worker_store.go:267-343 | a case is protected exactly when it cannot be read, is a research case with a step that is not idempotent or reaches outside, or is another case with a click |
| `QueueStore.UniqueInt64s` | backend-go/internal/execution/store.go:315-326 | keeps the first occurrence of every id, in order: no id twice, none lost, none added |
| `QueueStore.FirstExists` | backend-go/internal/execution/worker_store.go:135 | among any non-empty set of claimable jobs the claim order has a least one |
| `QueueStore.FirstUnique` | backend-go/internal/execution/worker_store.go:135 | the claim order (batch creation, batch id, order index, job id) has only one first job |
| `QueueStore.Store.LatestRun` | backend-go/internal/execution/worker_store.go:204-210 | reads status and report of the run with the largest id of the job, or neither when it has none |
| `QueueStore.Store.QuarantineUnsafeExpiredJobs` | backend-go/internal/execution/worker_store.go:196-265 | for any row and batch order, quarantines exactly a set of expired jobs the recovery decision allows: these jobs and their running runs need intervention from the clock on, their batches are refreshed, and every other row is as before |
| `QueueStore.Store.ClaimNextJob` | backend-go/internal/execution/worker_store.go:88-194 | refuses an empty worker id; otherwise quarantines and then claims the first claimable job in order, with a lease that ends the requested seconds (1800 when none) after the clock, or none only when no job is claimable; no other job changes |
| `QueueStore.Store.StartClaimedJobRun` | backend-go/internal/execution/worker_store.go:375-416 | inserts one running run row for the claim, or none when the DSL fails validation |
| `QueueStore.Store.FinishClaimedJobRun` | backend-go/internal/execution/worker_store.go:440-502 | commits only for a terminal status, a report and the current lease owner, and then writes them with the clock to job and run and refreshes the batch; otherwise job, run and batch rows are untouched |
| `QueueStore.Store.RefreshBatchStatus` | backend-go/internal/execution/worker_store.go:504-529 | sets each status exactly when the jobs call for it, and the finish time of a batch that has just ended, and nothing else |
| `QueueStore.Store.CreateBatch` | backend-go/internal/execution/store.go:69-219 | creates one batch and one pending job per distinct selected case, or changes nothing and reports the first failing check |
| `QueueStore.Store.CancelBatch` | backend-go/internal/execution/store.go:575-611 | cancels pending jobs, flags running ones, and sets the batch status and finish time from what still runs |
| `QueueInvariant.QuarantineDecided` | backend-go/internal/execution/worker_store.go:196-363 | under the invariant exactly the expired jobs with a protected case are quarantined, whatever the map order |
| `QueueInvariant.ClaimKeeps` | backend-go/internal/execution/worker_store.go:88-194 | a claim keeps the invariant and undoes nothing, provided an expired protected job was quarantined first |
| `QueueInvariant.QuarantineKeeps` | backend-go/internal/execution/worker_store.go:196-265 | quarantine keeps the invariant and undoes nothing |
| `QueueInvariant.FinishKeeps` | backend-go/internal/execution/worker_store.go:440-502 | a finish keeps the invariant and undoes nothing, whoever calls it |
| `QueueInvariant.CancelKeeps` | backend-go/internal/execution/store.go:575-611 | cancelling a batch keeps the invariant and undoes nothing |
| `QueueInvariant.CreateKeeps` | backend-go/internal/execution/store.go:69-219 | creating a batch keeps the invariant and undoes nothing |
| `QueueRuns.ProtectedDispatchedOnce` | backend-go/cmd/execution-worker/main.go:91-122 | in every run of any number of workers, with crashes, cancels, deletions and clock ticks, a protected case reaches the browser at most once |
| `QueueRuns.AttemptsCountClaims` | backend-go/internal/execution/worker_store.go:166-178 | the attempt count of a job is the number of claims the whole run made of it |
| `QueueRuns.ProtectedClaimedOnce` | backend-go/internal/execution/worker_store.go:88-265 | a protected job is claimed at most once, and an expired one is quarantined by the next claim transaction before any job is taken |
| `QueueRuns.RecoveryIsDeterministic` | backend-go/internal/execution/worker_store.go:267-363 | in every reachable state the recovery decision is the same for every map order |
| `QueueRuns.LeaseFencing` | backend-go/internal/execution/worker_store.go:440-502 | a finish commits only for the worker that owns the job, for the attempt of its latest claim; a losing finish leaves every row untouched |
| `QueueLease.LeaseRespected` | backend-go/internal/execution/worker_store.go:112-180 | in every run a job claimed at clock c for s seconds (1800 when s is less than 1) is claimed again or quarantined only at a clock after c + s |
| `QueueLease.LeaseExclusive` | backend-go/internal/execution/worker_store.go:166-180 | until that clock the job has finished or still runs for the worker that claimed it, under that very lease |
| `QueueRuns.TerminalJobsFrozen` | backend-go/internal/execution/worker_store.go:166-180 | a terminal job row never changes again, and a job runs exactly while it has an owner and a lease |
| `QueueRuns.BatchAgreesWithJobs` | backend-go/internal/execution/worker_store.go:504-529 | a non-empty batch is active exactly when one of its jobs is, pending only before its first claim, needs intervention or reads failed only over such a job, reads passed only if its jobs are passed or cancelled with one passed, and never becomes active again |
| `QueueStatus.TerminalStatusKept` | backend-go/internal/execution/store.go:575-611 | from any point of any run where a batch is inactive, its row stays as it is until the batch is cancelled and reads cancelled afterwards: its status is kept if and only if it was cancelled already or no cancellation of it follows |
| `QueueStatus.CancelOverwritesPassed` | backend-go/internal/execution/store.go:589-602 | a concrete run (created, claimed, started, dispatched, finished, cancelled) in which a batch whose job passed reads passed and then cancelled |
| `QueueRuns.OneActiveBatchPerSession` | backend-go/internal/execution/store.go:123-138 | two active batches of one planning session are the same batch |
| `QueueRuns.ConcurrencyCap` | backend-go/internal/execution/worker_store.go:112-138 | at every clock value a batch has at most its concurrency limit of running jobs with an unexpired lease |
| `Text.Trim` | backend-go/internal/dsl/store.go:464-474 | trimming is idempotent, never lengthens, and fixes exactly the trimmed strings |
| `DslFixpoint.ConditionAccepted` | backend-go/internal/dsl/store.go:443-462 | a canonical condition is accepted again if and only if the original method is not an explicit null |
| `DslFixpoint.AnchorKept` | backend-go/internal/dsl/store.go:700-743 | canonicalisation never changes whether a cross-page anchor click asserts the URL it leads to |
| `DslFixpoint.ProvenanceKept` | backend-go/internal/dsl/action_ir.go:472-493 | a locator strategy that canonicalisation renames never carries verified provenance |
| `DslFixpoint.StepFixpoint` | backend-go/internal/dsl/store.go:353-441 | the canonical legacy step is a fixpoint |
| `DslFixpoint.StepAccepted` | backend-go/internal/dsl/store.go:483-552 | a canonical legacy step is accepted again if and only if no condition of the step has an explicit null method |
| `DslFixpoint.ResearchStepFixpoint` | backend-go/internal/dsl/action_ir.go:507-555 | the canonical research-v1 step is a fixpoint |
| `DslFixpoint.ResearchStepAccepted` | backend-go/internal/dsl/action_ir.go:244-297 | a canonical research-v1 step is accepted again in its phase if and only if no condition has an explicit null method |
| `DslFixpoint.LegacyFixpoint` | backend-go/internal/dsl/store.go:256-325 | the canonical legacy case is a fixpoint |
| `DslFixpoint.ResearchFixpoint` | backend-go/internal/dsl/action_ir.go:150-218 | the canonical research-v1 case is a fixpoint |
| `DslMeaning.SameReading` | backend-go/internal/dsl/store.go:464-474 | a field that canonicalisation carries reads, trimmed, as the original read |
| `DslMeaning.StepKept` | backend-go/internal/dsl/store.go:353-462 | the canonical legacy step says what the author wrote: every field its action has reads the same up to surrounding white space, candidates and conditions one for one, numbers unchanged, the defaults 3000 and 5000 where none were given, and no other field |
| `DslMeaning.ResearchStepKept` | backend-go/internal/dsl/action_ir.go:507-555 | the same for a research-v1 step, with its metadata, lineage and locator fields |
| `DslMeaning.V2StepKept` | backend-go/internal/dsl/research_v2.go:126-144 | materialising a research-v2 step changes nothing but default timeouts |
| `DslMeaning.LegacyKept` | backend-go/internal/dsl/store.go:316-351 | the canonical legacy case keeps name, description, base URL and both contracts, with `required` true by default, and keeps every step in order |
| `DslMeaning.ResearchKept` | backend-go/internal/dsl/action_ir.go:150-218 | the same for a research-v1 case and its profile |
| `DslMeaning.V2Kept` | backend-go/internal/dsl/research_v2.go:14-124 | the same for a research-v2 case, with its plan and observation bindings |
| `DslDemands.LegacyIff` | backend-go/internal/dsl/store.go:256-308 | a legacy case is accepted exactly when header, contracts and every step meet the written-out demands of their action |
| `DslDemands.StepIff` | backend-go/internal/dsl/store.go:483-552 | the demands on a legacy step, action by action |
| `DslDemands.LinkIff` | backend-go/internal/dsl/store.go:700-743 | a click is accepted exactly when a url_contains postcondition asserts where its first usable cross-page link leads, or when it has no such link |
| `DslDemands.ResearchHolds` | backend-go/internal/dsl/action_ir.go:150-470 | what an accepted research-v1 case and each of its steps is sure to carry, in either phase |
| `DslDemands.V2StepHolds` | backend-go/internal/dsl/research_v2.go:146-320 | what an accepted research-v2 step is sure to carry, in either phase |
| `ResearchV2.ValidateObservationBindings` | backend-go/internal/dsl/research_v2.go:322-357 | the answer holds every entry under its own id, field by field, and nothing else; there is none exactly when an entry is malformed, incomplete or repeats an id |
| `ResearchV2.BindingsIff` | backend-go/internal/dsl/research_v2.go:322-357 | a map is the index of the entries exactly when it holds each under its id, no id repeats, and it holds nothing else |
| `ResearchV2.ValidateStepLineage` | backend-go/internal/dsl/research_v2.go:359-394 | accepts exactly the step lists whose every click, input, capture_text and assert_text names a listed binding and repeats its probe, observation, hash and page state, or has no lineage where the binding has none |
| `ResearchV2.MaterializedFixpoint` | backend-go/internal/dsl/research_v2.go:126-144 | materialising defaults twice is materialising them once |
| `ResearchV2.V2Canonical` | backend-go/internal/dsl/research_v2.go:14-124 | every accepted research-v2 case is accepted again in canonical form, which is a fixpoint |
| `DslValidate.CanonicalFixpoint` | backend-go/internal/dsl/action_ir.go:93-112 | for all three profiles canonicalising twice is canonicalising once |
| `DslValidate.ValidateAgain` | backend-go/internal/dsl/action_ir.go:59-112 | validating a canonical case again gives the identical result (fields, base URL, profile, version) if and only if the case is restorable, and is a rejection otherwise |
| `DslValidate.NullMethodBreaks` | backend-go/internal/dsl/store.go:453-455 | a concrete accepted legacy case with an explicit null method whose canonical form is rejected |
| `DslValidate.ValidateMeans` | backend-go/internal/dsl/action_ir.go:59-112 | an accepted case is returned with the reading its profile keeps, its base URL, and the format version of its profile |
| `DslValidator.ValidateConditions` | backend-go/internal/dsl/store.go:638-698 | the checking loop accepts exactly the valid condition lists, each condition by its type |
| `DslValidator.ValidateCandidates` | backend-go/internal/dsl/store.go:602-636 | the checking loop accepts exactly the valid candidate lists |
| `DslValidator.VerifiedCrossPageAnchorHref` | backend-go/internal/dsl/store.go:700-717 | returns the first usable cross-page link, and nothing exactly when there is none |
| `DslValidator.HasTargetURLPostcondition` | backend-go/internal/dsl/store.go:719-743 | finds a matching url_contains postcondition exactly when there is one |
| `DslValidator.CanonicalConditions` | backend-go/internal/dsl/store.go:443-462 | rebuilds the condition list element by element |
| `DslValidator.ValidateContracts` | backend-go/internal/dsl/store.go:563-600 | the checking loop accepts exactly the valid contract lists |
| `DslValidator.ValidateStep` | backend-go/internal/dsl/store.go:483-552 | accepts exactly the steps that meet the demands of their action |
| `DslValidator.CaseProfile` | backend-go/internal/dsl/action_ir.go:114-148 | deletes or normalises the profile field in place; a case without one is legacy |
| `DslValidator.ValidateLegacyCase` | backend-go/internal/dsl/store.go:256-308 | accepts exactly the valid legacy cases, and returns a case that says what the author wrote; the edits to the candidate change neither what is checked nor the canonical case |
| `DslValidator.MaterializeDefaults` | backend-go/internal/dsl/research_v2.go:126-144 | writes the default timeouts into the step and its condition lists |
| `CaseBindings.ValidateDSLBindings` | backend-go/internal/execution/store.go:221-248 | accepts exactly the bindings of selected cases that validate, re-encode to the same bytes and match their hash |
| `CaseBindings.ValidatePersistedCaseBindings` | backend-go/internal/execution/store.go:279-313 | accepts exactly when every selected persisted case is executable and matches its binding |
| `CaseBindings.AllBoundIff` | backend-go/internal/execution/store.go:221-248 | the batch accepts exactly the bindings that are for selected cases, hold the canonical text of a valid case at its version, one of the three known, and carry its hash in any letter case |
| `CaseBindings.AllCasesIff` | backend-go/internal/execution/store.go:279-313 | every selected persisted case must be valid, legacy without a binding, and otherwise the bound text and version |
| `CaseBindings.GenerationBinds` | backend-go/internal/dsl/store.go:85-174 | a created generation passes the later binding check, reads back unchanged and matches its persisted case if and only if the submitted case is restorable |
| `CaseBindings.GenerationMeans` | backend-go/internal/dsl/store.go:85-174 | the text of a created generation is that of a case that says what the author wrote, under its own hash and version |
| `CaseBindings.GenerationsAdmitted` | backend-go/internal/execution/store.go:221-248 | the binding check accepts the bindings of created generations for a selection if and only if each belongs to a selected case and is restorable |
| `CaseBindings.ClaimedJobIff` | backend-go/internal/execution/worker_store.go:418-438 | a claimed job starts exactly when its text is a valid case with the stored version and hash, wherever one is stored |
| `CaseBindings.AcceptedBindingStarts` | backend-go/internal/execution/worker_store.go:418-438 | the job of an accepted binding passes the check at its start if and only if its hash is spelled verbatim: acceptance folds case, the start does not |
| `CaseBindings.GenerationStarts` | backend-go/internal/execution/worker_store.go:418-438 | the job of a created generation starts if and only if the generation is restorable; with its hash in another case it is accepted and never starts |
| `BrowserContract.Validate` | backend-go/internal/browsercontract/types.go:266-347 | accepts exactly the bindings with every text given, distinct element refs, usable candidates under distinct ids, a selected one that was found once, is visible and, for a click or input, enabled, and the hash of the rest |
| `BrowserContract.LocatorDepth` | backend-go/internal/browsercontract/types.go:349-355 | in a valid locator the recursive kind search never looks deeper than one level |
| `BrowserContract.NewTargetBinding` | backend-go/internal/browsercontract/types.go:238-264 | returns the one binding that differs from its source in schema, name, hash and null paths only, is named by the digest of the rest and hashed; and none exactly when that binding is not valid |
| `BrowserContract.SealedStable` | backend-go/internal/browsercontract/types.go:238-264 | sealing a sealed binding again gives the same id and hash |
| `BrowserContract.DeterminedById` | backend-go/internal/browsercontract/types.go:250-257 | two sealed bindings with the same id are equal when their digests do not collide |
| `Compiler.ExpandedPlanSteps` | backend-go/internal/taskplan/compiler.go:230-238 | expands the plan steps by their expected occurrences |
| `Compiler.ExpandedAt` | backend-go/internal/taskplan/compiler.go:230-238 | the occurrences of a plan step stand together, after those of all earlier steps |
| `Compiler.ExpandedNever` | backend-go/internal/taskplan/compiler.go:230-238 | a plan step that is expected no time contributes nothing |
| `Compiler.CompileDraftCase` | backend-go/internal/taskplan/compiler.go:13-112 | compiles exactly the drafts whose every step repeats the plan step it stands for (id, normalised action, value, trigger, context key, idempotency, side effect, and the timeout when the plan has one), leaves target and lineage to the compiler, names the bound target and meets the planned conditions; the result repeats them, takes target, candidates and lineage from the plan, keeps everything else, and lists every binding once |
| `Compiler.AgreesIff` | backend-go/internal/taskplan/compiler.go:143-228 | a draft step is accepted exactly when it agrees with its plan step, field by field |
| `Compiler.DraftAgreesIff` | backend-go/internal/taskplan/compiler.go:13-112 | a draft is accepted exactly when the plan is current and ready and the draft has one agreeing step per expected occurrence |
| `Compiler.CompiledCaseBound` | backend-go/internal/taskplan/compiler.go:13-228 | the compiled case of an accepted draft, field by field: what comes from the plan, what from the author, and the binding list |
| `CompilerSound.StepIff` | backend-go/internal/taskplan/compiler.go:143-228 | a compiled step passes the compiled-case check if and only if its draft step was faithful |
| `CompilerSound.CompilationPreservesPlan` | backend-go/internal/taskplan/compiler.go:249-347 | the compiled case has exactly the occurrence-expanded plan steps in order, and passes the compiled-case validator if and only if every draft step is faithful |
| `CompilerChecks.CaseReadIff` | backend-go/internal/taskplan/compiler.go:249-347 | the compiled-case check accepts exactly the cases with the profile, the plan binding and one step per expected occurrence whose every plan-owned field, condition, binding id, lineage field and candidate reads as the plan has it |
| `CompilerLineage.ObservedAccepted` | backend-go/internal/dsl/research_v2.go:322-357 | deduplicated valid bindings are accepted exactly when both hashes of each are hexadecimal, and are then indexed by id |
| `CompilerLineage.StepLineage` | backend-go/internal/dsl/research_v2.go:359-394 | the lineage of a compiled step agrees with the bindings if and only if its draft step is traceable |
| `CompilerLineage.CompilationTracesPlan` | backend-go/internal/dsl/research_v2.go:322-394 | the observation bindings of a compiled case are accepted exactly when their hashes are hexadecimal, and its lineage then passes exactly when every draft step is traceable |
| `CompilerExecutable.StepRuns` | backend-go/internal/dsl/research_v2.go:146-311 | the compiled form of a valid draft step is a valid executable step if and only if the plan's target, candidates and lineage texts are within the executable phase's bounds |
| `CompilerExecutable.CompilationRuns` | backend-go/internal/dsl/research_v2.go:14-124 | a valid draft that compiles becomes a valid executable case if and only if the hashes are hexadecimal and every step is traceable and runnable |
| `CompilerExecutable.CompilationSucceeds` | backend-go/internal/taskplan/compiler.go:13-112 | the compiled-case check and the executable validator both accept, and accept the canonical form too, if and only if every step is faithful, traceable and runnable and the hashes are hexadecimal |
| `CompilerGaps.PaddedIdRefused` | backend-go/internal/taskplan/compiler.go:249-347 | a concrete valid draft (plan_step_id with a trailing space) that compiles to a valid executable case and fails the compiled-case check |
| `CompilerGaps.UngroundedAssertRefused` | backend-go/internal/taskplan/compiler.go:240-247 | a concrete valid draft (a text assertion without a plan binding) that compiles, passes the compiled-case check and fails the lineage check |
| `Summary.Cell.PageWithMostNodes` | backend-go/internal/agent/tool_result.go:1348-1358 | finds the first page with the most nodes, or that no page has any |
| `Summary.Cell.OmitOneSummaryDetail` | backend-go/internal/agent/tool_result.go:1309-1346 | drops exactly one batch, a quarter and at least one, of the first page with the most nodes, else of the last action with evidence, else of the last page with actions, and books it at summary, page and action level; it fails only when nothing is left |
| `Summary.MakePageReferenceOnly` | backend-go/internal/agent/tool_result.go:1360-1382 | strips a page, keeps its identity, and counts exactly the nodes, actions, evidence and selectors it drops |
| `Summary.Cell.MakeSummaryReferenceOnly` | backend-go/internal/agent/tool_result.go:1384-1394 | strips every page and books exactly all nodes, actions, evidence and selectors they had |
| `Summary.Cell.EncodeSummary` | backend-go/internal/agent/tool_result.go:1274-1302 | the encoding after three size passes; its signature is the hash of the summary without it, an exploration summary shows the observation of its own pages, pages and ledger are untouched, and it fails only when marshalling does |
| `SummarySize.ReportedSizeExact` | backend-go/internal/agent/tool_result.go:1274-1302 | the size a summary reports of itself, which its encoding contains, is exactly the size of that encoding, whatever number stood there before |
| `Summary.Cell.EncodeBoundedSummary` | backend-go/internal/agent/tool_result.go:1240-1272 | for any size function: each encoding on the way is over the target and the next one has exactly one batch less, so nothing is dropped once the target is met; only with no detail left do pages become references, and pages go one at a time while over the hard limit; the answer is none only for a failed encoding or a summary over the hard limit without pages; and what is kept plus what is booked never changes |
| `Compaction.PassOne` | backend-go/internal/agent/tool_result.go:667-704 | strips only pages a later event superseded, never one at the newest event for its URL and state; every superseded page of a summary it reaches is stripped, and it reaches none once the total is within budget |
| `Compaction.PassTwo` | backend-go/internal/agent/tool_result.go:705-720 | makes summaries references oldest first, each only while the total is over budget and all before it are references, and leaves the budget met or every summary a reference |
| `Compaction.CompactExplorationTranscript` | backend-go/internal/agent/tool_result.go:643-721 | the running total is the real exploration bytes plus the size change of the other summaries it rewrote; on exit it is within the budget or every tool summary is reference-only; the first pass keeps every newest page, and when it meets the budget nothing more is changed; messages change only by booked omissions |
| `Transcript.ModelContext` | backend-go/internal/agent/loop.go:123-130 | the backward scan returns the segment from the last boundary, or everything when there is none |
| `Transcript.FromBoundaryAppend` | backend-go/internal/agent/loop.go:123-130 | appending a message extends the segment, or starts a new one at a boundary |
| `Governance.BuildExplorationState` | backend-go/internal/harness/policy.go:274-324 | the counters are the fold of the transcript under the current plan |
| `Governance.GovernanceOutcome` | backend-go/internal/harness/policy.go:169-210 | the first completed attempt of the same call decides |
| `GovernanceMeaning.OutcomeMeans` | backend-go/internal/harness/policy.go:169-210 | the outcome of a call is that of the first tool message that answers a call of the same name and signature, as last proposed under its id, with a summary or a recorded error; none when there is none |
| `GovernanceMeaning.RefusedMeans` | backend-go/internal/harness/policy.go:121-167 | a governance call is refused exactly when its first completed attempt did not succeed: a success never blocks a repetition, a failure always does |
| `GovernanceMeaning.StateMeans` | backend-go/internal/harness/policy.go:274-324 | each counter is the number of transcript messages that are probes with that tool, are such probes under the plan, or answer a call of that signature |
| `GovernanceMeaning.GateMeans` | backend-go/internal/harness/policy.go:212-272 | each refusal of an exploration call, with its order and its limit: the configured one, or 10, 8, 5, 4 and 1 |
| `GovernanceMeaning.BudgetMeans` | backend-go/internal/harness/policy.go:360-426 | the reported budget: each counter with the call included, its limit, and what is left |
| `Governance.StatePreserved` | backend-go/internal/harness/policy.go:274-324 | compaction changes no exploration counter, for every transcript and plan |
| `Governance.OutcomePreserved` | backend-go/internal/harness/policy.go:169-210 | compaction changes no governance outcome, for every transcript and call |
| `Governance.CompactionPreservesGates` | backend-go/internal/harness/policy.go:121-272 | every gate decision is the same before and after compaction |
| `Governance.ExplorationBudget` | backend-go/internal/harness/policy.go:360-426 | computes the budget with the completed call counted in |
| `Governance.ReportedBudget` | backend-go/internal/harness/harness.go:826-864 | the budget reported with a result is the state the next gate computes, and a remaining count of zero is exactly a refusal |
| `ExplorationLimits.LimitsHold` | backend-go/internal/harness/policy.go:212-272 | in every run, across any number of plan versions and compactions, the run, plan-version and repeated-call limits hold, each the configured one, or 10, 8, 5, 4 and 1 |
| `Pairing.Harness.RunToolCalls` | backend-go/internal/harness/harness.go:579-905 | the tool-call loop appends answers, handoffs and id changes call by call, and stops at a call that waits |
| `Pairing.PlayedAnswers` | backend-go/internal/harness/harness.go:579-905 | a turn answers its calls in order, each once, up to the first that waits for the user |
| `Pairing.PlayedWaits` | backend-go/internal/harness/harness.go:739-767 | then the run waits for that call, and otherwise goes on |
| `Pairing.PlayedProducts` | backend-go/internal/harness/harness.go:767-800 | the last generation or plan a turn produces decides the latest generation and withdraws any approval; without one both stay |
| `Pairing.Harness.Resume` | backend-go/internal/harness/harness.go:1074-1143 | an answer to another call changes nothing; an answer to the pending call clears it, and unless its approval fails becomes the tool message, approves the latest generation when it carries an approval, and lets the loop go on; a failed approval changes nothing else |
| `Pairing.NextRequestPaired` | backend-go/internal/harness/harness.go:579-909 | from a paired request the next one is paired if and only if no call but the last waits, and none but the last opens a segment unless the last opens another |
| `Pairing.EveryRequestPaired` | backend-go/internal/agent/loop.go:69-130 | in every run whose turns carry at most one call, with any answers and with compaction on or off, every model request answers each of its calls and holds no other answers, also behind a handoff |
| `Pairing.FailedApprovalStrands` | backend-go/internal/harness/harness.go:1088-1126 | an answer resumes the run if and only if its approval does not fail; a failed approval leaves a run that takes no further answer and makes no further request |
| `Pairing.CompactionKeepsShape` | backend-go/internal/harness/harness.go:860-869 | what the per-turn compaction does to a transcript is a rewriting of contents, as the pairing runs allow it |
| `Pairing.PauseBeforeLastCall` | backend-go/internal/harness/harness.go:739-767 | a two-call turn whose first call pauses the run breaks the next request |
| `Pairing.PairedMeaning` | backend-go/internal/agent/loop.go:111-130 | in a paired request the call of every tool message stands before it |
| `Pairing.ApprovedIsLatest` | backend-go/internal/harness/harness.go:767-780 | in every run an approved generation is the latest one: a new generation or plan withdraws the approval |
| `ResearchLog.StateFromTransitions` | backend-go/internal/research/projection_repository.go:272-341 | the scan computes the projection state, or refuses ordinal gaps and unsound, mixed or inconsistent manifests |
| `ResearchLogMeaning.StateMeans` | backend-go/internal/research/projection_repository.go:272-341 | rows make a state exactly when they are numbered from 0, their manifests are sound, and all or none carry one of one hash that counts them; the state counts and hashes exactly these rows |
| `ResearchLog.Table.AppendTransitions` | backend-go/internal/research/postgres.go:544-639 | appends or replays the whole batch, or leaves the log as it was; the log stays dense |
| `ResearchLogMeaning.SubmittedIff` | backend-go/internal/research/postgres.go:544-639 | a batch is accepted exactly when its transitions are valid and consecutive, start in the log or right behind it, repeat the rows they overlap and bring new keys beyond |
| `ResearchLogMeaning.AppendAllIff` | backend-go/internal/research/postgres.go:584-635 | an accepted batch adds exactly its transitions beyond the log, and answers each with its row |
| `ResearchLog.Table.ReplaceProjection` | backend-go/internal/research/projection_repository.go:74-236 | replaces the rows only for the versions and event cursor the run still has and only against the state the caller read, or leaves them as they were; the log stays dense |
| `ResearchLogMeaning.ReplaceIff` | backend-go/internal/research/projection_repository.go:74-236 | a replacement goes through exactly when run and agent run have not moved, the stored state is the expected one, and the new rows are valid, distinct and all of one sound manifest that counts them; these rows, numbered and rehashed, are then the log |
| `ResearchLog.AppendAllKeeps` | backend-go/internal/research/postgres.go:584-635 | an accepted batch only extends the log, and every transition of it is the row at its ordinal |
| `ResearchLog.ReplayIdempotent` | backend-go/internal/research/postgres.go:592-606 | replaying an accepted batch, at once or after further appends, returns the same rows and changes nothing |
| `ResearchLog.ReplaceIsExact` | backend-go/internal/research/projection_repository.go:188-196 | a replacement succeeds only if the log has the ordinals, keys and contents its caller read |
| `ResearchLog.ReplaceSucceeds` | backend-go/internal/research/projection_repository.go:188-236 | against an unchanged log a usable replacement succeeds if and only if the run still has the versions and event cursor of its manifest |
| `ResearchLog.AlwaysDense` | backend-go/internal/research/postgres.go:544-639 | under any interleaving of appends and replacements the ordinals are exactly 0 to n-1 |
| `ResearchLog.PageAt` | backend-go/internal/research/postgres.go:641-671 | on a dense log a page is the next rows in ordinal order |
| `ResearchLog.ExportRun` | backend-go/internal/research/exporter.go:85-151 | writes the whole log once in order if and only if the page size is at most 500 or the log has at most 100 rows |
| `ResearchLog.LoadTransitions` | backend-go/internal/research/service.go:713-731 | the paging loop reads full pages and then a short one, each row from the log as its own page found it, whoever writes in between |
| `ResearchLog.LoadedIff` | backend-go/internal/research/service.go:713-731 | the rows read are the log as the last page found it if and only if no earlier row was replaced or removed meanwhile |
| `ResearchLog.AppendsNeverTear` | backend-go/internal/research/service.go:713-731 | with only appends in between the read is exactly the log its last page found, also at a multiple of the page size |
| `ResearchLog.LoadOrRebuild` | backend-go/internal/research/service.go:689-732 | rebuilds an empty projection when the swap succeeds, reads the stored log page by page otherwise, and fails only on a replacement error that is no conflict |
| `ResearchControl.Repository.CompareAndSwapRunStatus` | backend-go/internal/research/postgres.go:338-376 | changes the status only from the expected one along an allowed transition |
| `ResearchControl.Repository.UpdateRunLinks` | backend-go/internal/research/postgres.go:396-440 | each of the five links that is set stays exactly as it is, and a request that differs in one of them is refused and changes nothing |
| `ResearchControl.Repository.CompareAndSwapRunMetrics` | backend-go/internal/research/postgres.go:472-534 | metrics are written once; the same source and hash may be replayed |
| `ResearchControl.StatusChanges` | backend-go/internal/research/service.go:377-600 | the status of a run changes only when a call decides, and then as that call may settle it: started from pending, completed from running with complete links, metrics and valid provenance, failed or cancelled while nothing had settled it |
| `ResearchControl.DecidedTakesEffect` | backend-go/internal/research/service.go:377-600 | conversely a call that may settle the run as it now stands does settle it, and changes no other run |
| `ResearchControl.ScanKeeps` | backend-go/internal/research/service.go:811-865 | the paged, non-atomic scan counts a whole populated listing of terminal runs |
| `ResearchControl.CompletedRunsComplete` | backend-go/internal/research/service.go:506-553 | in every interleaving of service calls a completed run has complete links and metrics |
| `ResearchControl.CompletedExperimentsComplete` | backend-go/internal/research/service.go:811-865 | in every interleaving a completed experiment has exactly its scheduled runs, each once, all terminal |
| `ResearchControl.NothingUndone` | backend-go/internal/research/postgres.go:1058-1068 | in every interleaving each of the five links that is set keeps its value, metrics are written once and terminal statuses are final |
| `AgentLog.MemoryRepository.SaveRun` | backend-go/internal/agentservice/memory_repository.go:45-58 | the saved row is what the next read returns, with the events as before, unless the run is missing or cancelled; other runs are untouched |
| `AgentLog.MemoryRepository.AppendEvent` | backend-go/internal/agentservice/memory_repository.go:89-104 | the event goes behind all others under the next number, the row unchanged, unless the run is missing or cancelled |
| `AgentLog.MemoryRepository.CancelRun` | backend-go/internal/agentservice/memory_repository.go:60-87 | a running or waiting run becomes cancelled with nothing pending and its log ends with the event; otherwise nothing changes |
| `AgentLog.MemoryRepository.ListEvents` | backend-go/internal/agentservice/memory_repository.go:125-142 | returns exactly the events after the cursor, in order |
| `AgentLog.PostgresRepository.SaveRun` | backend-go/internal/agentservice/postgres_repository.go:90-134 | the guarded update does what the memory repository does |
| `AgentLog.PostgresRepository.AppendEvent` | backend-go/internal/agentservice/postgres_repository.go:231-303 | the stored counter allocates the same sequence numbers |
| `AgentLog.PostgresRepository.CancelRun` | backend-go/internal/agentservice/postgres_repository.go:136-229 | update and insert together do what the memory repository does |
| `AgentLog.RowsFrame` | backend-go/internal/agentservice/postgres_repository.go:231-303 | a run with counter n has exactly n event rows, unaffected by other rows |
| `AgentProtocol.CancellationIsLast` | backend-go/internal/agentservice/service.go:182-258 | in every interleaving event sequences are exactly 1 to n, and a run is cancelled exactly when its one run.cancelled event is its last, with nothing pending |
| `AgentProtocol.CancellationAbsorbs` | backend-go/internal/agentservice/service.go:408-496 | once cancelled, row and log never change again, however stale the copies other operations hold |
| `AgentProtocol.OperationMeans` | backend-go/internal/agentservice/service.go:182-496 | what each service operation does to a run when nothing interrupts it: when it refuses, the row it leaves, and its events with their numbers |
| `Broker.EventBroker.Subscribe` | backend-go/internal/agentservice/broker.go:32-45 | hands out a fresh open channel and changes no other run |
| `Broker.EventBroker.Publish` | backend-go/internal/agentservice/broker.go:20-30 | every channel of the run holds a token afterwards, no channel of another run changes, and none sent to is closed |
| `Broker.EventBroker.Cancel` | backend-go/internal/agentservice/broker.go:46-56 | the first cancel removes and closes the channel, a later one does nothing |
| `Broker.NoLostWakeUp` | backend-go/internal/agentservice/broker.go:20-58 | for any number of publishers, readers and cancels a waiting reader with a published event beyond its cursor has a token |
| `Broker.NoSendOnClosed` | backend-go/internal/agentservice/broker.go:20-30 | no send reaches a closed channel |

## Left out

- SKIP LOCKED and isolation details: a claim sees all rows of its snapshot, and a quarantine query that skips a job another transaction has locked is not modelled.
- Worker ids: two live workers never share an id; the source derives it from a nanosecond clock.
- Case-insensitive matching of JSON keys when Go decodes into structs: keys match exactly here.
- Bytes after the first JSON value of a case text: cases are modelled as decoded values.
- The order in which validators report several errors of one case: acceptance is modelled, not which message comes first.
- Heartbeats, error messages, failure signals and timestamps other than those a decision reads.
- The queue's liveness: an expired unprotected job with spent attempts or a cancel request stays running in the source too.
- Summary construction before the size loop (page merging, node selection, observation building): only its counts and identities enter the bounded encoding.
- Selectors dropped with single nodes: the source books selectors only when a whole page is stripped, so no conservation is claimed for them.
- Compaction.CompactExplorationTranscript: "every tool summary is reference-only" is stated for marshalling that never fails; a summary that cannot be encoded is left as it was.
- The exploration deadline: the gate takes it as a flag, since it reads the wall clock.
- Turn and cost budgets of the loop: they end a run and reset on every continuation.
- exportExperiment's paging and sorting of runs: the same loop as exportRun over an offset, without ordinals.
- QueueStore.Store.StartClaimedJobRun: takes the verdict on the job's DSL as a parameter; CaseBindings.ClaimedJobOk is that check, on stored texts rather than decoded rows.
- QueueStore.Store.CreateBatch: project membership, session ownership and the two binding checks (CaseBindings.ValidateDSLBindings, CaseBindings.ValidatePersistedCaseBindings) are fields of the request, decided elsewhere.
- ExplorationLimits.LimitsHold: the plan version the gate read is the one the result's summary names; the harness reads the plan again after the call, and a plan replaced by someone else in between is not modelled.
- Saving the transcript after a successful resume, and plan reads during a turn, never fail in the pairing runs.
- Provenance of metrics and oracle content: the source reader and the projector are not part of this model; a failed provenance check is an arbitrary refusal.
- Access checks, project ownership and persistence errors: they only make an operation fail.
- HTTP, event streaming, the browser worker, the language model client and prompts.
- Overview statistics, correction generalisation, and the plain stores for projects, cases and planning sessions: they would add easy members only.
