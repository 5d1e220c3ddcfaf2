# A verified model of the ZLJ kernel

This project models the parts of the ZLJ kernel that other parts rest on, and proves what they promise
over all inputs, all runs and all stops of the process. It is a Dafny 4.11 project; `dafny verify dfyconfig.toml`
checks it.

What is modelled, by file:

- `Prelude`, `Sorting`: options, results and text order, and a stable sort, which the other modules share.
- `KernelDocuments`, `Transactions`, `CrashRecovery`, `KernelState`, `KernelStore`: the state directory, its
  write-ahead transaction, roll-forward recovery, the root-state machine and the task pointer.
- `Evidence`, `Competence`, `CompetenceProfiles`, `Weighting`, `Assembly`, `Lineage`, `AssemblyAgreement`,
  `ReceiptContract`, `AssemblyService`: point-in-time competence, evidence-weighted assembly, its receipt, the
  independent lineage validator, and the durable call that records both.
- `DecimalRounding`, `RoundedClosure`, `RoundedForecast`, `RangeExample`: 28-digit decimal arithmetic with round half to even
  (roundTiesToEven, section 4.3.1 of IEEE 754-2008), the weights and forecasts as it computes them, and one assembly
  whose forecast leaves the range of its components.
- `ContextualAssembly`: the overlay of context relevance on an assembled prediction, and its receipt.
- `Execution`, `ShadowLifecycle`, `ShadowLifecycleStore`, `Replay`: authorization, modeled fills, accounting, the
  staged lifecycle of one decision, and the checkpointed replay of many.
- `BookOutbox`, `BookOutboxStore`: the evidence outbox with its three directories.
- `ContextProfileRegistry`, `ContextProfileOperations`, `ContextProfileStore`: the event-sourced profile registry.
- `Resolution`, `QuestionResolution`, `GridResolution`: point-in-time outcome resolution.
- `HashChain`, `ExperienceStore`: the hash-chained journals and the market experience store.
- `OrderBook`, `StreamReplay`, `StreamJournal`, `Percentiles`, `BookWalk`, `BookSlippage`: the market stream, its
  books, percentiles and walks.

How it is modelled. The disk is a value; each atomic file replacement, fsynced append, unlink and transport call is
one step, and a process may stop between any two. A pure function gives the states one call writes; a class with
the fields of the source object takes the steps one by one under a `budget` of steps and is proved to leave exactly
that many of them. The theorems are about the functions, over every history. Hashes are function parameters;
where a lemma needs a hash to tell contents apart, its `requires` names the contents that occur. No proof rests on Dafny's automatic
induction: it is switched off wherever Dafny would apply it.

What the proofs found in the code, each stated as a lemma:

- A stop between the line of an assembled prediction and its summary makes every retry of the assembly fail until the
  journal state is rebuilt (`AssemblyService.RetryCompletes`).
- `register` and `activate` accept a time before the model's last event, which breaks the event chain for good
  (`ContextProfileOperations.BackdatedRegistrationHappens`, `BackdatedActivationHappens`); a registry is healthy after
  any history exactly when no call did (`HistoriesExactly`). A registration stopped after its artifact can only be
  finished with the same time and evidence (`InterruptedRegistration`).
- A stop between the moved copy of a receipt and the removal of its pending one leaves both, and the next quarantine
  or delivery can put the receipt in the other place as well, even if the Book never contradicts itself
  (`BookOutbox.SteadyBookIsNotEnough`, `QuarantineThenDelivery`). That is the only way a receipt ends both acknowledged
  and quarantined, and a look at the directories before a call excludes it (`DoubledExactly`,
  `CheckedCallsNeverDouble`). A permanent refusal with an empty reason ends every sweep at that receipt
  (`BookOutboxStore.BareRefusalStarves`).
- A decision id that is not safe as a file name is authorized, executed and accounted, and stays there without a
  receipt (`ShadowLifecycle.UnsafeIdStaysAccounted`, `UnsafeIdHappens`).
- The resolvers take the cutoff of a source reference on trust. On experiences that the builder made this is sound:
  what they select was known by the cutoff (`QuestionResolution.BaselineWasKnown`), and the outcome contract never
  refuses it (`BuiltMidpointIsAccepted`, `GridResolution.BuiltGridIsAccepted`). A reference from elsewhere can name a
  frame known later; then only the outcome contract stops the call (`ForeignReferenceIsRefused`).
- Rounding can take an assembled forecast out of the range of its components: two equal probabilities of 28 nines are
  planned into the probability 1 (`RoundedForecast.RangeIsLeft`, `RangeExample.RangeIsLeftByPlan`). Weights keep every
  forecast in a range exactly when they keep the two ends of it (`RangeKeptExactly`, and for the receipts
  `ReceiptContract.PlannedRangeExactly`, `ContextualAssembly.ContextualRangeExactly`); the excess is never more than a
  relative 10^-14 (`ForecastNear`), and a probability never leaves [0,1] (`ProbabilityStays`).
- A level-2 update that meets an emptied book is refused although a snapshot came before
  (`OrderBook.EmptyBookRefusesUpdates`, `EmptiedBookRefuses`); the depth walk calls a request for nothing insufficient
  (`BookSlippage.DepthFillsExactly`).
- After one failed attempt to index its file a stream journal object goes on with an incomplete index and accepts
  sequence numbers that the file already holds (`StreamJournal.UnreadableFileIsForgotten`, `ConflictIsForgotten`). One
  object never does exactly when its file is intact and the index up to the first conflict has every number
  (`OneObjectExactly`); over restarts none does exactly when the file is intact and no number on it has two hashes
  (`RestartsExactly`).
- Two frames under one id can lose a grid slot (`GridResolution.SharedIdLosesSlot`); every slot keeps its earliest frame
  exactly when these frames exist and have different ids (`FilterIsIdleExactly`).

## Model

| member | source | states |
|---|---|---|
| `CrashRecovery.CrashAtomicity` | autonomous_kernel/store.py:286-362 | A commit stopped after any number of durable steps, then any number of stopped recoveries and one finished recovery, leaves the old disk (if nothing was prepared) or exactly the committed one |
| `CrashRecovery.CommittedContents` | autonomous_kernel/store.py:172-178 | On the committed disk no transaction is pending, every appended id and the transaction's completion occur exactly once, and an id new to the journal adds exactly one record |
| `CrashRecovery.CommittedDocuments` | autonomous_kernel/store.py:294-299 | Each committed document is the last one the transaction wrote to its path |
| `CrashRecovery.InadmissibleBlocksForever` | autonomous_kernel/store.py:275-302 | An entry that application refuses, or an unreadable prepared journal, leaves the transaction pending through every recovery |
| `CrashRecovery.FinishSteps` | autonomous_kernel/store.py:286-302 | After every prefix of a roll-forward the disk still rolls forward to the same target |
| `Transactions.ReapplyAfterPrefix` | autonomous_kernel/store.py:286-302 | Starting the application over after a stop at any step gives the result of the uninterrupted application |
| `KernelState.RunKeepsInvariant` | autonomous_kernel/store.py:591-692 | Over any run of transitions, task updates, stops and recoveries: rolled forward, the journal is one path of allowed transitions ending in the current root state, and resume agrees with current state and backlog |
| `KernelState.RunIsRecoverable` | autonomous_kernel/store.py:338-362 | One finished recovery after any run leaves a disk that validates and satisfies the run invariant |
| `KernelState.NextIsBestReady` | autonomous_kernel/store.py:578-588 | The next task is ready, has every dependency completed, and no such task has a higher score or the same score and a smaller id; there is none only when no task is eligible |
| `KernelState.UpdateHealthy` | autonomous_kernel/store.py:644-692 | A task update changes that task alone, leaves the pointers agreeing with the backlog, and points to the best ready task |
| `KernelState.TransitionHealthy` | autonomous_kernel/store.py:591-641 | A transition moves the root state, appends exactly its record, and keeps backlog and pointers |
| `KernelStore.Repository.AppendJsonlOnce` | autonomous_kernel/store.py:172-178 | The scan-then-append loop appends exactly when the id is not in the journal |
| `KernelStore.Repository.ApplyTransaction` | autonomous_kernel/store.py:286-302 | The two loops take the steps of the script up to the budget or the first refused entry, and say which |
| `KernelStore.Repository.CommitTransaction` | autonomous_kernel/store.py:305-335 | Refuses over a pending transaction; otherwise leaves the prefix of the commit script that the budget allows |
| `KernelStore.Repository.RecoverPending` | autonomous_kernel/store.py:338-362 | Does nothing on a clean disk, refuses an invalid journal, otherwise leaves the prefix of the recovery script that the budget allows |
| `KernelStore.Repository.Transition` | autonomous_kernel/store.py:591-641 | Refuses exactly the requests that the plan refuses, without writing; otherwise commits the planned documents and record |
| `KernelStore.Repository.UpdateTask` | autonomous_kernel/store.py:644-692 | Refuses exactly the updates that the plan refuses, without writing; otherwise commits the planned documents |
| `Competence.ErrorInequalities` | autonomous_kernel/evaluation/competence.py:121-171 | The absolute bias is at most the mean absolute error, and the squares of both are at most the mean squared error, for any non-empty sample |
| `Competence.CalibrationInequalities` | autonomous_kernel/evaluation/competence.py:121-171 | The squared calibration gap is at most the Brier score, which is at most 1; accuracy, gap and coverage lie in [0,1] |
| `Competence.SampleStrengthGrows` | autonomous_kernel/evaluation/competence.py:104-171 | Sample strength grows strictly with the resolved count and stays below 1 |
| `Competence.CollectSamples` | autonomous_kernel/evaluation/competence.py:121-150 | The metric loop grows exactly the lists of errors, probabilities, actuals and hits, interval hits only for predictions with an interval |
| `Competence.ComputeProfileMetrics` | autonomous_kernel/evaluation/competence.py:104-171 | The metrics are the stated means over the whole sample, and all absent for an empty one |
| `CompetenceProfiles.ProfileCites` | autonomous_kernel/evaluation/competence.py:174-246 | A profile cites exactly the single-model predictions of its segment created by the cutoff, and its counts add up |
| `CompetenceProfiles.ProfileSegments` | autonomous_kernel/evaluation/competence.py:174-246 | There is one profile per segment, exactly for the segments with a counted prediction |
| `CompetenceProfiles.ProfilesAreStable` | autonomous_kernel/evaluation/competence.py:174-246 | Predictions created and outcomes decided after the cutoff change no profile |
| `CompetenceProfiles.BuildCompetenceProfiles` | autonomous_kernel/evaluation/competence.py:174-246 | The loops that filter, group and measure build exactly the specified profiles |
| `CompetenceProfiles.MeasureSegment` | autonomous_kernel/evaluation/competence.py:174-246 | The per-segment loop counts resolved, unresolvable and pending predictions and builds the specified profile |
| `Weighting.Z8InfluenceBounds` | autonomous_kernel/assembly/adaptive.py:168-175 | In exact arithmetic, with n components every weight lies in [1/(3n-2), 3/(n+2)] |
| `Weighting.ScoreClampIsIdle` | autonomous_kernel/assembly/adaptive.py:168-175 | With the strength and skill that profiles have the clamp of a rounded score never cuts |
| `Weighting.NoEvidenceIsEqual` | autonomous_kernel/assembly/adaptive.py:264-285 | In exact arithmetic, without evidence every weight is exactly 1/n |
| `Weighting.WeightStrictlyBetween` | autonomous_kernel/assembly/contracts.py:103-118 | In exact arithmetic, with two or more components every weight is strictly between 0 and 1 |
| `Weighting.NormalizedWeights` | autonomous_kernel/assembly/adaptive.py:264-285 | In exact arithmetic the loop with the last weight as remainder gives exactly the shares of the scores, which sum to 1 |
| `Weighting.AssembledWithinComponents` | autonomous_kernel/assembly/adaptive.py:286-297 | In exact arithmetic a weighted value lies between the least and the greatest component value |
| `Weighting.OverlayBounds` | autonomous_kernel/assembly/contextual.py:242-275 | In exact arithmetic, when every multiplier lies in [low, high], every overlaid weight keeps its base weight times a factor between low/high and high/low |
| `Weighting.ComputeRegimeFactor` | autonomous_kernel/assembly/contextual.py:257-275 | The regime loop multiplies the specified steps, rounding each product, and clamps |
| `Weighting.UpperClampIsIdle` | autonomous_kernel/assembly/contextual.py:277-303 | No context raises a rounded multiplier above 1.15: its upper clamp at 1.25 never cuts |
| `Weighting.Z9InfluenceBounds` | autonomous_kernel/assembly/contextual.py:277-320 | In exact arithmetic every overlaid weight is within [3/5, 5/3] of its base weight, and within [15/23, 23/15] while no multiplier exceeds 1.15 |
| `Assembly.RegistryRecordAt` | autonomous_kernel/assembly/adaptive.py:24-56 | The loop over registry events yields the record as of a time |
| `Assembly.AppendKeepsJournal` | autonomous_kernel/prediction/journal.py:86-115 | Appending keeps the prediction journal valid, never rewrites an entry, and appending again changes nothing |
| `Assembly.WidestCovers` | autonomous_kernel/assembly/adaptive.py:289-297 | An assembled interval exists only if every component has one, and covers each of them |
| `Lineage.CitedRecordAt` | autonomous_kernel/assembly/lineage.py:29-50 | The validator's loop over registry events yields the facts as of a time |
| `Lineage.RecordsAgree` | autonomous_kernel/assembly/lineage.py:29-50 | Producer's and validator's registry folds agree on every cited fact |
| `Lineage.ChoicesAgree` | autonomous_kernel/assembly/lineage.py:53-76 | On the profiles of one build the producer's and the validator's profile choice coincide, neither is ambiguous, and the choice does not count the component itself |
| `Lineage.CheckContributor` | autonomous_kernel/assembly/lineage.py:93-155 | One round of the validator's loop, with its profile cache, finds exactly the specified errors |
| `Lineage.ValidateReceiptLineage` | autonomous_kernel/assembly/lineage.py:79-158 | The validator collects exactly the specified errors |
| `AssemblyAgreement.ProducerValidatorAgreement` | autonomous_kernel/assembly/service.py:107-136 | Every receipt planned from a valid journal passes the lineage validator once the assembled prediction is journaled |
| `AssemblyAgreement.ValidationIsStable` | autonomous_kernel/assembly/lineage.py:79-158 | A receipt that validates keeps validating while journals grow by entries past its competence cutoffs and registry events past its assembly time |
| `AssemblyAgreement.PlanIsStable` | autonomous_kernel/assembly/service.py:87-121 | An assembly planned again, after the journals have grown past its competence cutoff and the registry past its time, is planned the same: same prediction, same receipt |
| `AssemblyAgreement.NoSelfEvidence` | autonomous_kernel/assembly/service.py:57-84 | A contributor cites a profile built for the assembly, and none it could cite counts any component of the assembly; everything counted was created by the cutoff, which precedes every component unless one was created at time 0 |
| `AssemblyAgreement.PlanIsPlanned` | autonomous_kernel/assembly/adaptive.py:221-363 | What a plan consists of: validated components in order, their records and profiles at the cutoff, the rounded weights of their scores, the rounded forecasts and the receipt built from them |
| `ReceiptContract.PlannedReceiptIsValid` | autonomous_kernel/assembly/contracts.py:59-118 | Every planned receipt of up to 10^12 components satisfies the receipt contract on its rounded weights: bounds, strictly sorted references, a left-to-right rounded sum of exactly 1, timing |
| `ReceiptContract.AssembledForecast` | autonomous_kernel/assembly/adaptive.py:286-297 | The rounded move and probability lie between what the receipt's weights make of the least and of the greatest component forecast: in the component range when the weights keep its two ends, in any case up to a relative 10^-14; a probability stays in [0,1] with no slack at all |
| `ReceiptContract.PlannedRangeExactly` | autonomous_kernel/assembly/adaptive.py:286-297 | The weights of a planned receipt keep every forecast in the range of its components exactly when they keep the two ends of the range, which a caller computes from the weights alone |
| `ReceiptContract.AssembledIsValid` | autonomous_kernel/assembly/adaptive.py:286-330 | The assembled prediction, its forecasts rounded, satisfies the prediction contract |
| `AssemblyService.RetryCompletes` | autonomous_kernel/assembly/service.py:87-136 | A retry after a stop between any two writes gives the same prediction and receipt, except after a stop between the prediction line and its summary: then every retry is refused until the summary is rebuilt, after which it gives the same |
| `AssemblyService.RetryAfterGrowth` | autonomous_kernel/assembly/service.py:87-136 | A successful call stopped after any write and retried after the journals have grown past its cutoff, the registry past its time and the assembly journal by other receipts: the same prediction and receipt, both on file, validating against the journals as they are then |
| `AssemblyService.CompletedCall` | autonomous_kernel/assembly/service.py:87-136 | A call succeeds exactly when neither append conflicts; then both journals hold what it returned and the receipt validates |
| `AssemblyService.LineageCheckPasses` | autonomous_kernel/assembly/service.py:120-136 | The lineage check between the two appends never fails on valid journals |
| `AssemblyService.AssemblyStore.AppendPrediction` | autonomous_kernel/prediction/journal.py:86-128 | Line before summary, stopped by the budget after any of the two writes |
| `AssemblyService.AssemblyStore.AppendReceipt` | autonomous_kernel/assembly/journal.py:85-118 | Line before summary, the summary alone for a receipt already there, refused on a conflicting one |
| `AssemblyService.AssemblyStore.AssembleAndRecord` | autonomous_kernel/assembly/service.py:87-136 | The call leaves exactly the prefix of its writes that the budget allows, and its result |
| `DecimalRounding.RoundingError` | autonomous_kernel/assembly/adaptive.py:264-285 | 28-digit round-half-even moves a positive value by at most half a unit in its last place, and that unit is at most its 10^-27th part |
| `DecimalRounding.RepresentableIsKept` | autonomous_kernel/assembly/adaptive.py:264-285 | A value on its own quantum is not moved by rounding |
| `DecimalRounding.RoundGrows` | autonomous_kernel/assembly/adaptive.py:264-288 | Rounding keeps order, for values of any sign |
| `DecimalRounding.RoundAgain` | autonomous_kernel/assembly/adaptive.py:264-288 | Rounding a rounded value changes nothing |
| `RoundedClosure.RoundedSumNear` | autonomous_kernel/assembly/adaptive.py:264-285 | A left-to-right rounded sum of at most 10^12 positive values stays within the stated drift of the exact sum |
| `RoundedClosure.ComputeRoundedWeights` | autonomous_kernel/assembly/adaptive.py:264-285 | The rounded loop with running total and remainder gives the specified weights |
| `RoundedClosure.Z8Closes` | autonomous_kernel/assembly/contracts.py:103-118 | For 2 to 10^12 components the rounded weights lie strictly inside (0,1) and their left-to-right rounded sum is exactly 1 |
| `RoundedClosure.Z9Closes` | autonomous_kernel/assembly/contextual.py:294-313 | The same holds again for the overlay on rounded Z8 weights with any multipliers in bounds |
| `RoundedForecast.ComputeForecast` | autonomous_kernel/assembly/adaptive.py:286-288 | The loop that adds rounded products gives the specified forecast |
| `RoundedForecast.ForecastGrows` | autonomous_kernel/assembly/adaptive.py:286-288 | Raising component forecasts never lowers the rounded weighted sum |
| `RoundedForecast.ProbabilityStays` | autonomous_kernel/assembly/adaptive.py:286-288 | With weights that close, a rounded sum of probabilities is a probability |
| `RoundedForecast.ForecastNear` | autonomous_kernel/assembly/adaptive.py:286-288 | A rounded forecast stays in the range of its components up to a relative 10^-14 |
| `RoundedForecast.RangeKeptExactly` | autonomous_kernel/assembly/adaptive.py:286-288 | Weights keep every rounded forecast in the range of its components exactly when they keep it there with all components at the low end and with all at the high end |
| `RoundedForecast.RangeIsLeft` | autonomous_kernel/assembly/adaptive.py:286-288 | Two equal scores and two probabilities of 28 nines: the assembled probability is 1, outside the component range |
| `RangeExample.RangeIsLeftByPlan` | autonomous_kernel/assembly/adaptive.py:221-363 | That input through the whole assembly: from valid journals two components without evidence, each with a probability of 28 nines, are planned into a probability of 1 |
| `RoundedForecast.WeightsNearShares` | autonomous_kernel/assembly/adaptive.py:273-285 | Every rounded weight is within 10^-14 of its exact share, so the influence bounds hold up to that |
| `RoundedForecast.OverlayNearBase` | autonomous_kernel/assembly/contextual.py:294-313 | Every overlaid weight, as computed, is within [3/5, 5/3] of its computed base weight, and within [15/23, 23/15] while no multiplier exceeds 1.15, up to 3 * 10^-14 |
| `ContextualAssembly.CountGroups` | autonomous_kernel/assembly/contextual.py:288-290 | The loop counts the profiles of every diversity group |
| `ContextualAssembly.ContextualizePrediction` | autonomous_kernel/assembly/contextual.py:277-327 | The checks, the loop over the sorted references, the weights and the forecasts give the specified result or refusal |
| `ContextualAssembly.ContextualReceiptIsValid` | autonomous_kernel/assembly/contextual.py:122-153 | Every contextual receipt over a planned assembly satisfies its contract: bounded multipliers, weights strictly inside (0,1), strictly sorted references, a rounded sum of exactly 1 |
| `ContextualAssembly.ContextualForecast` | autonomous_kernel/assembly/contextual.py:314-323 | The contextual move and probability lie in the component range when the final weights keep its two ends, in any case up to a relative 10^-14, and a probability stays in [0,1] |
| `ContextualAssembly.ContextualRangeExactly` | autonomous_kernel/assembly/contextual.py:314-323 | The final weights of a contextual receipt keep every forecast in the range of its components exactly when they keep the two ends of the range |
| `ContextualAssembly.ContextualInfluence` | autonomous_kernel/assembly/contextual.py:277-320 | Whatever the context and its profiles, a contributor keeps, as computed, at least 15/23 and at most 23/15 of its weight in the base receipt, up to 3 * 10^-14 |
| `ContextualAssembly.ContextualPredictionIsValid` | autonomous_kernel/assembly/contextual.py:314-323 | A contextual prediction that is not refused as too late satisfies the prediction contract |
| `Execution.AuthorizeExecution` | autonomous_kernel/operations.py:187-215 | The reasons loop allows or refuses as specified |
| `Execution.AuthorizedExactly` | autonomous_kernel/operations.py:187-215 | Execution is allowed exactly for a valid non-live request without capital effect, on its own preregistered capability, under a zero-exposure governor; a refusal names a reason |
| `Execution.FillsWithinBounds` | autonomous_kernel/shadow_lifecycle.py:94-148 | A fill is a whole number of quantity steps within request, ratio and capacity and short of that by less than a step, inside the limit, at least the minimum notional, and complete only at fill ratio 1 |
| `Execution.PenaltyIsAdverse` | autonomous_kernel/shadow_lifecycle.py:94-148 | Modeled prices are never better than the reference by a whole price step |
| `Execution.EventsMatchFills` | autonomous_kernel/shadow_lifecycle.py:151-186 | The sums over the accounting events always equal the sums over the fills |
| `Execution.ComputeAccounting` | autonomous_kernel/shadow_lifecycle.py:151-186 | The accounting loop builds the specified events, position and result |
| `Execution.SingleFillAccounting` | autonomous_kernel/shadow_lifecycle.py:151-186 | For one fill: position, entry price, fee and unrealized result in closed form |
| `ShadowLifecycle.StepExtends` | autonomous_kernel/shadow_lifecycle.py:197-246 | Every durable step keeps all journals and receipts, advances its stage and never changes a stored authorization, result or accounting |
| `ShadowLifecycle.OneReceipt` | autonomous_kernel/shadow_lifecycle.py:197-246 | Over any history of stops, retries and other operations, all calls for one operation that return, return one receipt, and it stays on file |
| `ShadowLifecycle.InvokeResumes` | autonomous_kernel/shadow_lifecycle.py:197-246 | A stopped call and one with the same parameters after it are together the uninterrupted call |
| `ShadowLifecycle.DeniedForever` | autonomous_kernel/shadow_lifecycle.py:197-246 | A denied operation never gets a result, an accounting or a receipt path, no receipt appears under its key, and no call for it returns |
| `ShadowLifecycle.ReturnedReceipt` | autonomous_kernel/operations.py:218-287 | A returned receipt is the one on file at the start or is built from the stored authorization, result and accounting of that operation, when the hash tells the operations of the history apart |
| `ShadowLifecycle.CompletesExactly` | autonomous_kernel/shadow_lifecycle.py:197-246 | An unstopped call returns exactly when its outstanding stages can succeed; with an unsafe decision id it never does |
| `ShadowLifecycle.UnsafeIdStaysAccounted` | autonomous_kernel/shadow_lifecycle.py:197-246 | An operation whose id is no file name, and that nothing else stops, is authorized, executed and accounted; whatever is called then, it stays there, no receipt appears and no call for it returns |
| `ShadowLifecycle.UnsafeIdHappens` | autonomous_kernel/operations.py:264-287 | It happens on an empty store, with a decision id that holds a space and the deterministic adapter |
| `ShadowLifecycle.WritesSpent` | autonomous_kernel/shadow_lifecycle.py:197-246 | A returning call spends exactly the writes its stage still needed |
| `ShadowLifecycle.ConflictIsRefused` | autonomous_kernel/shadow_lifecycle.py:197-246 | A different operation under the same decision id is refused and changes nothing |
| `ShadowLifecycleStore.LifecycleStore.PersistReceipt` | autonomous_kernel/operations.py:264-287 | Writes a new receipt, returns the one on file for the same request, refuses a conflicting or unsafe one |
| `ShadowLifecycleStore.LifecycleStore.Run` | autonomous_kernel/shadow_lifecycle.py:197-246 | The staged method leaves exactly the state and ending of the specified call under its budget |
| `Replay.InputOrderIsIrrelevant` | autonomous_kernel/replay.py:17-67 | Permuting the observations changes nothing about an attempt |
| `Replay.EveryCompletionIsTheSame` | autonomous_kernel/replay.py:17-67 | Over any pattern of stopped attempts with any parameters, every completed checkpoint is the same: all ids, in order, with the receipt paths of the decided ones |
| `Replay.CompletionNeedsDistinctDecisions` | autonomous_kernel/replay.py:17-67 | A replay with two observations under one decision id never completes |
| `Replay.AttemptResumes` | autonomous_kernel/replay.py:17-67 | A stopped attempt and the next one with the same parameters are together the uninterrupted attempt |
| `Replay.AttemptCompletesExactly` | autonomous_kernel/replay.py:17-67 | An unstopped attempt completes exactly when every outstanding decision can complete its lifecycle |
| `Replay.AttemptKeepsProgress` | autonomous_kernel/replay.py:40-67 | Processed ids are always a prefix of the sorted ids, and each processed decision has its receipt |
| `Replay.ReplayEngine.Run` | autonomous_kernel/replay.py:17-67 | The loop leaves exactly the specified attempt |
| `BookOutbox.EvidenceIsNeverLost` | autonomous_kernel/book_outbox.py:133-245 | Evidence once enqueued stays in a directory with its original envelope and payload, and whatever is acknowledged the Book accepted |
| `BookOutbox.QuarantineDoubles` | autonomous_kernel/book_outbox.py:229-245 | An uninterrupted operator's quarantine ends with a receipt in both places exactly when it was acknowledged and there was a pending copy to quarantine, or it was in both already |
| `BookOutbox.DeliveryDoubles` | autonomous_kernel/book_outbox.py:182-224 | An uninterrupted delivery ends with a receipt in both places exactly when it was in both already, or its pending copy was quarantined and is now accepted, or acknowledged and is now definitely refused |
| `BookOutbox.CallDoublesExactly` | autonomous_kernel/book_outbox.py:133-245 | Any call, stopped anywhere, puts a receipt in both places exactly when it moves a leftover pending copy of it to the other one |
| `BookOutbox.DoubledExactly` | autonomous_kernel/book_outbox.py:133-245 | After any history a receipt is both acknowledged and quarantined exactly when some call moved a leftover pending copy of it to the other place |
| `BookOutbox.LeftoverIsTheGuard` | autonomous_kernel/book_outbox.py:182-245 | Only a call on a receipt with a pending copy beside a moved one can double it, and on such a receipt some answer of the Book does |
| `BookOutbox.CheckedCallsNeverDouble` | autonomous_kernel/book_outbox.py:133-245 | If every call finds its receipt without such a leftover, no receipt is ever in both places, whatever the Book and the operators decide |
| `BookOutbox.UninterruptedNeverDoubles` | autonomous_kernel/book_outbox.py:133-245 | Leftovers come from stops alone: without any, every receipt stays in one place at most |
| `BookOutbox.SteadyBookIsNotEnough` | autonomous_kernel/book_outbox.py:229-245 | A history with a steady Book after which a receipt is both acknowledged and quarantined |
| `BookOutbox.QuarantineThenDelivery` | autonomous_kernel/book_outbox.py:182-245 | A quarantine stopped before it removes the pending copy, then an ordinary delivery the Book accepts: in both places, the Book having answered once |
| `BookOutbox.DeliveryClears` | autonomous_kernel/book_outbox.py:182-224 | An uninterrupted delivery removes the pending copy exactly when the answer is definite, and moves it where the answer says |
| `BookOutbox.EnqueueIsIdempotent` | autonomous_kernel/book_outbox.py:133-175 | Enqueueing the same evidence again changes nothing and returns the record on file |
| `BookOutboxStore.SweepCompletesExactly` | autonomous_kernel/book_outbox.py:226-227 | A sweep goes through exactly when no permanent refusal comes without a reason; then only what met trouble stays pending |
| `BookOutboxStore.BareRefusalStarves` | autonomous_kernel/book_outbox.py:226-245 | A permanent refusal without a reason keeps every later pending receipt untouched |
| `BookOutboxStore.OutboxStore.Enqueue` | autonomous_kernel/book_outbox.py:133-175 | Leaves exactly the specified state under the budget |
| `BookOutboxStore.OutboxStore.DeliverOne` | autonomous_kernel/book_outbox.py:182-224 | Leaves exactly the specified prefix of attempt, answer and move |
| `BookOutboxStore.OutboxStore.Quarantine` | autonomous_kernel/book_outbox.py:229-245 | Leaves exactly the specified prefix of copy and removal |
| `BookOutboxStore.OutboxStore.PendingReceiptIds` | autonomous_kernel/book_outbox.py:177-180 | The pending ids, each once, in order |
| `BookOutboxStore.OutboxStore.DeliverPending` | autonomous_kernel/book_outbox.py:226-227 | Delivers the ids listed at its start one after the other, as specified |
| `ContextProfileRegistry.ValidateEventChain` | autonomous_kernel/assembly/context_profiles.py:117-198 | The validating loop collects exactly the specified errors |
| `ContextProfileRegistry.ProjectEvents` | autonomous_kernel/assembly/context_profiles.py:201-234 | The projecting loop builds exactly the specified projection |
| `ContextProfileRegistry.FoldsAgree` | autonomous_kernel/assembly/context_profiles.py:117-234 | On a valid chain the validator's registered and active maps are those of the projection |
| `ContextProfileRegistry.ValidChainIsOrdered` | autonomous_kernel/assembly/context_profiles.py:117-198 | On a valid chain each model's events are in time order |
| `ContextProfileRegistry.ActiveIsProjectionOfPrefix` | autonomous_kernel/assembly/context_profiles.py:439-455 | The profile active at t is that of the projection of the chain up to the model's first event after t |
| `ContextProfileRegistry.ActiveIsStable` | autonomous_kernel/assembly/context_profiles.py:439-455 | Later events of the model with a time above t do not change what was active at t |
| `ContextProfileOperations.RegisterKeepsChain` | autonomous_kernel/assembly/context_profiles.py:338-389 | Registering a new version keeps the chain valid exactly when its time is not before the model's last event, for every hash; the code does not look |
| `ContextProfileOperations.BackdatedRegistrationHappens` | autonomous_kernel/assembly/context_profiles.py:338-389 | From the empty registry: a version registered, another of its model registered at an earlier time; both calls return normally and the chain is broken |
| `ContextProfileOperations.ActivateKeepsChain` | autonomous_kernel/assembly/context_profiles.py:391-437 | Activating keeps the chain valid exactly under the same condition |
| `ContextProfileOperations.BackdatedActivationHappens` | autonomous_kernel/assembly/context_profiles.py:391-437 | From the empty registry: versions registered at 0 and 2, the first activated at 1; all calls return normally and the chain is broken |
| `ContextProfileOperations.RegisterIsIdempotent` | autonomous_kernel/assembly/context_profiles.py:338-389 | Registering the same profile again, at any time and with any evidence, only rewrites the projection and returns the same record |
| `ContextProfileOperations.InterruptedRegistration` | autonomous_kernel/assembly/context_profiles.py:338-389 | A registration stopped after its artifact can be finished only with the same time and evidence |
| `ContextProfileOperations.FinishedRegistration` | autonomous_kernel/assembly/context_profiles.py:338-389 | Finished that way it leaves what the uninterrupted registration leaves |
| `ContextProfileOperations.BrokenChainBlocks` | autonomous_kernel/assembly/context_profiles.py:338-455 | A broken chain stays broken whatever is appended, and every operation refuses to go on |
| `ContextProfileOperations.HistoriesExactly` | autonomous_kernel/assembly/context_profiles.py:338-437 | After any history of calls, refusals and stops the registry is healthy exactly when no call appended an event before its model's last one; otherwise the chain is broken for good |
| `ContextProfileOperations.ActiveProfileAnswers` | autonomous_kernel/assembly/context_profiles.py:439-475 | On a healthy registry active_profile answers exactly when the model had an activation by the time, with a profile of that model |
| `ContextProfileOperations.TimelyHistoryIsHealthy` | autonomous_kernel/assembly/context_profiles.py:338-437 | Callers that never go back in a model's time keep the registry healthy through every history of calls and stops, for every hash |
| `ContextProfileStore.RegistryStore.Register` | autonomous_kernel/assembly/context_profiles.py:338-389 | Leaves exactly the specified prefix of artifact, event and projection, and the result |
| `ContextProfileStore.RegistryStore.Activate` | autonomous_kernel/assembly/context_profiles.py:391-437 | Leaves exactly the specified prefix of event and projection, and the result |
| `ContextProfileStore.RegistryStore.ActiveProfileAt` | autonomous_kernel/assembly/context_profiles.py:439-455 | Answers as specified |
| `Resolution.SelectEarliest` | autonomous_kernel/evaluation/resolver.py:46-61 | The filter-and-sort selection yields the specified frame |
| `Resolution.EarliestIsLeast` | autonomous_kernel/evaluation/resolver.py:46-61 | The selected frame is eligible and precedes every other eligible frame; there is none only if none is eligible |
| `Resolution.OrderIsIrrelevant` | autonomous_kernel/evaluation/resolver.py:46-61 | The order and repetition of the supplied frames do not matter |
| `Resolution.OutcomeIsStable` | autonomous_kernel/evaluation/resolver.py:64-156 | Once an outcome is final, later evidence and later retries give the identical outcome, resolved or unresolvable |
| `Resolution.OutcomeIsCausal` | autonomous_kernel/evaluation/resolver.py:64-156 | A final outcome is decided after the window opened, not after its time of decision, and rests on a frame inside the window |
| `QuestionResolution.BaselineSpotFrame` | autonomous_kernel/evaluation/question_resolvers.py:52-75 | The nested loops find the one baseline frame or the specified refusal |
| `QuestionResolution.ContractExactly` | autonomous_kernel/evaluation/question_outcome.py:116-156 | A resolved outcome over a forward path of distinct frames satisfies the outcome contract exactly when the baseline was known by the cutoff and no forward frame has its id |
| `QuestionResolution.BaselineWasKnown` | autonomous_kernel/experience/builder.py:55-66 | On an experience whose references were made from constructed frames the baseline the resolvers choose ends at the cutoff and was known by it |
| `QuestionResolution.MidpointIsStable` | autonomous_kernel/evaluation/question_resolvers.py:78-125 | A midpoint outcome, once final, is not changed by later evidence or retries |
| `QuestionResolution.MidpointResolvesExactly` | autonomous_kernel/evaluation/question_resolvers.py:52-125 | The outcome contract refuses what the midpoint resolver builds exactly when all evidence is in hand and the baseline it selected was known after the cutoff or shares the forward frame's id; with evidence in hand it resolves otherwise |
| `QuestionResolution.BuiltMidpointIsAccepted` | autonomous_kernel/evaluation/question_resolvers.py:92-125 | On a built experience, when a frame id names one frame, the outcome contract never refuses a midpoint outcome |
| `QuestionResolution.ForeignReferenceIsRefused` | autonomous_kernel/evaluation/question_resolvers.py:52-125 | A reference that does not repeat its frame's cutoff drives the midpoint resolver to a refusal by the outcome contract |
| `GridResolution.ResolutionGrid` | autonomous_kernel/evaluation/question_path_resolvers.py:36-44 | The grid targets, or a refusal when the horizon is not a multiple of the step |
| `GridResolution.SlotsAreDisjoint` | autonomous_kernel/evaluation/question_path_resolvers.py:36-71 | The slots of a grid are pairwise disjoint and inside the resolution window |
| `GridResolution.SelectGridFrames` | autonomous_kernel/evaluation/question_path_resolvers.py:47-71 | The greedy loop with its set of used frames selects as specified |
| `GridResolution.SelectedInOrder` | autonomous_kernel/evaluation/question_path_resolvers.py:47-71 | Selected frames lie in their own slots with strictly increasing known times |
| `GridResolution.SelectionExactly` | autonomous_kernel/evaluation/question_path_resolvers.py:47-71 | When a frame id determines its frame the used filter never excludes anything: the selection is the earliest of each slot, and empty exactly when a slot has none |
| `GridResolution.SharedIdLosesSlot` | autonomous_kernel/evaluation/question_path_resolvers.py:47-71 | Two frames under one id: the used filter then loses a slot that has an eligible frame |
| `GridResolution.FilterIsIdleExactly` | autonomous_kernel/evaluation/question_path_resolvers.py:47-71 | Whatever ids the frames have, the selection leaves every slot its earliest frame exactly when every slot has one and these have pairwise different ids |
| `GridResolution.MaximumAdverseIsReached` | autonomous_kernel/evaluation/question_path_resolvers.py:89-92 | The lowest return that the excursion is taken from is a lower bound of the returns on the path and is reached by one of them |
| `GridResolution.GridIsStable` | autonomous_kernel/evaluation/question_path_resolvers.py:95-213 | A grid outcome, once final, is not changed by later evidence or retries |
| `GridResolution.GridResolvesExactly` | autonomous_kernel/evaluation/question_path_resolvers.py:95-213 | The outcome contract refuses what the grid resolver builds exactly when every slot is filled, known and priced and the baseline it selected was known after the cutoff or shares a forward frame's id; with that evidence it resolves otherwise |
| `GridResolution.BuiltGridIsAccepted` | autonomous_kernel/evaluation/question_path_resolvers.py:95-213 | On a built experience, when a frame id names one frame, the outcome contract never refuses a grid outcome |
| `HashChain.LastHashCommits` | autonomous_kernel/assembly/journal.py:129-151 | Under an injective hash, two linked journals with the same last entry hash are equal |
| `HashChain.ValidateRecords` | autonomous_kernel/assembly/journal.py:129-151 | The validating loop reports nothing exactly for journals that are linked, numbered and hold each subject once |
| `HashChain.AppendKeepsValid` | autonomous_kernel/evaluation/journal.py:117-141 | Appending adds at most one entry, which is then the one found for its subject, and keeps the journal valid exactly when nothing was added or the payload's name is new |
| `HashChain.AppendIsIdempotent` | autonomous_kernel/assembly/journal.py:85-106 | Appending the same payload again changes nothing |
| `HashChain.SummaryCommits` | autonomous_kernel/assembly/journal.py:109-118 | Two valid journals with the same summary are equal |
| `HashChain.JournalStore.Append` | autonomous_kernel/evaluation/journal.py:117-152 | Refuses as specified without writing; otherwise leaves exactly the prefix of line and summary that the budget allows, and says whether it was stopped |
| `HashChain.StoppedAppendRetries` | autonomous_kernel/evaluation/journal.py:117-152 | A stop after any of the writes and one whole retry end where one whole append ends |
| `ExperienceStore.PersistKeepsVerified` | autonomous_kernel/experience/store.py:98-157 | Every state that persist passes through still verifies |
| `ExperienceStore.PersistAgain` | autonomous_kernel/experience/store.py:98-157 | Persisting again after a stop between any two writes ends where the uninterrupted call ends |
| `ExperienceStore.Verify` | autonomous_kernel/experience/store.py:166-194 | The loop reports nothing exactly for a store whose events are linked and backed by their records |
| `ExperienceStore.VerifiedCanCommit` | autonomous_kernel/experience/store.py:196-222 | A verified store can commit to every range it holds |
| `ExperienceStore.CommitmentBinds` | autonomous_kernel/experience/store.py:196-222 | Two verified journals with equal commitments over a range agree on that range, and on everything before it |
| `ExperienceStore.DigestBindsRange` | autonomous_kernel/experience/store.py:43-57 | Under an injective hash equal commitment digests mean equal ranges |
| `ExperienceStore.MarketExperienceStore.Persist` | autonomous_kernel/experience/store.py:98-157 | Leaves exactly the specified prefix of record and event, and the result |
| `OrderBook.FoldEvents` | autonomous_kernel/microstream.py:130-148 | The loops over events and updates change the two dictionaries as specified, up to the first error |
| `OrderBook.BookIsLastWrite` | autonomous_kernel/microstream.py:130-148 | The book is the last write to every level since the last snapshot, without the levels last written to 0 |
| `OrderBook.EmptyBookRefusesUpdates` | autonomous_kernel/microstream.py:131-137 | An update is refused exactly when the book is empty, also after a snapshot whose levels were all removed |
| `OrderBook.EmptiedBookRefuses` | autonomous_kernel/microstream.py:130-148 | A snapshot of one bid, an update that removes it, an update that is refused |
| `StreamReplay.ReplayRecords` | autonomous_kernel/microstream.py:83-159 | The replay loop computes the specified summary or stops at the first error |
| `StreamReplay.ReplayAccounts` | autonomous_kernel/microstream.py:98-121 | Different messages plus missing ones minus those out of order make up last minus first plus 1; no gap and nothing out of order is exactly a consecutive stream |
| `StreamReplay.DuplicatesAreInert` | autonomous_kernel/microstream.py:109-113 | A repeated record, put in anywhere later, changes the record and duplicate counts by one and nothing else |
| `StreamReplay.FoldFeatureBook` | autonomous_kernel/microstructure_features.py:93-115 | The feature loop folds every level-2 record, without deduplication, as specified |
| `StreamReplay.BooksAgree` | autonomous_kernel/microstructure_features.py:93-115 | On a journal without repeated numbers the two folds hold the same book or fail alike |
| `StreamReplay.BothAreLastWrite` | autonomous_kernel/microstructure_features.py:93-115 | That book is the last write to each level since the last snapshot |
| `StreamJournal.IngestDecides` | autonomous_kernel/microstream.py:194-215 | On a sound journal a complete message with a new number is appended, one with a known number and hash is ignored, any other is refused, and the journal stays sound |
| `StreamJournal.WrittenBooksAgree` | autonomous_kernel/microstream.py:162-215 | On every journal that ingest wrote, over any restarts, replay finds no duplicate and both folds hold one book |
| `StreamJournal.UnreadableFileIsForgotten` | autonomous_kernel/microstream.py:169-192 | After one refusal by an unreadable line the same object appends the next message whatever the file holds |
| `StreamJournal.ConflictIsForgotten` | autonomous_kernel/microstream.py:169-178 | After a refusal by conflicting records the same object takes a message exactly when its number is not among the records before the conflict |
| `StreamJournal.NextCallExactly` | autonomous_kernel/microstream.py:169-215 | After its first complete message a new object appends no number that the file holds exactly when every line is intact and the index, up to its first conflict, has every number on file |
| `StreamJournal.OneObjectExactly` | autonomous_kernel/microstream.py:169-215 | One object, over any messages, never appends a number that the file holds exactly when the file it opened is intact and its index, up to the first conflict, has every number on it |
| `StreamJournal.RestartsExactly` | autonomous_kernel/microstream.py:162-215 | Over any messages and any restarts a number that the file holds is never appended exactly when the first file is intact and no number on it has two hashes |
| `StreamJournal.Journal.IdentityIndex` | autonomous_kernel/microstream.py:169-178 | Builds the index once, leaves what it has when it fails |
| `StreamJournal.Journal.Ingest` | autonomous_kernel/microstream.py:194-215 | Appends, ignores or refuses as specified |
| `Percentiles.Quantiles` | autonomous_kernel/microstream.py:72-80 | The loop gives one entry per requested percentile, none for no values |
| `Percentiles.NearestRank` | autonomous_kernel/microstream.py:72-80 | For p in 1..100 the result is a value, at least p percent of the values are not above it and less than p percent are below it |
| `Percentiles.LeastWithShare` | autonomous_kernel/microstream.py:72-80 | The result is the least number that p percent of the values do not exceed |
| `Percentiles.PercentileGrows` | autonomous_kernel/microstream.py:72-80 | The result does not fall as p grows, for all integers; at or below 0 it is the least value, at or above 100 the greatest |
| `Percentiles.PercentileForgetsOrder` | autonomous_kernel/microstructure_features.py:11-19 | The order of the samples does not matter |
| `BookWalk.WalkFills` | autonomous_kernel/market_data.py:66-82 | The greedy walk fills what is wanted or all there is |
| `BookWalk.WalkIsLeast` | autonomous_kernel/market_data.py:66-82 | Along rising rates no other allocation of the same quantity is worth less |
| `BookWalk.WalkIsGreatest` | autonomous_kernel/microstructure_features.py:47-69 | Along falling rates no other allocation of the same quantity is worth more |
| `BookWalk.AverageRises` | autonomous_kernel/market_data.py:66-82 | Along rising rates the average rate does not fall with the quantity |
| `BookSlippage.DepthWalk` | autonomous_kernel/market_data.py:66-82 | The loop reports filled quantity, sufficiency, average price and slippage as specified |
| `BookSlippage.DepthFillsExactly` | autonomous_kernel/market_data.py:66-82 | Filled is the least of requested and available; depth is sufficient exactly when something was asked for and all of it is there |
| `BookSlippage.BuyDepth` | autonomous_kernel/market_data.py:66-82 | Buying: the average price is never below the best ask, and average price and slippage do not fall with the quantity |
| `BookSlippage.SellDepth` | autonomous_kernel/market_data.py:66-82 | Selling: the mirror image |
| `BookSlippage.DepthIsBest` | autonomous_kernel/market_data.py:66-82 | No other way to take the same quantity from sorted levels is better |
| `BookSlippage.BuySlippage` | autonomous_kernel/microstructure_features.py:22-44 | The buy loop computes the specified slippage |
| `BookSlippage.SellSlippage` | autonomous_kernel/microstructure_features.py:47-69 | The sell loop computes the specified slippage |
| `BookSlippage.BuySlippageExactly` | autonomous_kernel/microstructure_features.py:22-44 | Buying reports a slippage exactly when something is spent and the asks are worth that much |
| `BookSlippage.BuySlippageGrows` | autonomous_kernel/microstructure_features.py:22-44 | Spending more never has less slippage; it is not negative when no ask is below the midpoint |
| `BookSlippage.SellSlippageExactly` | autonomous_kernel/microstructure_features.py:47-69 | Selling reports a slippage exactly when something is sold and the bids hold that much |
| `BookSlippage.SellSlippageGrows` | autonomous_kernel/microstructure_features.py:47-69 | Selling more never has less slippage; it is not negative when no bid is above the midpoint |
| `BookSlippage.BuyAcquiresMost` | autonomous_kernel/microstructure_features.py:22-44 | No other way to spend the same notional buys more base |
| `BookSlippage.SellReceivesMost` | autonomous_kernel/microstructure_features.py:47-69 | No other way to sell the same base brings in more quote |

## Left out

- Crash steps inside one append: each fsynced append and each atomic replacement is one step, so a torn line is not modelled.
- `writer_lock` and other leases: one serial writer is assumed.
- Identifiers drawn from uuid4 are parameters; that they are new when drawn is a stated precondition of the whole-run lemmas (`KernelState.FreshIds`).
- `validate` of store.py: only the checks on pending transactions, document shapes, task ids, dependencies, pointers and active tasks; the objective, agent, opportunity and repository checks are not modelled.
- `_safe_transaction_path`: the list of allowed paths, not symbolic links.
- `str.strip()` is modelled for ASCII white space only, and task priorities are real numbers, not floats.
- Decimal arithmetic is rounded in skills, scores, weights, multipliers and assembled forecasts, and exact elsewhere: in the metrics of competence, in modeled fills and accounting, in returns and slippage. Decimal texts are identified with the numbers they denote.
- Weighting.Z9InfluenceBounds: is stated in exact arithmetic; the bounds of the weights as computed, up to 3 * 10^-14, are `RoundedForecast.OverlayNearBase`.
- Square roots: RMSE and volatility are stated through the mean square and the variance.
- Digest formats, authority flags, static field validation and schema versions are not modelled beyond the fields used.
- `assemble_and_record`: of the journals it validates first, only the prediction journal's summary and contents are modelled.
- `ReplayEngine`: the list of observation gaps in the checkpoint and the check of the replay id; an observation's well-formedness is a flag.
- `BookOutbox`: reading acceptance fields from a mapping, and the wire form of records.
- `replay_records`: timestamps, clock skews, spread samples and the switch that turns the crossed-book check off; compression and the finalized bundle.
- `public_microstructure_distributions`: depth and imbalance sampling; its percentiles are those of `Percentiles`.
- `build_market_experience`: only how it makes a source reference from a frame; `contextual_assemble_and_record` and its lineage check: only the overlay between them.
- Resolvers for liquidity, relationships, reversals and regimes, the contextual and question journals, the market-wide store: the same shapes as the ones modelled.
- Network capture, command line, monitoring, signing, environment loading, Git and treasury parsing, JSON text, SHA-256, gzip and timestamp parsing.
- ReceiptContract.PlannedReceiptIsValid: for up to 10^12 components, as is everything that rests on the closure of the weights.
- ReceiptContract.AssembledForecast: for up to 10^12 components.
- ReceiptContract.AssembledIsValid: for up to 10^12 components.
- ContextualAssembly.ContextualInfluence: for up to 10^12 components.
- RoundedClosure.Z8Closes: for 2 to 10^12 components; the sum is not claimed to close beyond that.
