# Verified model of the investigation runtime and its evidence pipeline

This Dafny 4.11 project models the deterministic heart of a security investigation agent and proves
properties of it.

**Runtime and planners.** `InvestigationRuntime` takes an alert, asks a planner for a plan, drives the plan's
steps, dispatches tool calls with retries under four budgets, and ends in one terminal run with an append-only
trajectory. `Machine.dfy` is that runtime as a state machine over values; `Runtime.dfy` is the same runtime in
its own form, with classes whose step and call objects are mutated in place and two unbounded loops, and its
`Run` is proved to leave exactly the state the machine ends in. Planner, executor and clock are arbitrary
functions with private state, so every theorem about `Machine` holds for all of them. The two real planners
(`Deterministic.dfy`, `LlmPlanner.dfy`) are then plugged in and the composed runs are studied.

**Evidence pipeline.** Tool results become occurrences, deduplicated evidence with a multi-source index, lookup
tables, findings from five rules, a first-match verdict, a summary with its information gaps and a report. The imperative stages are
methods with loops; each is proved equal to a function over the whole evidence list (`Queries.dfy`,
`FindingRules.dfy`, `Verdict.dfy`), and the theorems relate those functions across different bodies of
evidence. White-space stripping, case folding, address parsing, `str()` and the record schemas are arbitrary
functions: no law of them is used, except in `FindingLaws.MatchedXorSkipped` and in
`EndToEnd.ConnectionToMaliciousIsMalicious`, which name the ones they need.

`Pipeline.dfy` joins the two halves: a run's own record decides completion and gaps, from any point of a run to
its end the disposition never goes down, and a benign verdict is sure exactly when the run left no gap.

To verify: `dafny verify dfyconfig.toml`.

## Layout

| files | content |
|---|---|
| `Contracts`, `Ids`, `Budget` | values, identifiers, limits, failure kinds, retry policy |
| `Machine`, `Effects` | the state machine and what one transition changes |
| `Trajectory`, `Accounting`, `Safety`, `Limits`, `Retries`, `Lifecycle`, `StepFailure`, `Chronology`, `AttemptBounds` | theorems over all runs |
| `Deterministic`, `PlanRefinement`, `PlannedQuestions`, `Multiples`, `SufficientBudget`, `ForeignResults` | the deterministic planner and its runs |
| `LlmPlanner`, `LlmRuns`, `ModelAnswers`, `DecisionTrace` | the model-driven planner, its runs, trace correlation |
| `Runtime` | the runtime as mutable objects, refining the machine |
| `Evidence`, `TextOps`, `Ordering`, `Provenance`, `Dedup`, `Extractor`, `ExtractionLaws`, `RecordContents`, `Fingerprints`, `CaseLinks` | from results to evidence |
| `Queries`, `EvidenceIndex` | selections, groupings, lookup tables |
| `FindingRules`, `FindingEngine`, `FindingLaws`, `FindingMeanings`, `FindingGrades`, `FindingTriggers` | the five finding rules |
| `Verdict`, `VerdictLaws`, `Monotonicity`, `Noninterference` | the verdict and how evidence moves it |
| `Gaps`, `Summary`, `SummaryLaws`, `Report`, `Pipeline`, `EndToEnd` | the last stages and the whole chain |

## Where code and documentation differ

The model follows the code.

- `app/verdict/engine.py:19-20` and `:49-52` say an unfinished run is capped at medium confidence. The branch at
  `app/verdict/engine.py:137-156` gives high confidence for a correlated finding without looking at completion.
  `VerdictLaws.CapFails` is a DNS answer and a flow to it for which the cap fails; `VerdictLaws.CapHoldsIff` says
  for which findings it holds.
- A step that takes the run down is failed, too, so "all steps terminal and one failed" does not imply the stop
  reason `step_failed`: `Lifecycle.StepFailedProseCounterexample` is a run in which it does not.
  `StepFailure.LastStepDecides` gives the exact condition in terms of the guard at `app/runtime/runtime.py:220`, and
  `StepFailure.StepFailedMeans` in terms of the trajectory: the event in front of the last step's end must be one
  that ends only the step.
- `app/agents/decision_trace.py:122-124` speaks of the call resulting from a decision. The code pairs the n-th
  decision with the n-th call of the same step and tool, and a retry adds calls.
  `DecisionTrace.RetryShiftsThePairing` is a trace whose second decision gets the first one's retry;
  `DecisionTrace.CorrelationIsExactIffNotRetried` says for every run when the pairing is right.
- `max_attempts_per_step` (`app/runtime/retry.py:43-54`) bounds the attempts of one planned call, not of one step.
  `AttemptBounds.AttemptsPerStepUnbounded` gives for every `n` a run that completes its only step after `n` failed
  attempts under a limit of two; `AttemptBounds.AttemptsPerStepBounded` is the bound that holds for every step.
- The deterministic planner counts progress by call id, so it relies on an executor that stamps its results with
  their call's id. `ForeignResults.ForeignIdsRepeatTheFirstCall` says what happens otherwise.
- Tags of one identity are united (`app/evidence/dedup.py:124-127`), so an item may carry both `case-linked` and
  `unlinked-knowledge`; the summary then lists it as unlinked. The partition theorem covers that case.
- `by_path` lists an item twice when both of its path fields fold to the key: `EvidenceIndexing.FiledTwice` is such
  an item, `EvidenceIndexing.LookupIsFilterIff` the exact condition. Extracted evidence never meets it:
  `ExtractionLaws.LookupsAreFilters`.
- `app/evidence/dedup.py:35-51` joins the parts of a reputation fingerprint with colons. It keeps sources of one
  indicator and assertions of one source apart, as documented (`Fingerprints.SameIndicatorKeptApart`); different
  indicators may still meet, because an indicator may contain a colon (`Fingerprints.DifferentIndicatorsMeet`).
  `Fingerprints.FingerprintsMeetIff` says exactly when two assertions count as one record.
- `LLMBudgetTracker.reset` has no caller in the planner, so the request budget belongs to the planner object; the
  method is not modelled.

## Model

| member | source | states |
|---|---|---|
| Ids.FormatIdInjective | app/runtime/ids.py:63-78 | two ids of one family are equal only for equal counters, for any number of digits |
| Ids.SequentialIdGenerator.Take | app/runtime/ids.py:63-66 | returns the id of the family's counter and advances that counter only |
| Machine.NextDecreases | app/runtime/runtime.py:324-555 | every transition makes progress for every planner, executor, budget and policy: both unbounded loops end |
| Machine.EndsWithinMeasure | app/runtime/runtime.py:165-555 | a planned run is over after a number of transitions fixed by its plan and its call budget |
| Effects.AttemptEffect | app/runtime/runtime.py:411-555 | an unblocked attempt appends one settled call, counts it once, and leaves the steps alone |
| Effects.OtherStepsKeepCalls | app/runtime/runtime.py:165-400 | no other transition touches calls, results, counters or the call id counter |
| Effects.EventsGrow | app/runtime/trajectory.py:104-126 | the trajectory is append-only over whole runs |
| Trajectory.NextFaithful | app/runtime/runtime.py:165-555 | every transition logs events the protocol automaton accepts and keeps the replayed state equal to the real one |
| Trajectory.TrajectoryReplaysTheRun | app/runtime/runtime.py:165-659 | for every run the automaton accepts the events, and folding them rebuilds call ids with statuses, result ids, step statuses and the failure count |
| Accounting.TrajectoryLength | app/runtime/runtime.py:165-555 | exact numbers of events and decisions, and the length bound 3 + 3·min(plan, max steps) + 4·max calls |
| Safety.NextWithinBudget | app/runtime/runtime.py:402-555 | every transition keeps every limit |
| Safety.RunsStayWithinBudget | app/runtime/budget.py:24-44 | no run exceeds calls, calls per step, failures or attempts; a completed run stayed strictly below the failure limit |
| Limits.StopsNameTheirLimit | app/runtime/budget.py:30-44 | a run stopped by a limit names the total call limit iff it is reached, else the per-step limit iff the step reached it, else the failure limit with exactly as many failures |
| Limits.StepLimitIsExact | app/runtime/runtime.py:198-210 | the step limit stops a run exactly behind the last step it allows, with at least one step left as planned |
| Safety.ContextIsExact | app/runtime/runtime.py:383-400 | the clamp at zero in the planner's context never clips |
| Safety.CallIdsDistinct | app/runtime/runtime.py:557-577 | no two calls of a run share an id |
| Safety.CallsAndResultsCorrespond | app/runtime/runtime.py:454-555 | results match calls one to one in order; only the last call may lack one, and only when the executor raised |
| Retries.RetriesAreDisciplined | app/runtime/retry.py:47-59 | in the trajectory a failure is followed by a retry iff the policy allows it, and a fatal failure is followed by nothing but the failed step and run |
| Retries.FailureKinds | app/runtime/retry.py:23-33 | for every error text: invalid arguments or unknown tool iff the documented mark stands after any blanks in any mixture of cases; a missing text and everything else is an execution error |
| Lifecycle.NextInOrder | app/runtime/runtime.py:198-322 | every transition keeps: finished steps, at most one running step, untouched steps |
| Lifecycle.StepsFinishInOrder | app/schemas/investigation.py:50-73 | for every planner, executor and clock the plan ends as finished steps followed by steps exactly as planned, and the stop reason says where; the finished steps pass the lifecycle validator if the clock never goes back |
| Lifecycle.CompletedIffAllStepsCompleted | app/runtime/runtime.py:248-275 | if the planner hands out pending steps, a run is completed iff every step completed |
| StepFailure.LastStepDecides | app/runtime/runtime.py:218-275 | at every reachable end of the last step the run will stop with step_failed iff the step's outcome carries no stop reason and it or an earlier step failed |
| StepFailure.ClosingTellsEvent | app/runtime/runtime.py:331-400 | a step stops the run iff the last event of the step is not a decision to complete or fail and not an unretried execution error |
| StepFailure.StepFailedMeans | app/runtime/runtime.py:248-275 | step_failed iff all steps are terminal, one failed, and the event in front of the last step's end is one that ends only the step |
| Lifecycle.StepFailedProseCounterexample | app/runtime/runtime.py:218-246 | a run with all steps terminal and one failed whose stop reason is not step_failed |
| Chronology.RunsAreChronological | app/runtime/trajectory.py:104-126 | sequence numbers are 1, 2, 3, …, timestamps follow them, and no call completes before it starts |
| AttemptBounds.AttemptsPerStepBounded | app/runtime/retry.py:43-54 | no step of any run makes more calls than the planner decided to call in it times the attempt limit |
| AttemptBounds.AttemptsPerStepUnbounded | app/runtime/retry.py:43-54 | for every n a run under an attempt limit of two completes its only step after n failed attempts |
| Deterministic.DeterministicPlanner.CreatePlan | app/agents/deterministic.py:131-159 | the plan and the planned-call table are those of the templates with fresh ids; what the templates ask is said by the PlannedQuestions rows |
| Deterministic.DeterministicPlanner.DecideNextAction | app/agents/deterministic.py:161-184 | looking the step up in the table and counting its successes computes the decision function that PlanRefinement is about |
| Deterministic.DeterministicPlanner.CountCompleted | app/agents/deterministic.py:292-304 | the id set of the step's calls and the loop over the results count the successful results of the step's calls |
| Deterministic.CreatePlanRegisters | app/agents/deterministic.py:131-159 | each of the five steps finds its own calls in the table although old entries stay in it |
| PlannedQuestions.EndpointQuestions | app/agents/deterministic.py:188-240 | step 1 searches by the alerting process, else by the host, else by the case alone, and then by the event type |
| PlannedQuestions.FileQuestions | app/agents/deterministic.py:242-251 | step 2 looks the file token up iff the command line has one |
| PlannedQuestions.NetworkQuestions | app/agents/deterministic.py:253-269 | step 3 searches by the destination, else by the source, and then by the alerting process iff it is known |
| PlannedQuestions.ReputationQuestions | app/agents/deterministic.py:271-277 | step 4 looks up an indicator iff it is the alert's non-empty destination or source address, the destination first |
| PlannedQuestions.KnowledgeQuestions | app/agents/deterministic.py:279-288 | step 5 asks for the destination and for the process stem, each iff there is one |
| PlannedQuestions.PlanIsLegal | app/agents/deterministic.py:188-288 | each step stands at its place, suggests the tool of its first call, and plans only calls with a tool allowed there, declared arguments and the trusted case id |
| PlannedQuestions.RunsAskLegally | app/agents/deterministic.py:161-184 | whatever the executor answers, every call of every run was planned for its step and is legal there |
| PlannedQuestions.CompletedRunsLookUpTheAddresses | app/agents/deterministic.py:271-277 | a completed run, with an executor that stamps results, has successfully looked up exactly the alert's non-empty addresses |
| PlanRefinement.FollowsGivesPrefix | app/agents/deterministic.py:161-184 | calls that follow the table succeed along a prefix of it |
| PlanRefinement.ProgressIsSuccesses | app/agents/deterministic.py:292-304 | with an executor that stamps results with their call's id, counting results by call id counts exactly the step's successful calls |
| PlanRefinement.RunsRefineThePlan | app/agents/deterministic.py:161-184 | with such an executor each step's successes are a prefix of its planned calls, all of them once it completed, and every failure is an attempt at the next planned call |
| SufficientBudget.SufficientBudgetSuffices | app/runtime/budget.py:24-44 | with an executor that stamps results with their call's id, a sufficient budget never ends a deterministic run with a step or call limit, whatever succeeds or fails |
| SufficientBudget.TemplateFitsDefaults | app/agents/deterministic.py:188-288 | the five-step template plans at most nine calls and fits the default limits |
| SufficientBudget.DefaultBudgetIsSufficient | app/runtime/budget.py:19-22 | with the defaults and such an executor no deterministic run hits a step or call limit |
| ForeignResults.ForeignIdsRepeatTheFirstCall | app/agents/deterministic.py:292-304 | if every call succeeds under an id that is no call id, the run repeats the first planned call until the smaller call limit stops it, having made exactly that many calls |
| LlmPlanner.LLMBudgetTracker.Consume | app/agents/llm_budget.py:60-68 | hands out consecutive request numbers until the budget is used up, then refuses |
| LlmPlanner.AgentDecisionTraceRecorder.Record | app/agents/decision_trace.py:76-114 | appends one entry under the next decision number |
| LlmPlanner.LLMPlanner.DecideNextAction | app/agents/llm_planner.py:190-316 | the request and repair loop over tracker and recorder computes the decision function; what that function accepts and keeps is said by the ModelAnswers rows |
| ModelAnswers.AcceptedIff | app/agents/llm_planner.py:318-394 | an answer is accepted iff it proposes no call, or a call with an allowed tool, budget, no foreign case id, declared arguments and a schema that accepts them under the trusted case id; tool and rationale are kept and the arguments are what the schema reports |
| ModelAnswers.RejectedAs | app/agents/llm_planner.py:318-394 | the recorded kind of a rejection is that of the first requirement the answer misses |
| ModelAnswers.FirstAcceptableDecides | app/agents/llm_planner.py:190-316 | the decision is the first acceptable answer within the repairs and the request budget, all answers before it being rejected; without an allowed tool or budget the step is completed unasked |
| ModelAnswers.OnlyTheCaseChanges | app/agents/llm_planner.py:376-394 | with schemas that return their input, accepted and proposed arguments agree on every key but the case id |
| ModelAnswers.DecisionsAreTraced | app/agents/llm_planner.py:227-314 | a decision leaves one entry a request: the rejected answers in order under their kinds, then the accepted one with its action and tool |
| LlmRuns.DecideFacts | app/agents/llm_planner.py:190-425 | whatever the client answers, an accepted call is allowed in its step and carries the trusted case id, and requests and entries stay in step |
| LlmRuns.CallsStayInTheirLane | app/agents/llm_planner.py:318-394 | every tool call of every run is in its step's allow-list with the trusted case id |
| ModelAnswers.RunsCallWhatWasProposed | app/agents/llm_planner.py:318-394 | every call of every run was proposed by the model in its step, with this tool and rationale and the schema's report of the proposed arguments |
| LlmRuns.RequestsPayForCalls | app/agents/llm_planner.py:201-232 | calls are at most requests times attempts, and requests at most the request budget |
| LlmRuns.EveryRequestIsTraced | app/agents/llm_planner.py:227-314 | every consumed request leaves exactly one entry, numbered consecutively, if the client only answers or raises its own error |
| LlmRuns.PlannerFailuresAreExplained | app/agents/llm_planner.py:227-316 | whenever a run ends with planner_failed the kept failure reason agrees with the spent budget or with the trace entry written last |
| LlmRuns.CallLimitsStopOnlyRetries | app/agents/llm_planner.py:345-361 | a call limit ends a run only right after a failed attempt scheduled for retry, and never with retries disabled |
| DecisionTrace.PendingCalls | app/agents/decision_trace.py:126-128 | groups the call ids by step and tool in order |
| DecisionTrace.CorrelateTraceWithRun | app/agents/decision_trace.py:117-148 | each accepted decision takes the next unconsumed call of its step and tool |
| DecisionTrace.CorrelationIsSound | app/agents/decision_trace.py:130-148 | no call is attached twice, step and tool agree, and order per step and tool is kept |
| DecisionTrace.AttachedIffNotRetried | app/agents/decision_trace.py:130-148 | the pairing finds the dispatched call iff no earlier call of that step and tool is a retry |
| DecisionTrace.RetryShiftsThePairing | app/agents/decision_trace.py:117-148 | two decisions of one step and tool, the first one retried: the second decision gets the retry, not its own call |
| DecisionTrace.CorrelationIsExactIffNotRetried | app/agents/decision_trace.py:117-148 | the same for every run of the model-driven planner; a blocked last decision gets no call |
| Runtime.TrajectoryRecorder.Record | app/runtime/trajectory.py:104-126 | appends one event with the next sequence number |
| Runtime.InMemoryRuntimeStore.SaveState | app/runtime/store.py:39-40 | stores the state under its incident and nothing else |
| Runtime.RuntimeState.WriteStep | app/runtime/runtime.py:277-322 | assigning to one live step changes that step's view and no other |
| Runtime.RuntimeState.WriteLastCall | app/runtime/runtime.py:434-470 | assigning to the newest live call changes that call's view and no other |
| Runtime.RuntimeState.CallsInStep | app/runtime/runtime.py:383-390 | counts the calls of the step |
| Runtime.InvestigationRuntime.CreateToolCall | app/runtime/runtime.py:557-577 | appends one requested call under a fresh id |
| Runtime.InvestigationRuntime.RecordAttempt | app/runtime/runtime.py:579-583 | keeps the highest number of attempts per step |
| Runtime.InvestigationRuntime.Terminate | app/runtime/runtime.py:631-659 | marks, saves and records the end, and returns the run of that state |
| Runtime.InvestigationRuntime.DriveStep | app/runtime/runtime.py:200-246 | starting, running and closing one step leads where the machine leads |
| Runtime.InvestigationRuntime.StartStep | app/runtime/runtime.py:277-296 | writes the step object in place as the machine's step start |
| Runtime.InvestigationRuntime.FinishStep | app/runtime/runtime.py:298-322 | writes the step object in place as the machine's step end |
| Runtime.InvestigationRuntime.ExecutePlannedToolCall | app/runtime/runtime.py:402-555 | the attempt loop ends and leads where the machine leads |
| Runtime.InvestigationRuntime.RunStep | app/runtime/runtime.py:324-381 | the decision loop ends and leads where the machine leads |
| Runtime.InvestigationRuntime.AskPlanner | app/runtime/runtime.py:331-366 | one question to the planner is one decision transition of the machine |
| Runtime.InvestigationRuntime.BuildContext | app/runtime/runtime.py:383-400 | builds the machine's planning context from the live objects |
| Runtime.InvestigationRuntime.TerminateForStopReason | app/runtime/runtime.py:598-629 | status, stop reason, event and stored state agree |
| Runtime.InvestigationRuntime.Drive | app/runtime/runtime.py:165-275 | planning and the step loop lead to the machine's end |
| Runtime.InvestigationRuntime.Run | app/runtime/runtime.py:129-163 | the returned run and the stored state are those of the state machine, for every collaborator |
| Ordering.SortBySorts | app/evidence/provenance.py:81-85 | sorting gives a sorted permutation headed by a least element |
| Provenance.PrimaryIsLeast | app/evidence/provenance.py:71-101 | the primary reference is a least one, and the head of the stored list |
| Provenance.OrderIsLexicographic | app/evidence/provenance.py:71-78 | references are ordered by result, then call, then record, then raw reference |
| Dedup.EvidenceAccumulator.Add | app/evidence/dedup.py:93-127 | registers one occurrence: first content, every reference, united tags |
| Dedup.EvidenceAccumulator.Build | app/evidence/dedup.py:129-154 | evidence and index are those of the occurrence list |
| Dedup.ItemIsFaithful | app/evidence/dedup.py:93-154 | an item has its first occurrence's content and type, all tags, and a sorted permutation of all references with the primary as minimum |
| Dedup.EveryOccurrenceIsKept | app/evidence/dedup.py:93-127 | over all identities as many occurrences are kept as were seen |
| Dedup.SourcesConserved | app/evidence/contracts.py:84-97 | the source references add up to the candidate count, and the duplicate count never clips |
| Dedup.IdsDense | app/evidence/dedup.py:135-138 | item k has id EV-(k+1), and ids are unique |
| Dedup.BuiltIsValid | app/evidence/contracts.py:66-82 | what the accumulator builds passes the index validator |
| Dedup.EvidenceIsStable | app/evidence/dedup.py:79-154 | later occurrences and other case links keep id, type and content of every old item and only add references |
| Fingerprints.FingerprintsMeetIff | app/evidence/dedup.py:35-51 | two reputation assertions are one record iff type, reputation and confidence agree and indicator and source read the same side by side |
| Fingerprints.SameIndicatorKeptApart | app/evidence/dedup.py:35-51 | two sources of one indicator are kept apart, and so are different assertions of one source |
| Fingerprints.DifferentIndicatorsMeet | app/evidence/dedup.py:35-51 | two different indicators can share a fingerprint |
| Extractor.DeterministicEvidenceExtractor.CollectCaseIndicators | app/evidence/extractor.py:210-289 | the indicators are the alert's fields and the telemetry records' fields, folded |
| Extractor.DeterministicEvidenceExtractor.ExtractRecords | app/evidence/extractor.py:318-358 | a record list is taken record by record, a malformed one adding a warning only |
| Extractor.DeterministicEvidenceExtractor.ExtractPayload | app/evidence/extractor.py:360-652 | a handler takes its lists in order and skips a missing one with a warning; what it makes of a record is said by the RecordContents rows |
| RecordContents.ReadingAgrees | app/evidence/extractor.py:304-718 | a record is accepted iff its schema accepts it, and its content has each field iff the record has a value for it, and then that value, for all seven record classes |
| RecordContents.ReadingTypeFits | app/evidence/extractor.py:304-358 | the evidence type is that of the record list; for endpoint events the event type decides |
| RecordContents.ReadingRefersTo | app/evidence/provenance.py:32-77 | the reference names the tool, the record id of the content and the raw record's place |
| RecordContents.ReadingLinks | app/evidence/extractor.py:540-718 | a reputation is case-linked iff it backs a matched file, or its indicator is the case's or was asked for; a report iff it lists an indicator of the case |
| Extractor.DeterministicEvidenceExtractor.ExtractResult | app/evidence/extractor.py:172-195 | unknown calls, failures, unmapped tools and non-object payloads are skipped as documented |
| Extractor.DeterministicEvidenceExtractor.Extract | app/evidence/extractor.py:161-206 | the extraction is the deduplication of exactly the occurrences taken from the run |
| ExtractionLaws.EveryRawRecordIsAccounted | app/evidence/extractor.py:304-652 | every raw record of a readable list is one candidate or one invalid-record warning |
| CaseLinks.TechniquesFollowReports | app/evidence/extractor.py:540-652 | an ATT&CK record is case-linked iff a case-linked report taken before it lists its technique |
| CaseLinks.CaseIndicatorsAre | app/evidence/extractor.py:210-289 | a text is one of the case's indicators iff the alert names it or a telemetry record of a successful result does in one of the listed fields |
| ExtractionLaws.ItemIsShaped | app/evidence/dedup.py:30-61 | identities of different record classes never meet, so type, tags and class of every item agree |
| RecordContents.ItemsSayWhatRecordsSay | app/evidence/extractor.py:161-206 | every item says, field by field, what the raw record behind its first occurrence says |
| RecordContents.ReadableHasItem | app/evidence/extractor.py:161-206 | every readable record of the run stands behind an item under its own identity |
| ExtractionLaws.ExtractionIsSound | app/evidence/extractor.py:161-206 | every extraction passes its validator, is shaped, and every reference names a successful result and the call it answers |
| ExtractionLaws.ExtractionIsStable | app/evidence/extractor.py:161-206 | appending results never renumbers or re-identifies evidence, only adds references and never loses a case link |
| ExtractionLaws.LookupsAreFilters | app/findings/index.py:205-224 | of extracted evidence every lookup, by path too, is the filtered evidence list |
| Queries.GroupItems | app/reporting/summary.py:75-81 | filling a dictionary item by item and listing it by key gives the distinct keys in order, each with its items in order |
| Queries.GroupKeysAre | app/reporting/summary.py:75-81 | the keys are distinct, sorted, and exactly those of the grouped items |
| EvidenceIndexing.EvidenceIndex.constructor | app/findings/index.py:66-79 | all seven tables and the id dictionary agree with the evidence list |
| EvidenceIndexing.EvidenceIndex.IndexItem | app/findings/index.py:205-224 | filing one item extends every table by exactly its keys |
| EvidenceIndexing.EvidenceIndex.Item | app/findings/index.py:93-95 | an id resolves to its item, or to nothing when unknown |
| EvidenceIndexing.EvidenceIndex.Lookup | app/findings/index.py:150-172 | every id of an entry resolves, to the scanned items in extraction order |
| EvidenceIndexing.LookupIsFilterIff | app/findings/index.py:205-224 | a lookup is the filtered evidence list iff no item is filed twice under the key |
| EvidenceIndexing.FiledTwice | app/findings/index.py:205-224 | a hand-made item with two equal path fields is listed twice |
| EvidenceIndexing.EvidenceIndex.ObservedOccurrences | app/findings/index.py:174-199 | exactly the telemetry items that observe the indicator; none for a blank one |
| EvidenceIndexing.EvidenceIndex.RecordIds | app/findings/index.py:139-146 | the distinct record ids in order of first occurrence |
| Findings.FindingEngine.ProcessDrafts | app/findings/engine.py:158-247 | the process rule's loop makes the drafts of its groups in key order; their grades are said by FindingGrades.GradesAreExact |
| Findings.FindingEngine.FileDrafts | app/findings/engine.py:249-330 | the file rule's loop, joining by table lookups, makes the drafts the rule gives by scanning |
| Findings.FindingEngine.NetworkDrafts | app/findings/engine.py:332-400 | the network rule's loop makes the drafts of its groups in key order |
| Findings.FindingEngine.CollectIndicators | app/findings/engine.py:601-613 | the dictionary holds exactly the malicious records by indicator, and the skipped list exactly the unobserved ones |
| Findings.FindingEngine.IndicatorDrafts | app/findings/engine.py:402-460 | the indicator rule over that dictionary makes the drafts the rule gives by scanning |
| Findings.FindingEngine.DnsToFlowDrafts | app/findings/engine.py:470-531 | the DNS-to-flow join makes the drafts the rule gives by scanning |
| Findings.FindingEngine.FileWriteDrafts | app/findings/engine.py:533-597 | the file-write join makes the drafts the rule gives by scanning |
| Findings.FindingEngine.KeepExisting | app/findings/engine.py:623-630 | the known ids, each once, in order of first occurrence |
| Findings.FindingEngine.Build | app/findings/engine.py:121-154 | the findings are the numbered drafts of all rules in the fixed order, and the skipped indicators are replaced |
| FindingRules.DraftKnown | app/findings/engine.py:158-597 | a draft cites existing evidence only |
| FindingLaws.RuleKeysAre | app/findings/engine.py:158-597 | a rule looks at a key exactly when some item triggers it |
| FindingLaws.AllKeysDistinct | app/findings/engine.py:121-132 | no two drafts are about the same rule and group or record |
| FindingLaws.FindingsAreGrounded | app/findings/contracts.py:85-89 | every draft becomes a finding at its position, citing exactly the draft's evidence, existing, non-empty and once each, under a unique id |
| FindingMeanings.CitationsAreExact | app/findings/engine.py:158-597 | a draft cites exactly the items its rule relates to its group or record: reputation by the file's own hash or by the address, flows by address and host or process, so unrelated records are never merged |
| FindingGrades.GradeFollowsCitations | app/findings/engine.py:158-597 | a finding stands above the base severity of its type iff an item it cites raises it: an execution out of a document, encoded, hidden or from a user-writable path, a flow by an interpreter, telemetry showing the indicator at work, a malicious reputation |
| FindingGrades.GradesAreExact | app/findings/engine.py:158-597 | severity and support of every finding as if-and-only-ifs on the signs its cited items show, step by step and rule by rule |
| FindingTriggers.ProcessFindingIff | app/findings/engine.py:158-196 | a finding cites an execution iff it is observed and runs a script interpreter |
| FindingTriggers.NetworkFindingIff | app/findings/engine.py:332-348 | a network finding cites a flow iff it is observed and external |
| FindingTriggers.FileFindingIff | app/findings/engine.py:249-275 | a finding is about a file record iff its hash has a bad reputation, its path is user-writable or it is unsigned |
| FindingTriggers.IndicatorFindingIff | app/findings/engine.py:402-460 | a finding cites a malicious record iff telemetry observes its indicator |
| FindingTriggers.FlowFindingIff | app/findings/engine.py:470-531 | a correlated pattern cites a DNS record iff its external answer was followed by a flow of the same host or process |
| FindingTriggers.WriteFindingIff | app/findings/engine.py:533-597 | a correlated pattern cites a file record iff a script interpreter touched the file at its user-writable path |
| FindingTriggers.ProcessFindingGroups | app/findings/engine.py:158-180 | a process finding cites exactly the executions of one host, process and parent |
| FindingTriggers.NetworkFindingGroups | app/findings/engine.py:332-348 | a network finding cites exactly the flows to one destination, port and direction |
| FindingTriggers.RelatedIndicatorsAre | app/findings/engine.py:158-531 | what a finding names is exactly the non-empty texts its type takes from the items it cites |
| FindingMeanings.CorrelationIsIndependent | app/findings/engine.py:470-597 | a correlated pattern cites two different observations of different type or class |
| FindingLaws.MatchedXorSkipped | app/findings/engine.py:402-409 | a stably normalising malicious indicator yields a finding or is reported skipped, never both |
| Verdicts.VerdictEngine.Links | app/verdict/engine.py:268-296 | the two scans with early returns find a link iff some cited item links, and raise iff the first scan meets an unknown id before any link |
| Verdicts.VerdictEngine.PairFindings | app/verdict/engine.py:250-266 | the nested loops collect the cross-source pairs, or raise iff one of the comparisons does |
| Verdicts.VerdictEngine.ObservedBenignEvidence | app/verdict/engine.py:239-248 | exactly the benign records whose indicator telemetry observes |
| Verdicts.VerdictEngine.Build | app/verdict/engine.py:64-202 | the verdict on a run, its summary and its findings is the decision that the VerdictLaws rows describe, or an exception iff the pairing raises |
| Verdicts.ResolvableNeverFails | app/verdict/engine.py:250-296 | findings that cite existing evidence never make the pairing raise |
| VerdictLaws.OrderedIdsAre | app/verdict/engine.py:231-237 | the supporting ids are the findings' ids, sorted and once each |
| VerdictLaws.VerdictIsValid | app/verdict/contracts.py:56-67 | every verdict passes its validator and cites existing findings and evidence |
| VerdictLaws.DispositionsMean | app/verdict/engine.py:7-17 | each disposition holds iff its documented condition on the findings, their links and the allow-list does |
| VerdictLaws.SupportMeans | app/verdict/engine.py:113-202 | the supporting ids are exactly both sides of all pairs, else the malicious matches, else the raised findings, else the low ones of a benign verdict |
| VerdictLaws.ConfidenceMeans | app/verdict/engine.py:101-202 | finished run or not: high iff a linked pair of a finished run, a raised correlation without any match, or benign without gaps; low iff inconclusive |
| VerdictLaws.CounterMeans | app/verdict/engine.py:82-92 | the counter-evidence is exactly the observed allow-list matches, and none for a benign verdict |
| VerdictLaws.RuleMeans | app/verdict/engine.py:101-202 | the recorded rule is that of the disposition |
| VerdictLaws.SecondPairIff | app/verdict/engine.py:101-104 | on the evidence's own findings the bar of an unfinished run is met iff two different pairs are linked |
| VerdictLaws.LinkMeans | app/verdict/engine.py:268-296 | a behaviour is linked iff a cited item carries the indicator: 64 hex digits by the recorded hash alone, anything else as destination, as answer, or on an item naming a script interpreter |
| VerdictLaws.AllowListMatchMeans | app/verdict/engine.py:239-248 | an allow-list match is a benign reputation whose indicator some telemetry carries |
| VerdictLaws.KnowledgeAloneIsInconclusive | app/verdict/engine.py:98-202 | without observed telemetry there is no finding and the verdict is inconclusive |
| VerdictLaws.MaliciousIsObserved | app/verdict/engine.py:113-130 | a malicious verdict rests on a malicious record, telemetry observing its indicator, and a linked behaviour finding |
| VerdictLaws.CapHoldsIff | app/verdict/engine.py:137-156 | an unfinished run's confidence stays below high iff no correlated finding stands without a malicious match |
| VerdictLaws.CapFails | app/verdict/engine.py:137-156 | a DNS answer and a flow to it give an unfinished run high confidence |
| Monotonicity.DraftGrows | app/findings/engine.py:158-597 | under growing evidence each rule's draft stays under its key, at least as severe, as supported and as widely cited |
| Monotonicity.EveryFindingGrows | app/findings/engine.py:121-154 | each old finding maps to a new one that is at least as strong on at least the same evidence |
| Monotonicity.CrossSourcePairsAre | app/verdict/engine.py:250-266 | the pairs are exactly the linked combinations of a malicious and a behaviour finding |
| Monotonicity.PairsNeverShrink | app/verdict/engine.py:250-296 | the number of pairs never goes down under growing evidence |
| Monotonicity.VerdictIsMonotone | app/verdict/engine.py:82-202 | growing evidence never lowers the disposition, whether the run is unfinished both times, finished both times, or finishes in between |
| Monotonicity.OrderIsIrrelevant | app/verdict/engine.py:82-202 | reordering the evidence does not change the disposition |
| Noninterference.FindingsUnaffected | app/findings/engine.py:121-154 | leaving out every threat-intelligence and ATT&CK record leaves the finding list identical |
| Noninterference.FindingsCiteNoReference | app/findings/engine.py:249-597 | no finding cites such a record |
| Noninterference.ReferencesDoNotInterfere | app/verdict/engine.py:82-202 | evidence differing only in such records gives the same findings and verdict, up to a benign verdict's confidence when the gaps differ |
| InformationGaps.GapFreeIff | app/reporting/summary.py:499-627 | a run leaves no gap iff it completed a plan without a failed step, every call has a result, every result succeeded and lacks nothing its tool reports as missing, and there is evidence, all of it linked |
| InformationGaps.GapsAre | app/reporting/summary.py:499-627 | a gap is listed iff the run shows it, kind by kind and with its ids |
| InformationGaps.LackingAre | app/reporting/summary.py:565-627 | what an answer lacks is exactly what it reports as not found, each once |
| Summaries.SummaryBuilder.Observe | app/reporting/summary.py:153-495 | a section lists one observation a group |
| Summaries.SummaryBuilder.CollectGaps | app/reporting/summary.py:499-563 | plan, results, calls and outcome are gone through in order, with the dictionary of results by call |
| Summaries.SummaryBuilder.CountTypes | app/evidence/contracts.py:99-103 | counting item by item gives the number of items of each type that occurs |
| Summaries.SummaryBuilder.Build | app/reporting/summary.py:114-149 | status, counts, the sections in order, the gaps and the unlinked knowledge |
| Summaries.SummaryIsValid | app/reporting/contracts.py:69-84 | every summary passes its validators, for any run and any evidence |
| SummaryLaws.SummaryPartitionsEvidence | app/reporting/summary.py:114-149 | observations and the unlinked list together contain every extracted id exactly once |
| SummaryLaws.ObservedTogetherIff | app/reporting/summary.py:153-495 | two items stand in one observation iff they belong to one section and share the facts it groups by |
| SummaryLaws.CategoriesMean | app/reporting/summary.py:153-495 | the category of an observation is that of the items it lists |
| SummaryLaws.TypeCountsAddUp | app/evidence/contracts.py:99-103 | the counts are those of the items of each type, list no other type, and add up to the evidence |
| Reports.FinalReportBuilder.BuildEvidenceIndex | app/reports/builder.py:106-128 | one index row an item, in order |
| Reports.FinalReportBuilder.Build | app/reports/builder.py:72-104 | the report is assembled from the run, the findings, the verdict, the summary and the trace, and every lookup on the way succeeds |
| Reports.ReportIsValid | app/reports/contracts.py:77-95 | the report and everything in it passes its validators, for every valid extraction and any run |
| Reports.ReportConservesSources | app/reports/builder.py:106-128 | the source counts of the index add up to the candidates, and the floor of one never applies |
| Pipeline.Investigate | app/reports/builder.py:72-104 | from any run record to its report no validator fails, records and ids are conserved on the way, and status, completion, observations and gaps are those of the record |
| Pipeline.RowsResolve | app/reports/builder.py:106-128 | every row of the index and each of its additional sources names a successful result of the run and the call it answers, the primary one first |
| Pipeline.TraceRefsResolve | app/reports/builder.py:243-256 | a call id in the trace references of a correlated trace is that of a call of the run with the decision's tool and step |
| Pipeline.ContinuationGrows | app/evidence/extractor.py:161-206 | a later state of a run only adds evidence |
| Pipeline.MoreResultsNeverLower | app/verdict/engine.py:82-202 | appending tool results never lowers the disposition, although it may change tags and the run may complete in between |
| Pipeline.RunContinues | app/runtime/runtime.py:454-555 | from any point of a run to its end, calls and results only extend, so old results keep their calls, if results carry their call's id |
| Pipeline.GoingOnNeverLowers | app/verdict/engine.py:82-202 | at whatever point a run's evidence is judged, going on to the end never lowers the disposition, the completion being that of the run at either point |
| Pipeline.CompletedIsFlawlessIff | app/reporting/summary.py:499-563 | a completed run is without step, result and call gaps iff no attempt failed, retried or not, and every tool found something |
| Pipeline.BenignIsSureIff | app/verdict/engine.py:158-183 | a benign verdict on a run has high confidence iff no attempt of the run failed, every tool found something and all evidence is linked |
| EndToEnd.NetworkEventsAreFound | app/findings/engine.py:332-400 | every network event that its id identifies is an item, field by field, and a network finding cites it iff its destination is external |
| EndToEnd.ConnectionToMaliciousIsMalicious | app/verdict/engine.py:94-111 | a flow to an external address that a malicious record names makes a finished run malicious with high confidence and an unfinished one at least suspicious |

## Left out

- Titles, descriptions, rationales, summaries, Markdown and the wording of gaps and limitations: text only. A gap keeps its kind and its id; the limitation and methodology lists of the report are fixed texts.
- The verdict's copy of the gap list: the summary and the report carry it.
- `sanitize_details` and every other redaction: an event keeps its kind and its ids.
- The stop reason `runtime_error`: clock, store and id generator are total functions, so it cannot arise.
- The five query tools and the tool executor: the executor is an arbitrary function; where a theorem needs a result to carry its call's id, it says so.
- The HTTP client, the application, settings, demo programs and dataset loaders.
- JSON and record validation: schemas and model answers are arbitrary values, and validators are predicates. Identifier prefixes and non-blank text of validated records are taken as given.
- The prompt, the context summarisers and their truncation.
- Wall-clock latency; timestamps only as a clock that is monotone where a theorem says so.
- `ipaddress`, `casefold`, `strip` and `str` in the evidence pipeline: arbitrary functions.
- Retries.FailureKinds: lower-casing covers ASCII letters and stripping the four usual blanks, because the two prefixes are ASCII; other white space in front of a prefix is not modelled.
- Deterministic.DeterministicPlanner.CreatePlan: does not model the stamping of the incident id on the plan, which changes no step.
- Ids.SequentialIdGenerator.Take: a start below one is excluded by the constructor's precondition, where the source raises.
- Extractor.DeterministicEvidenceExtractor.ExtractPayload: the five handlers are one method over a table of their record lists; reliability, observation times and summaries of items are not kept.
- Pipeline.GoingOnNeverLowers: stated for an executor that stamps results with their call's id; a foreign id could name a call created only later.
- Pipeline.BenignIsSureIff: stated for such an executor as well, because results are matched with calls by that id.
- Summaries.SummaryBuilder.Observe: the eight observation builders are one method over a table of ten groupings.
- Runtime.InvestigationRuntime.Run: containment of an unexpected internal exception is not modelled, for the reason given for `runtime_error`.
- The offline payload adapter `build_report_from_payload`: re-validation of parsed JSON followed by the same builder.
