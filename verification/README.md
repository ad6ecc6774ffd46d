# Incident-diagnosis agent: a verified model

This project models the hard parts of an incident-diagnosis service and proves what they promise.

* **Task queue and workers.** A Redis-Streams consumer group (stream, cursor, pending set, dead letters, state and
  claim hashes) is first an operation on values (`Broker`), then a class that updates string dictionaries and refines
  it (`TaskQueue`), and `WorkerProtocol` interleaves any number of workers, publishers, cancellers and crashes over
  it. `WorkerSteps` proves its invariant, `WorkerConservation` that no task is lost, duplicated or altered,
  `WorkerDrain` that retries and all work end, `WorkerRecords` what the recorded state tells of a task, `Deadlines` and
  `WorkerDeadlines` who is turned away when, and `WorkerAnomalies` where the protocol falls short. `DiagnosisWorker`
  shows that the worker's own code performs steps of that protocol, `WorkerRounds` what a round leaves behind.
  `MemoryQueue` is the in-process queue and its workers on one event loop, `MemoryRecords` what it records.
* **Agents.** `LlmAgent` takes the three LLM replies and all tool answers as arbitrary values and proves what the
  guard-rails force; `RuleAgent` is the nine-node rule pipeline. Both share `Governance` (traceability, ranking,
  verdict), `Merging` (hypothesis merging in both variants), `Investigation` (plan, budget, evidence collection) and
  `StableSort` (Python's `sorted`). What the evidence forces is said in its own terms, by logs, readings and
  deployments, in `GuardrailMeaning` and `RuleMeaning`; `ReplyMeaning` says how replies are read and `MergeMeaning` what
  merging makes of summaries.
* **Runbooks.** `RunbookStore` is the versioned store on values, `RunbookObjects` the objects it updates in place,
  `Bm25` the index and its scores, `RunbookSearch` the ranked search and `SearchEvaluation` recall@k and MRR.
  `RunbookMeaning` and `SearchMeaning` say field by field and word by word what store and index do.
* **Logs and events.** `LogProcessor` filters, de-duplicates, counts and trims logs. `SseManager` and `SseStreams`
  model subscription, fan-out and the event streams; `SseFrames` frames events and interprets them as sections 9.2.5
  and 9.2.6 of the WHATWG HTML Living Standard prescribe, and `StreamMeaning` says what a client reads.

Code that updates state is a class or a method with a loop, proved equal to a function on values; the properties are
lemmas about those functions, over every input, every run or every reachable state.

## What does not hold

Some expectations are false of the code. For each there is a lemma that says exactly when, and an input that shows it.

* **A cancelled task is not run.** A claim on the Redis queue overwrites CANCELLED whenever it hands the task out
  (`WorkerAnomalies.ClaimForgetsCancellation`). For a task published once, while a worker works on it the task is
  cancelled if and only if it was cancelled since the claim (`WorkerAnomalies.CancelledSinceClaim`). So the first check
  sees it, and the check before the agent stops it, if and only if the task was cancelled between the claim and that
  check (`WorkerAnomalies.AgentRunsExactly`). Input: publish, cancel, claim, check, deadline check, start: the agent
  runs (`WorkerAnomalies.CancelledBeforeClaim`).
* **A task cancelled while it is worked on stays cancelled.** Of its holder's steps, failing and completing it erase the
  cancellation, no others (`WorkerAnomalies.HolderKeepsCancellation`). For a task published once and cancelled once
  after its delivery, the cancellation lasts if and only if no holder of the entry fails or completes it
  (`WorkerAnomalies.StaysCancelledExactly`). A failed one is queued again if and only if retries are left
  (`WorkerAnomalies.CancelledRunIsRetried`). Inputs: cancelled before the agent starts, and queued again
  (`WorkerAnomalies.CancelledTaskReturns`); cancelled while the agent runs, and completed
  (`WorkerAnomalies.CancelledTaskCompletes`).
* **A claim gives the task to someone.** A claim raises if and only if the next deadline is a time without a zone
  (`DiagnosisWorker.Worker.ProcessOne`), which is exactly when it strands the entry
  (`WorkerAnomalies.ClaimStrands`): in flight, held by nobody, in every later state
  (`WorkerAnomalies.StrandedForever`). Input: `WorkerAnomalies.NaiveDeadlineStrands`.
* **A task is retried up to the limit it was published with.** That limit is never stored; it is honoured in all
  reachable states if and only if it is three (`WorkerAnomalies.LimitHonouredExactly`). Input: published with limit 0,
  failed once, queued again (`WorkerAnomalies.NoRetriesWanted`).
* **A dead-lettered task is recorded as failed.** Of a task published once it is, if and only if a worker gave it up; a
  claim that finds it late leaves the record as it was (`WorkerDeadlines.DeadLetterRecorded`). Input: claimed after more
  than five minutes, and QUEUED still (`WorkerDeadlines.LateTaskStaysQueued`).
* **Reporting a failure late is harmless.** After a completion it queues the task again if and only if retries are left,
  writes a dead letter for the completed task otherwise, and the books balance in neither case
  (`WorkerAnomalies.LateFailureDuplicates`). Input: published, diagnosed, completed, then failed
  (`WorkerAnomalies.FinishedTaskReturns`). The protocol therefore lets only the acknowledgement follow a completion.
* **The rule agent always reports.** It divides by the baseline of an order-service latency reading to word a summary:
  provided a present reading is a number, the run stops if and only if such a baseline is zero and the reading positive
  (`RuleAgent.Diagnose`). Input: `RuleAgent.StopsWithoutBaseline`.
* **DIAGNOSED needs evidence.** The LLM can always ask for it; `LlmAgent.OverrideExactly` gives the status of every
  report, `LlmAgent.DiagnosedWithoutEvidence` that of a run that collected nothing. Input: all tools fail and the
  reply asks for DIAGNOSED (`LlmAgent.DiagnosedOnRequest`).
* **A superseded runbook never returns.** Some marking and verifying makes a superseded version active again if and only
  if the moment is not past its closing, it has a version name, and no earlier version has the same name
  (`RunbookStore.SupersededReturnsExactly`), so only until the tick of the last addition
  (`RunbookStore.SupersededNeverReturns`). Inputs: two versions named differently, where the first returns
  (`RunbookStore.SameTickReturns`); three under the default name, where the first can return and the second cannot
  (`RunbookStore.SameNameStaysSuperseded`).
* **`dedup_count` counts duplicates.** It does if and only if the filters removed nothing
  (`LogProcessor.DedupCountExactly`). Input: one entry below the minimum level
  (`LogProcessor.FilteredEntryCountsAsDuplicate`).

## Modelling notes

* JSON and ISO 8601 codecs, the text of time errors, content hashing, message normalisation, the logarithm and the
  recency of a deployment are parameters; the lemmas state the facts they need (round trips, JSON text on one line, log x > 0 for x > 1). A codec
  with all of the assumed facts is constructed in `Codecs`. A JSON number is its decimal digits and exponent.
* Each Redis queue method is one atomic step. Stream entries are identified by their position.
* One search, one evaluation, one store operation reads the clock once.
* Text is ASCII for case folding and `int()` reads optionally signed digits.
* Task messages compare by value; the payload is a JSON value.
* `top_k` and the trimming budgets are naturals; k1 >= 0 and 0 <= b <= 1 for the score lemmas.

## Model

| member | source | states |
|---|---|---|
| TaskMessages.MessageRoundTrip | python/app/infrastructure/task_queue.py:65-88 | reading back a written message gives the message with trace id "TRACE-" and its id where it had none, and a deadline 300 seconds away where it had none |
| TaskMessages.MessageRoundTripExactly | python/app/infrastructure/task_queue.py:65-88 | from_dict(to_dict(m)) is m if and only if m has a trace id and a deadline |
| TaskMessages.RecordToMessage | python/app/infrastructure/task_queue.py:241-242 | the task-state hash, with its snake_case names, reads back as a message of the same task, incident, payload and retry count |
| TaskMessages.StatusText | python/app/infrastructure/task_queue.py:44-52 | each status is stored as the text of its own name |
| Codecs.FaithfulCodecExists | python/app/infrastructure/task_queue.py:65-88 | the facts assumed of the JSON and time codecs can all be met |
| TaskQueue.WireRoundTrip | python/app/infrastructure/task_queue.py:135-156 | every entry written to the stream is read by claim as the message that was published |
| TaskQueue.TaskQueue.Publish | python/app/infrastructure/task_queue.py:118-136 | the dictionaries after publish stand for the broker with a fresh QUEUED record and one more entry; the returned id is its position |
| TaskQueue.TaskQueue.Deliver | python/app/infrastructure/task_queue.py:143-152 | the next entries, at most count, become pending and the cursor moves past exactly them |
| TaskQueue.TaskQueue.HandleOne | python/app/infrastructure/task_queue.py:155-188 | a delivered entry is handed out iff its deadline is missing, unreadable or an instant not past; a past one gets a dead letter and leaves pending; a zoneless one raises |
| TaskQueue.TaskQueue.ClaimTasks | python/app/infrastructure/task_queue.py:138-190 | claim refines the broker, and deals with the delivered entries by their deadlines as Deadlines.Deals says |
| Deadlines.ClaimsByDeadline | python/app/infrastructure/task_queue.py:138-190 | a claim of any size delivers the next entries, hands out in order those whose deadline is missing, unreadable or not past, buries exactly the late ones with a dead letter and an ack, stops at the first zoneless one, and records exactly what it hands out |
| WorkerDeadlines.ClaimedByDeadline | python/app/infrastructure/task_queue.py:155-188 | for one entry with an instant as deadline: handed to the worker as CLAIMED iff now <= that instant, a dead letter "deadline exceeded" and no longer pending iff it is past; empty and unreadable deadlines are handed out, zoneless ones left pending with nobody |
| WorkerDeadlines.FiveMinutes | python/app/infrastructure/task_queue.py:71-71 | a message without a deadline of its own can be claimed for exactly 300 seconds after it was published |
| WorkerDeadlines.CheckedByDeadline | python/app/worker/diagnosis_worker.py:79-84 | the worker's own check goes on exactly without a deadline or with an instant that is not past; otherwise the task fails with the right reason |
| WorkerDeadlines.DeadLetterRecorded | python/app/infrastructure/task_queue.py:159-168 | in every reachable state a dead-lettered once-published task is recorded FAILED iff a worker gave it up; a claim that finds it late leaves the record alone |
| WorkerDeadlines.LateTaskStaysQueued | python/app/infrastructure/task_queue.py:159-168 | claimed after more than five minutes, a task is dead-lettered and its record says QUEUED |
| TaskQueue.TaskQueue.Ack | python/app/infrastructure/task_queue.py:192-194 | only the acknowledged entry stops being pending |
| TaskQueue.TaskQueue.Complete | python/app/infrastructure/task_queue.py:196-206 | the record becomes COMPLETED with its result and the claim is dropped, nothing else changes |
| TaskQueue.TaskQueue.Requeue | python/app/infrastructure/task_queue.py:208-233 | with retries left the record becomes RETRYING with one more retry and the stored payload is appended to the stream |
| TaskQueue.TaskQueue.GiveUp | python/app/infrastructure/task_queue.py:234-245 | without retries left the record becomes FAILED and, given a message id, a dead letter is written |
| TaskQueue.TaskQueue.Fail | python/app/infrastructure/task_queue.py:208-245 | fail on string dictionaries equals fail on the broker, for known and unknown tasks |
| TaskQueue.TaskQueue.Cancel | python/app/infrastructure/task_queue.py:247-261 | a known task becomes CANCELLED and loses its claim; an unknown one is left alone and reported so |
| TaskQueue.TaskQueue.GetState | python/app/infrastructure/task_queue.py:263-279 | every field read from the dictionaries is the broker record's, with the defaults of missing fields; nothing for unknown tasks |
| TaskQueue.TaskQueue.IsCancelled | python/app/infrastructure/task_queue.py:281-284 | true exactly for tasks whose record says CANCELLED |
| TaskQueue.TaskQueue.SendToDlq | python/app/infrastructure/task_queue.py:286-292 | the dead letter carries the whole message, the original entry id, the error and the time |
| WorkerSteps.StepKeepsInv | python/app/worker/diagnosis_worker.py:57-126 | every enabled step of any worker, publisher or canceller keeps the books: shape, pending set, holdings, balance and integrity of every task |
| WorkerSteps.ReachableInv | python/app/infrastructure/task_queue.py:118-245 | the books hold in every reachable state of any interleaving, crashes included |
| WorkerConservation.Conservation | python/app/infrastructure/task_queue.py:118-245 | a task published once has exactly one live entry: undelivered, in flight, completed, acked as cancelled or dead, all others were retried; which of the five it is can be read off cursor, pending list, recorded result and dead letters, and they exclude each other |
| WorkerConservation.ReachableOutcomes | python/app/infrastructure/task_queue.py:196-206 | in every reachable state a record holds a result iff an entry of its task was completed |
| WorkerConservation.OneHolder | python/app/worker/diagnosis_worker.py:57-126 | no two workers hold the same once-published task |
| WorkerConservation.NothingIsAltered | python/app/infrastructure/task_queue.py:208-292 | every entry and dead letter of a once-published task carries its original payload and incident, and if it was published with retry count 0, its stream entries carry the attempts 0, 1, ..., retry_count in order |
| WorkerDrain.RetriesAreBounded | python/app/infrastructure/task_queue.py:208-245 | entries of a task = publishes + stored retries, retries are at most three, so a once-published task is delivered at most four times |
| WorkerDrain.StepLowersMeasure | python/app/infrastructure/task_queue.py:138-245 | without publishing, every delivery and every retry lowers the measure by exactly one and no other step changes it |
| WorkerDrain.RunLowersMeasure | python/app/infrastructure/task_queue.py:138-245 | over a whole run the measure drops by deliveries plus retries and stays non-negative |
| WorkerDrain.DrainIsBounded | python/app/infrastructure/task_queue.py:138-245 | deliveries and retries of any run without publishing are at most the initial measure |
| WorkerDrain.DrainTerminates | python/app/worker/diagnosis_worker.py:57-126 | all work of a drain (deliveries, checks, acks, failures, completions, crashes) is at most six times the initial measure plus the steps left to current holders |
| WorkerRecords.RecordTellsFate | python/app/infrastructure/task_queue.py:118-261 | in every reachable state the recorded state of a once-published task fits the fate of its live entry: QUEUED or RETRYING undelivered, CLAIMED held, COMPLETED completed, FAILED dead (or as it was, when found late), or CANCELLED; the claim hash lists it exactly while CLAIMED, with that entry and worker |
| WorkerRecords.WritesAreDated | python/app/infrastructure/task_queue.py:118-261 | every step dates the record it writes, keeps the publication time, and leaves the reason of a failure |
| WorkerRecords.RetriedEntry | python/app/infrastructure/task_queue.py:208-233 | a retried entry has the stored payload and incident, one more retry, a deadline five minutes after the failure, a new trace id and limit 3 |
| WorkerAnomalies.ClaimForgetsCancellation | python/app/infrastructure/task_queue.py:176-188 | after a claim a task counts as cancelled iff it did before and was not handed out, that is, was late or its deadline could not be compared |
| WorkerAnomalies.HolderKeepsCancellation | python/app/worker/diagnosis_worker.py:69-119 | of the steps of a task's holder, exactly failing it (also by a late deadline check or by the check before the agent) and completing it erase its cancellation |
| WorkerAnomalies.StepTreats | python/app/infrastructure/task_queue.py:118-261 | any step of anyone: a delivered, unsettled entry of a once-published task is settled iff its holder fails or completes it, and the task is cancelled afterwards iff the step does not settle it and it was cancelled before or is cancelled by the step |
| WorkerAnomalies.OthersKeepCancellation | python/app/infrastructure/task_queue.py:118-261 | while a worker works on a once-published task, no step of anyone else takes it away or changes whether it is cancelled, except cancelling it |
| WorkerAnomalies.StaysCancelledExactly | python/app/worker/diagnosis_worker.py:69-119 | in any run, a once-published task cancelled once after its delivery is still cancelled iff no holder of the entry failed or completed it since |
| WorkerAnomalies.CancelledSinceClaim | python/app/infrastructure/task_queue.py:176-188 | while a worker works on a once-published task, after any run, the task is cancelled iff it was cancelled since that worker's claim |
| WorkerAnomalies.AgentRunsExactly | python/app/worker/diagnosis_worker.py:69-138 | for a once-published task the first check sees a cancellation, and the check before the agent keeps it from running, iff the task was cancelled between the claim and that check, whatever happened before |
| WorkerAnomalies.CancelledBeforeClaim | python/app/worker/diagnosis_worker.py:69-138 | the run publish, cancel, claim, check, deadline check, start ends with the agent running |
| WorkerAnomalies.CancelledRunIsRetried | python/app/worker/diagnosis_worker.py:79-119 | in every reachable state a step that fails a task leaves it not cancelled, queued again iff retries are left and with a dead letter iff none are, and in any continuation it is cancelled only if it is cancelled anew |
| WorkerAnomalies.CancelledTaskReturns | python/app/worker/diagnosis_worker.py:116-138 | a run from the empty queue in which a task cancelled before its agent starts is undelivered again |
| WorkerAnomalies.CancelledTaskCompletes | python/app/worker/diagnosis_worker.py:106-108 | a run from the empty queue in which a task cancelled while its agent runs ends COMPLETED with its result |
| WorkerAnomalies.ClaimStrands | python/app/infrastructure/task_queue.py:158-168 | a claim leaves its entry in flight without a holder iff the deadline has no zone |
| WorkerAnomalies.StrandedForever | python/app/infrastructure/task_queue.py:138-245 | such an entry stays in flight without a holder in every later state |
| WorkerAnomalies.NaiveDeadlineStrands | python/app/infrastructure/task_queue.py:158-168 | a message with a zoneless deadline is stranded by its first claim for good |
| WorkerAnomalies.LimitHonouredExactly | python/app/infrastructure/task_queue.py:121-131 | failures of a task are retried exactly below its published limit, in all reachable states, iff the limit is three |
| WorkerAnomalies.NoRetriesWanted | python/app/infrastructure/task_queue.py:208-233 | a task published with limit 0 is on the stream again after one failure |
| WorkerAnomalies.LateFailureDuplicates | python/app/infrastructure/task_queue.py:208-245 | after a failure that follows a completion, more entries are live than published iff retries were left, else a completed task has a dead letter; the books balance in neither case |
| WorkerAnomalies.FinishedTaskReturns | python/app/infrastructure/task_queue.py:208-245 | published, diagnosed, completed and failed late, a task is on the stream once more and its books do not balance |
| DiagnosisWorker.Worker.Claim | python/app/worker/diagnosis_worker.py:62-67 | the worker's claim of one task is the protocol's claiming step; it raises iff the next deadline has no zone and yields a task iff that is in time |
| DiagnosisWorker.Worker.Start | python/app/worker/diagnosis_worker.py:136-138 | the check right before the agent is the protocol's starting step: a cancelled task fails, any other is run |
| DiagnosisWorker.Worker.RunDiagnosis | python/app/worker/diagnosis_worker.py:93-126 | a task in time whose payload cannot be read fails; otherwise it is started unless cancelled, then completed and acknowledged when the agent succeeds and failed when it does not |
| DiagnosisWorker.Worker.ProcessOne | python/app/worker/diagnosis_worker.py:57-126 | one uninterrupted round is exactly the protocol run claim, check, deadline check, start and the ending its outcome calls for; it ends holding nothing, and raises iff the next deadline has no zone |
| WorkerRounds.RoundEnds | python/app/worker/diagnosis_worker.py:57-126 | an uninterrupted round on an entry in time: success leaves the task COMPLETED with its result and the entry acknowledged; throwing or interruption leaves its reason and the task queued again while retries are left, given up with a dead letter otherwise |
| MemoryQueue.InMemoryTaskQueue.PublishTask | python/app/infrastructure/task_queue.py:303-313 | the entry goes to the end of the queue with a QUEUED state |
| MemoryQueue.InMemoryTaskQueue.Claim | python/app/infrastructure/task_queue.py:315-330 | up to count entries leave the front; those not cancelled are returned in order and marked CLAIMED |
| MemoryQueue.InMemoryTaskQueue.CompleteTask | python/app/infrastructure/task_queue.py:335-340 | a known task becomes COMPLETED with its result, unknown ones change nothing |
| MemoryQueue.InMemoryTaskQueue.FailTask | python/app/infrastructure/task_queue.py:342-347 | a known task becomes FAILED with its error and is not queued again |
| MemoryQueue.InMemoryTaskQueue.CancelTask | python/app/infrastructure/task_queue.py:349-356 | the id is remembered as cancelled even when unknown |
| MemoryQueue.StepKeepsInv | python/app/worker/diagnosis_worker.py:57-141 | every step on the event loop keeps publication history = drawn entries + queue, and respects cancellations |
| MemoryQueue.HistoryIsExact | python/app/infrastructure/task_queue.py:303-330 | entries leave in publication order, each once, followed by those queued; no delivery and no start of a diagnosis comes after the cancellation of its task, and only cancelled tasks are dropped |
| MemoryRecords.RecordTellsPlace | python/app/infrastructure/task_queue.py:295-372 | in every run the record of a once-published task says where it is: QUEUED in the queue, CLAIMED with its one worker, COMPLETED or FAILED after that, CANCELLED only if cancelled |
| MemoryRecords.ClaimRecords | python/app/worker/diagnosis_worker.py:62-91 | a claim takes the first entry: dropped when its task was cancelled, otherwise handed out and CLAIMED without a deadline or with an instant that is not past, and FAILED with any other |
| MemoryRecords.StepRecords | python/app/infrastructure/task_queue.py:303-372 | each step leaves its state, time, result or reason in the record: QUEUED, CANCELLED, COMPLETED with the result, FAILED with the reason |
| Merging.MergeHypotheses | python/app/agent/graph.py:560-584 | the merging loop computes the merge, in both variants |
| Merging.MergeRefines | python/app/agent/llm_graph.py:552-592 | merging keeps exactly the map from cause to best confidence, supporting ids and contradicting ids |
| Merging.MergeOrder | python/app/agent/llm_graph.py:552-592 | merged causes appear once each, in order of first mention |
| Merging.DigestOfPermutation | python/app/agent/graph.py:560-584 | that map is the same for every permutation of the input |
| Merging.MergeOrderIrrelevant | python/app/agent/graph.py:560-584 | neither the order of the input nor the variant (rule or LLM) changes the merged facts |
| Merging.MergeIdempotent | python/app/agent/graph.py:560-584 | merging a merged table changes nothing |
| Merging.MergeAndCutIdempotent | python/app/agent/llm_graph.py:552-592 | merging, ranking and cutting twice is the same as once |
| Merging.MergeRankCut | python/app/agent/llm_graph.py:552-592 | the LLM variant's merge, stable rank and cut to three |
| Merging.CutAgreesWithRules | python/app/agent/llm_graph.py:584-592 | every cause the LLM cut keeps has the facts the rule agent would merge for it |
| Merging.CutKeepsBest | python/app/agent/llm_graph.py:584-592 | no dropped cause ranks before a kept one |
| MergeMeaning.SummaryMeans | python/app/agent/llm_graph.py:552-592 | a stronger mention replaces the summary; otherwise the merged summary starts with the earlier one, contains both and adds only a separator; the rule variant keeps the first |
| StableSort.StableSortUnique | python/app/agent/llm_graph.py:584-592 | sortedness and stability determine the result of `sorted`, so the model's sort is Python's |
| Governance.ValidateTraceability | python/app/infrastructure/evidence_governance.py:26-69 | counts all claims and the traceable ones, lists exactly the claims citing uncollected ids and the causes citing nothing; full iff every cited id was collected |
| Governance.FilterWithoutEvidence | python/app/infrastructure/evidence_governance.py:72-97 | supported causes first in order, unsupported ones after them at LOW, ranks 1..n |
| Governance.ValidationEstablishes | python/app/agent/llm_graph.py:291-304 | after validation every cited id was collected, ranks are 1..n, support comes first, unsupported causes are LOW and no cause is new |
| Governance.ValidationKeepsHead | python/app/agent/llm_graph.py:291-304 | a first cause with one collected supporting id stays first with its code and confidence |
| Governance.VerdictOfValidated | python/app/infrastructure/evidence_governance.py:135-162 | on validated causes the status is DIAGNOSED iff the first cause has support and is not LOW |
| Investigation.MergeRequiredSteps | python/app/agent/llm_graph.py:500-525 | the merged plan is the first occurrence per semantic key of required ++ LLM steps, cut to the budget |
| Investigation.RequiredStepsFirst | python/app/agent/llm_graph.py:500-525 | required steps displace LLM steps, the plan is within the budget and repeats no request |
| Investigation.AgentState.CollectEvidence | python/app/agent/llm_graph.py:177-207 | collection runs the affordable prefix of the plan, each call yielding evidence or a failure in order, and records exhaustion iff steps were left |
| Investigation.CallsAccountedFor | python/app/agent/llm_graph.py:177-207 | evidence plus failures equals calls |
| Investigation.AgentState.ValidateEvidence | python/app/agent/graph.py:473-489 | the node restricts citations to collected ids and re-ranks |
| LlmAgent.CreatePlan | python/app/agent/llm_graph.py:126-175 | the plan for any reply: known tools among its first four items, or the rule plan, merged with the required steps |
| LlmAgent.PlanKeepsRequiredEvidence | python/app/agent/llm_graph.py:157-175 | with a budget of four or more every plan starts with all required steps, whatever the LLM says |
| ReplyMeaning.RequiredEvidence | python/app/agent/llm_graph.py:391-427 | the required steps ask for exactly these metrics of the incident's service by kind of alert, for its logs, and for its deployments iff it is a latency or error alert |
| ReplyMeaning.WordsLookedFor | python/app/agent/llm_graph.py:391-427 | the words looked for in the logs, by kind of alert |
| ReplyMeaning.PlanReading | python/app/agent/llm_graph.py:126-175 | of the LLM's plan exactly the known tools among the first four items count, in order |
| ReplyMeaning.RequestsKept | python/app/agent/llm_graph.py:126-175 | with room for eight calls no known request among the first four items is lost |
| ReplyMeaning.RequestsMean | python/app/agent/llm_graph.py:519-526 | two steps count as one request iff they ask for logs or deployments of one service, one metric of one service, or have the same tool and parameters up to word order |
| ReplyMeaning.HypothesesReading | python/app/agent/llm_graph.py:232-269 | the first three of the LLM's hypotheses count; "high" and "medium" in any case are read as such, anything else is LOW, and ids that are no list are none |
| LlmAgent.RuleBasedHypotheses | python/app/agent/llm_graph.py:430-479 | the guard-rail hypotheses of the collected evidence, UNKNOWN when none applies |
| GuardrailMeaning.GuardrailsAreShown | python/app/agent/llm_graph.py:430-479 | every guard-rail cause is shown by evidence it cites, a slow query by a log or latency, a full pool by a log or pool reading; UNKNOWN stands alone exactly when nothing is shown |
| LlmAgent.BuildHypotheses | python/app/agent/llm_graph.py:209-289 | guard-rails and reply are merged, ranked, cut, cleared of contradicted causes and re-ranked |
| LlmAgent.ChooseActions | python/app/agent/llm_graph.py:614-636 | the loop over the candidates, with its seen set and early exit at three, keeps exactly the chosen ones |
| LlmAgent.MergeActions | python/app/agent/llm_graph.py:614-636 | LLM-path actions are the chosen ones of both lists in order, or the request for more evidence when none is left |
| LlmAgent.ChosenFacts | python/app/agent/llm_graph.py:614-650 | the chosen actions number at most three, differ, share no category, mention the pool only if reported, and with fewer than three every candidate left out has a reason |
| LlmAgent.GenerateReport | python/app/agent/llm_graph.py:306-386 | the report and incident status from the validated causes and any reply |
| LlmAgent.Diagnose | python/app/agent/llm_graph.py:83-113 | the node sequence produces the report the theorems speak of, for all replies and tools |
| LlmAgent.RunUsesWholePlan | python/app/agent/llm_graph.py:157-207 | evidence + failures = plan length = total tool calls, within the budget, and no request is made twice |
| LlmAgent.HypothesesStartWithGuardrail | python/app/agent/llm_graph.py:270-289 | through merge, rank, cut and removal the first surviving guard-rail comes first, HIGH with collected support |
| LlmAgent.GuardrailsDecide | python/app/agent/llm_graph.py:209-386 | for every LLM reply: if some guard-rail cause survives the metric check, the report is DIAGNOSED with that cause first, HIGH, with collected supporting ids |
| GuardrailMeaning.EvidenceDecides | python/app/agent/llm_graph.py:209-386 | for every reply: the first piece of evidence to show a slow query or a full pool makes the report DIAGNOSED with that cause first, HIGH, with collected support; a full pool only if no reading shows an idle one |
| LlmAgent.OverrideExactly | python/app/agent/llm_graph.py:209-359 | a report is DIAGNOSED iff the reply asks for it, or its first cause has support and is not LOW and a HIGH supported cause or a silent reply leaves it standing; FAILED comes only from the reply |
| LlmAgent.DiagnosedWithoutEvidence | python/app/agent/llm_graph.py:351-359 | without evidence the status is DIAGNOSED iff the LLM insists, and no cause has support |
| LlmAgent.DiagnosedOnRequest | python/app/agent/llm_graph.py:351-359 | when all tools fail and the reply asks for DIAGNOSED, the whole run reports DIAGNOSED with no evidence and no supported cause |
| LlmAgent.NegativeEvidenceIsFinal | python/app/agent/llm_graph.py:595-636 | a pool metric below 0.7 keeps the pool cause out of the report and pool and HikariCP out of its actions, whatever the LLM says |
| LlmAgent.ActionsAreFew | python/app/agent/llm_graph.py:614-679 | one to three actions, no two alike or of one category |
| ReplyMeaning.SubjectsDiffer | python/app/agent/llm_graph.py:614-650 | no two recommended actions share a subject (pool, indexes, queries, plans, monitoring), and none is about the pool unless the pool is a reported cause |
| ReplyMeaning.AdviceFollows | python/app/agent/llm_graph.py:614-675 | every recommended action is advised for a reported cause or comes from the reply, or asks for more evidence |
| RuleAgent.ApplyRules | python/app/agent/graph.py:200-424 | all rules run over all evidence in order, or the run stops where one raises |
| RuleAgent.SelectTop | python/app/agent/graph.py:425-451 | keeps the three most confident merged causes in stable order, ranks them, and swaps an unsupported first cause with the first supported one |
| RuleAgent.SortKeepsMostConfident | python/app/agent/graph.py:425-434 | of the merged causes none left out is more confident (HIGH over MEDIUM over LOW) than a kept one, the kept ones come in that order, and equal ones keep theirs |
| RuleMeaning.SwapMeans | python/app/agent/graph.py:436-449 | the first supported cause trades places with the first one, and nothing else moves |
| RuleMeaning.RulesPoint | python/app/agent/graph.py:220-423 | the rules claim a cause with a confidence from a piece of evidence exactly where its logs, reading or deployments point at it |
| RuleMeaning.MergedPointed | python/app/agent/graph.py:560-584 | the merged causes are exactly those some evidence points at, each once, with the highest confidence with which it does, supported by collected evidence |
| RuleMeaning.LeaderIsReported | python/app/agent/graph.py:200-536 | the first of the most confident standing causes is the first reported one with its confidence, and the status is DIAGNOSED iff that is not LOW, unless it is the deployment and a deployment answer is quiet |
| RuleMeaning.StrongEvidenceDiagnoses | python/app/agent/graph.py:200-536 | evidence pointing at a cause with HIGH confidence makes the report DIAGNOSED with a HIGH cause first, provided no idle pool contradicts it and deployment answers do not demote it |
| RuleMeaning.OnlyPointedReported | python/app/agent/graph.py:200-536 | every reported cause but UNKNOWN is one some evidence points at |
| RuleMeaning.NothingPointed | python/app/agent/graph.py:200-536 | when the evidence points at nothing, or only at a pool shown idle, the report is INCONCLUSIVE with UNKNOWN alone at LOW |
| RuleAgent.VerifyHypotheses | python/app/agent/graph.py:453-471 | every deployment answer without recent deployments puts the deployment cause to LOW and contradicts it, nothing else changes |
| RuleMeaning.QuietDemotes | python/app/agent/graph.py:453-471 | a deployment answer without recent deployments makes every deployment cause LOW and speaks against it; all else stays |
| RuleAgent.Diagnose | python/app/agent/graph.py:62-84 | a run reports unless the division by zero stops it, and stops only then |
| RuleAgent.ReportTraceable | python/app/agent/graph.py:200-533 | one to three causes ranked 1..n, supported first; every cited id was collected and is listed in evidence_ids and evidence_details; DIAGNOSED iff the first cause has support and is not LOW |
| RuleAgent.ReportsAreTraceable | python/app/agent/graph.py:98-533 | that holds end to end for every incident, budget and tool behaviour, and calls, evidence and failures are all accounted for within the budget |
| RuleAgent.PoolMetricIsFinal | python/app/agent/graph.py:587-603 | a collected db_pool_active_ratio reading below 0.7 keeps the pool cause out of every report |
| RuleAgent.StopsWithoutBaseline | python/app/agent/graph.py:338-348 | a concrete run stops: one order-service latency reading without a baseline |
| RuleMeaning.StopsExactly | python/app/agent/graph.py:338-348 | a run stops iff the order service has a positive latency reading against a zero baseline |
| RuleMeaning.MetricsAsked | python/app/agent/graph.py:120-166 | the metrics each kind of alert asks for, of the incident's service |
| RuleMeaning.AdviceFollows | python/app/agent/graph.py:631-683 | exactly what is advised for the reported causes is recommended, each action once; more evidence is asked for only when nothing is |
| RunbookStore.RunKeepsLifecycle | python/app/infrastructure/runbook_store.py:86-160 | after any run of add, mark and verify under a clock that never goes back: superseded versions are closed no later than the last addition, neighbours differ in content hash, every version is filed under its id |
| RunbookStore.SupersededNeverReturns | python/app/infrastructure/runbook_store.py:120-127 | strictly after the last addition get_active is the last version or nothing |
| RunbookStore.SupersededReturnsExactly | python/app/infrastructure/runbook_store.py:86-160 | after any run, marking and verifying at some moment can make a superseded version active iff the moment is not past its closing, which is no later than the last addition, it has a version name and no earlier version has the same |
| RunbookStore.SameNameStaysSuperseded | python/app/infrastructure/runbook_store.py:46-160 | after three additions under the default version name the first version can return within the tick and the second cannot |
| RunbookStore.SameTickReturns | python/app/infrastructure/runbook_store.py:155-160 | at the tick of the last addition a verified old version is active again |
| RunbookObjects.Runbook.IsActive | python/app/infrastructure/runbook_store.py:53-72 | an object is usable as evidence iff its value is valid and not expired |
| RunbookObjects.RunbookStore.Add | python/app/infrastructure/runbook_store.py:86-106 | unchanged content files nothing; otherwise the last version is deprecated and closed, and the new object becomes the last version; every other object keeps its fields |
| RunbookObjects.RunbookStore.GetActive | python/app/infrastructure/runbook_store.py:120-127 | the newest version that is valid and not expired |
| RunbookObjects.RunbookStore.ListActive | python/app/infrastructure/runbook_store.py:129-139 | the active version of every id in insertion order, all or those of a service |
| RunbookObjects.RunbookStore.MarkPendingVerification | python/app/infrastructure/runbook_store.py:141-146 | exactly the valid versions of the id become pending |
| RunbookObjects.RunbookStore.MarkServicePending | python/app/infrastructure/runbook_store.py:148-153 | exactly the valid versions of the service become pending, under every id |
| RunbookObjects.RunbookStore.Verify | python/app/infrastructure/runbook_store.py:108-160 | the named version (first match), or the last one, becomes valid and verified now |
| RunbookMeaning.AddMeans | python/app/infrastructure/runbook_store.py:86-106 | content whose hash is that of the last version changes nothing; any other becomes the last version and the one before is DEPRECATED and closed now |
| RunbookMeaning.MarkServiceMeans | python/app/infrastructure/runbook_store.py:148-153 | exactly the VALID versions of the service await verification, nothing else changes |
| RunbookMeaning.VerifyMeans | python/app/infrastructure/runbook_store.py:155-160 | the first version of the name, or the last without a name, becomes VALID and dated, nothing else changes; without such a version nothing does |
| RunbookMeaning.ActiveMeans | python/app/infrastructure/runbook_store.py:120-127 | the active version is the newest that is VALID and not past its closing |
| RunbookMeaning.ListMeans | python/app/infrastructure/runbook_store.py:129-139 | exactly the active versions are listed, those of the service if one is given |
| RunbookMeaning.HashedFieldsDiffer | python/app/infrastructure/runbook_store.py:74-77 | without vertical bars in them, runbooks hash the same text only if title, root cause, resolution and joined symptoms agree |
| Bm25.TokensOfJoin | python/app/infrastructure/runbook_search.py:46-63 | tokens never run across the blank that joins two fields |
| SearchMeaning.TokensAreWords | python/app/infrastructure/runbook_search.py:46-51 | the tokens are exactly the maximal runs of letters, digits, underscores and hyphens of the text in lower case, of length two or more |
| SearchMeaning.FieldsIndexed | python/app/infrastructure/runbook_search.py:53-63 | a runbook is indexed under exactly the tokens of its title, symptoms, root cause, resolution, tags and component |
| SearchMeaning.IndexMeans | python/app/infrastructure/runbook_search.py:65-90 | the average length times the number of documents is the total length, and document frequencies are 0 or full exactly when no or every document holds the term |
| SearchMeaning.IdfClosed | python/app/infrastructure/runbook_search.py:114-114 | the idf is the logarithm of (n + 1) / (df + 0.5) |
| SearchMeaning.OnceInAverage | python/app/infrastructure/runbook_search.py:114-116 | a term that occurs once in a document of average length contributes exactly its idf |
| SearchMeaning.TwiceAverage | python/app/infrastructure/runbook_search.py:115-115 | a document twice the average length weighs k1 (1 + b) |
| Bm25.IdfPositive | python/app/infrastructure/runbook_search.py:109-114 | in an index built from its documents every term's document frequency lies in 1..doc_count and its idf is positive |
| Bm25.ScoreBounds | python/app/infrastructure/runbook_search.py:100-118 | a score is positive iff the document shares a token with the query, and at most (k1 + 1) times the idf of the matched tokens |
| Bm25.RarerTermsWeighMore | python/app/infrastructure/runbook_search.py:113-114 | of two terms the one found in fewer documents has the greater idf |
| Bm25.DenserDocumentsScoreHigher | python/app/infrastructure/runbook_search.py:113-116 | a term contributes no less to a document that has it more often in no more words |
| RunbookSearch.BM25Search.CountTerms | python/app/infrastructure/runbook_search.py:85-87 | each distinct term of a document gains exactly one, no other changes |
| RunbookSearch.BM25Search.RebuildIndex | python/app/infrastructure/runbook_search.py:65-90 | df counts the indexed documents per term, doc_count and the average length are exact, and the documents are the active runbooks with a token |
| RunbookSearch.BM25Search.ScoreOf | python/app/infrastructure/runbook_search.py:101-116 | the scoring loop adds up the term scores |
| RunbookSearch.BM25Search.Search | python/app/infrastructure/runbook_search.py:92-132 | the top_k hits of highest score, scores never rising, with the runbooks active now, ranks 1..n, and the number of all hits |
| RunbookSearch.FoundIffSharing | python/app/infrastructure/runbook_search.py:98-121 | the hits are exactly the indexed documents that share a token and are active at query time |
| RunbookSearch.FreshIndexFinds | python/app/infrastructure/runbook_search.py:65-121 | a fresh index finds a runbook iff its active version mentions a token of the query and it is active at query time |
| RunbookSearch.BestAreBest | python/app/infrastructure/runbook_search.py:123-132 | scores never rise along the result, no hit left out scores higher than a returned one, and of equal scores the first in index order are returned in that order |
| RunbookSearch.BestGrows | python/app/infrastructure/runbook_search.py:123-127 | the result for k is a prefix of the result for more |
| RunbookSearch.IndexedOnce | python/app/infrastructure/runbook_search.py:74-83 | after any run of store operations the index holds one document per runbook id |
| RunbookSearch.HitIds | python/app/infrastructure/runbook_search.py:98-121 | so no runbook is found twice |
| SearchEvaluation.EvaluateRecallAtK | python/app/infrastructure/runbook_search.py:135-168 | the average recall over the queries that have relevant ids, and per query its recall, hits and retrieved ids |
| SearchEvaluation.EvaluateMrr | python/app/infrastructure/runbook_search.py:171-200 | the average reciprocal rank over the same queries, and that of each query |
| SearchEvaluation.RecallMeaning | python/app/infrastructure/runbook_search.py:154-159 | recall times the number of relevant ids is the number of those retrieved; it is in [0, 1], 1 iff every relevant id was retrieved, positive iff some was |
| SearchEvaluation.AverageMeans | python/app/infrastructure/runbook_search.py:164-168 | the average times the number of measurements is their sum, of equal ones their value, of none 0 |
| SearchEvaluation.MeasuredMeans | python/app/infrastructure/runbook_search.py:149-163 | each query with relevant ids is measured once, in order, the others not at all |
| SearchEvaluation.ReciprocalRankMeaning | python/app/infrastructure/runbook_search.py:189-196 | the reciprocal rank is 1/n when the n-th result is the first relevant one and 0 iff none is |
| SearchEvaluation.MeansInUnit | python/app/infrastructure/runbook_search.py:135-200 | both means stay in [0, 1] for any search |
| SearchEvaluation.MeanRecallGrows | python/app/infrastructure/runbook_search.py:135-168 | mean recall never falls with k for a search whose results only grow |
| SearchEvaluation.ObjectSearchAgrees | python/app/infrastructure/runbook_search.py:123-132 | the results of the search object carry the ids the evaluators see, in order |
| SearchEvaluation.Bm25RecallGrows | python/app/infrastructure/runbook_search.py:123-168 | so BM25's mean recall is non-decreasing in k |
| SearchEvaluation.RankAndRecallAgree | python/app/infrastructure/runbook_search.py:135-200 | MRR is positive iff recall at ten is |
| LogProcessor.DeduplicateLogs | python/app/infrastructure/log_processor.py:69-79 | the seen-dictionary loop keeps the first occurrence per template key |
| LogProcessor.KeepsFirstOfEachTemplate | python/app/infrastructure/log_processor.py:63-79 | of entries with the same level and normalised message exactly the first survives, none without one like it, and de-duplication is idempotent |
| LogProcessor.AggregateErrors | python/app/infrastructure/log_processor.py:82-88 | one positive counter per upper-cased level, each exact, and together they count every entry |
| LogProcessor.FilteredShrinks | python/app/infrastructure/log_processor.py:91-100 | an entry passes iff it meets the minimum level and has the trace id or mentions it; an empty level or trace id filters nothing |
| LogProcessor.LevelsPassed | python/app/infrastructure/log_processor.py:91-95 | which levels each minimum level lets through, by name |
| LogProcessor.TakeWithin | python/app/infrastructure/log_processor.py:122-128 | the loop takes the longest prefix within both budgets |
| LogProcessor.TrimLogs | python/app/infrastructure/log_processor.py:103-131 | the flag holds iff the input exceeds a budget iff an entry was dropped; then the result is the longest admissible prefix of the sorted input and keeps the most important entries |
| LogProcessor.TrimmedFairly | python/app/infrastructure/log_processor.py:118-128 | ERROR and FATAL over WARN over INFO over the rest: no dropped entry outranks a kept one, the kept ones come in that order, and of each rank the first are kept in input order |
| LogProcessor.LongestWithinUnique | python/app/infrastructure/log_processor.py:122-128 | the longest admissible prefix is unique, so the result is determined |
| LogProcessor.ProcessLogs | python/app/infrastructure/log_processor.py:134-192 | total = dedup_count + templates kept; the level counters add up to the filtered entries; output <= deduplicated <= filtered <= total; no two reported entries share a template; what truncation keeps is most important |
| LogProcessor.DedupCountExactly | python/app/infrastructure/log_processor.py:172-174 | dedup_count is the number of removed duplicates iff the filters removed nothing |
| LogProcessor.FilteredEntryCountsAsDuplicate | python/app/infrastructure/log_processor.py:164-174 | a single DEBUG entry, which has no duplicate, counts as one |
| SseFrames.StreamDecodes | python/app/infrastructure/sse_manager.py:49-57 | any mix of frames and keepalives, interpreted by a conforming client, yields exactly the event types and payloads sent, in order |
| SseFrames.MessageTellsEvent | python/app/infrastructure/sse_manager.py:49-57 | a dispatched message determines the whole event |
| StreamMeaning.ClientReads | python/app/infrastructure/sse_manager.py:49-57 | the client reads each event under its own name, as a JSON object of eventType, taskId, data and timestamp |
| SseFrames.CutStream | python/app/infrastructure/sse_manager.py:97-118 | a text cut anywhere delivers a prefix of the messages, never part of an event |
| SseFrames.CutFrames | python/app/infrastructure/sse_manager.py:97-118 | any beginning of what the stream yields is received as a beginning of the events sent |
| SseManager.Manager.SubscribeTo | python/app/infrastructure/sse_manager.py:67-74 | a fresh empty queue is registered last for the task |
| SseManager.Manager.UnsubscribeFrom | python/app/infrastructure/sse_manager.py:76-85 | the queue leaves its list, an empty list is removed, unknown queues and tasks change nothing |
| SseManager.Manager.PublishEvent | python/app/infrastructure/sse_manager.py:87-95 | exactly the queues of the event's task receive it, once each, at the end |
| SseManager.Manager.HasSubscribers | python/app/infrastructure/sse_manager.py:120-122 | true iff the task has a list, which is never empty |
| SseStreams.EventStream.Next | python/app/infrastructure/sse_manager.py:97-118 | one resumption of the generator: end after a terminal event, else the next event's frame, else a keepalive |
| SseStreams.EventStream.Abandon | python/app/infrastructure/sse_manager.py:117-118 | closing the generator unregisters its queue |
| SseStreams.RunRegisters | python/app/infrastructure/sse_manager.py:67-118 | in every reachable state exactly the open streams are registered, once each, and no task has an empty list |
| SseStreams.SubscribersAreOpenStreams | python/app/infrastructure/sse_manager.py:120-122 | a task has subscribers iff it has an open stream |
| SseStreams.RunTracks | python/app/infrastructure/sse_manager.py:87-118 | delivered ++ queued equals what was published for the task since the stream subscribed, and nothing follows a terminal event |
| SseStreams.ClientSeesHistory | python/app/infrastructure/sse_manager.py:97-118 | what the client dispatches is that history up to its first terminal event, complete once the stream holds at it or nothing is queued |
| SseStreams.DrainDelivers | python/app/infrastructure/sse_manager.py:97-118 | a client that keeps reading gets everything up to the first terminal event, and the stream is then unregistered |
| StreamMeaning.EndsExactly | python/app/infrastructure/sse_manager.py:97-118 | a stream ends after an event iff that says complete, inconclusive, cancelled or error |

## Left out

- RunbookObjects.RunbookStore.Add: does not model adding an object again that is filed but differs from the last version of its id; the source would then hold one object at two places of the list, and later updates would change both.
- RuleAgent.Diagnose: does not model a tool answer whose reading or baseline is present but null, on which the source raises a comparison error; a present reading is a number.
* Redis itself, key expiry and interleaving inside one queue method: each method is one atomic step.
* Polling of `claim` (`block_ms`), the worker's start and stop loop, checkpoints and the SSE events the worker sends.
* Failures of `complete`, `ack` or checkpoint deletion after a finished diagnosis: they are assumed not to raise.
* The time window added to tool parameters, query windows, prompts, token usage and the text of formatted summaries.
* The list of missing evidence, which never influences the causes or the status.
* `LLMDiagnosisAgent.diagnose` without an available LLM, which hands the incident to the rule agent or, without one, reports FAILED.
* Replies that are not of the expected shape inside (a metric that is a list, an id that is a number).
* Sharing of hypothesis objects between lists: hypotheses are values.
* `get_all_versions`, `needs_verification`, `validate_runbook_as_evidence`, expired-runbook filtering: easy members.
* Index changes after construction: the code never rebuilds; activity is checked again at query time.
* Floating-point rounding in scores, averages and metric comparisons: arithmetic is over the reals.
* Negative `top_k` and negative trimming budgets, which Python slices from the end.
* Regular expressions of the normaliser and log parser, and the raw text of parsed entries.
* `asyncio.wait_for` losing an event that arrives exactly at the timeout; queues are unbounded, so none is dropped.
* The FastAPI router, the Java services, tool providers, the evaluation dataset and runner.
