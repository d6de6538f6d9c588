# Job control plane, prompt budget, conversations: a verified model

The repository runs language-model jobs for a company chat. Redis holds job records, pending,
dispatch and processing lists, reservation counters per target and a lease index; a scheduler
admits jobs, workers claim and finish them, a reaper recovers jobs whose lease ran out. Around it
stand the prompt and document budgets, the conversation stores with their database mirror, a rate
limiter and a server-sent event stream. This project models that logic in Dafny and proves what
every run of it keeps.

## How it is laid out

- `Jobs`, `Admission`, `Lifecycle`: records, keys and counters; the admission decision; one
  function per gateway call on the store.
- `Ledger`, `Invariant`, `Steps`, `Runs`: sums over the jobs that hold a reservation, the
  invariant, its proof call by call, and runs as sequences of calls.
- `Theorems`, `RootChild`, `Outcomes`, `Following`, `Ownership`, `Cancelling`: what holds after every
  run, what single calls record and protect, what an accepted cancellation leaves, and for what does
  not always hold exactly when it does.
- `Admitting`: exactly when a job is admitted, in the store and as the target changes, and what it costs.
- `Stranded`, `LateCompletion`: concrete runs in which it does not.
- `Gateway`, `Scheduler`: the gateway as a class whose methods change the store step by step, each
  proved equal to its function, and the scheduler's loops over it.
- `Race`, `Handoff`: the same calls cut into single reads and writes, with any number of processes,
  under the target lock and under the root's lock with crashes anywhere.
- `Text`, `DocumentPrompt`, `DocumentBudget`, `BuiltPrompt`, `PromptBudget`: documents, prompts, history.
- `Conversations`, `Chats`, `DualWrite`, `Mirror`, `Parity`: the SQL store, the Redis store, the
  coordinator, what it keeps, and comparing, reading and migrating.
- `RateLimiter`, `EventStream`: the two small protocols.

## Run discipline

The job code relies on its callers. `Runs.Allowed` says how:

- a new job has a new id, names a model and uses a default priority, so that its pending list is
  one of the five that are scanned;
- a worker completes, fails, drops, renews, parks or creates a child for a job only while the id
  is in its own processing list. `mark_job_completed` and `_mark_job_failed_from_record` do not
  check this (llm_gateway.py:2045-2092);
- the reaper looks at an id only while it is in its index, as its loop does, and it neither fails nor
  re-queues a job that is still admitted. Its other branches are free on any job, the one that drops a
  cancelled admitted child included.

Cancelling, claiming, admitting and linking are free: any call with any arguments at any time.
"Holding a reservation" means sitting in a dispatch or processing list, whatever the status says.
`RootChild.Strict` adds one rule: the reaper does not re-queue a root whose child exists. Strict runs
are a special case; `Following` says exactly which disciplined runs keep roots and children together.

In `Race` a reservation is released through a ticket that is used once. That is the same discipline
seen from below: the worker that holds a job ends it once. What a second release does is shown by
`Theorems.CompletionExact`.

## What turned out false

Each has a concrete witness or a lemma about every such state, and the exact condition.

- A reaper that acts on an admitted job leaves its id in the dispatch list, re-queued or failed
  (`ReapAdmittedDoubles`; `ReapExact` says exactly when the reaper keeps the invariant).
- A completion or failure is sound exactly when the job is in that worker's processing list, or holds
  nothing and its record names no target that anyone holds (`CompletionExact`, for every job, live or
  ended). Otherwise the ledger breaks: `LateCompletionBreaks` is a disciplined run after which a worker
  reports on a job the reaper has already failed, and the share of another job is taken off.
- An ended child's root is not always ended: a root that is re-queued after its child was created can
  be ended by the child while it is listed, and the next claim sets it running again.
  `CompletedRootRunsAgain` is a disciplined run of nine calls that ends there. A run keeps every ended
  child's root ended exactly when no claim pops an ended root with an ended child that it then starts
  or re-queues (`RootFollowsExactly`), and keeps ended jobs out of the queues exactly when no call ends
  a child whose root is queued or admitted (`QueuesCleanExactly`).
- An accepted cancellation can be erased by a worker that writes back an older copy of the root. It is
  safe exactly when no worker carries such a copy that it can still write (`CancelSurvivesExactly`);
  `CancelLost` is a run in which it is gone and the child is created all the same.
- `truncate_text_preserving_ends` returns one character too many exactly at limit 20
  (`TruncateLength`), and because of it a prompt can be sent that is one character over the total
  budget (`TotalBudget`, exact; `BudgetExceeded` is such a prompt).
- A document without label-shaped lines need not be read back: the budget can cut a line so that it
  becomes a label (`CutMakesLabel`). The chunks come back exactly when no line of a budgeted content
  has the shape of a label (`ParseExact`).
- A larger target can refuse a batch job that a smaller one takes, because the reserves for chat and
  SIEM grow in steps (`LargerBaseRefuses`, with the default shares); `LargerBaseBatch` says exactly when
  it does, `LargerBaseAdmits` that other jobs are safe.
- After a document that was cut, later documents are not all replaced by the marker: the cut gives back
  the blanks it strips, and a later text can stand in them whole (`LaterSurvives`). `MarkedExact` says
  exactly when all are.
- Redis keys of users whose name contains a colon coincide with those of other users
  (`ColonKeyShared`, `ColonUsersCollide`; `KeysDiffer` for all other users).
- Serving reads from the database stops, by design of the comparison, once a thread has outgrown
  the Redis cap (`CutoverExact`).

## Model

| member | source | states |
|---|---|---|
| `Admission.BuildModelProfile` | llm_gateway.py:876-908 | a job costs at least one token, and its tokens times the granule cover its weights, cache and overhead |
| `Admission.Evaluate` | llm_gateway.py:1854-1979 | an admission matches the target kind, its memory is covered by its tokens, and tokens stay within the base except through the single-slot override |
| `Admission.OversizeIsChatOrParse` | llm_gateway.py:1868-1906 | only a chat or parse job passes the single-slot override, and only on an idle CPU target |
| `Admission.ProfileGrows` | llm_gateway.py:876-908 | a larger model or a longer conversation never costs less |
| `Admission.MemoryFits` | llm_gateway.py:1923-1970 | an admission stays within the free memory less the margin, except a first cold chat job on an idle CPU target; an overloaded CPU takes one job at most |
| `Admission.ReservesKept` | llm_gateway.py:1877-1906 | batch work leaves the unused chat and SIEM reserves, SIEM work beyond its share leaves the chat reserve |
| `Admission.AdmitsExactly` | llm_gateway.py:1854-1979 | a job is admitted if and only if its kind matches, the base less use and class reserves covers its cost or the single slot is free to it, there is a parallel slot, and free memory less margin and reservations covers its need, on GPU and CPU; its tokens are then the least that cover its memory, and it reserves cache and overhead, plus the weights exactly when the model is cold |
| `Admitting.StoreAdmits` | llm_gateway.py:1788-1842 | in every store of the invariant a queued job is admitted if and only if it is found in the queue and the target takes it; it is then in its dispatch list alone with exactly that reservation, and a refused job is left in place |
| `Admitting.MoreMemoryAdmits` | llm_gateway.py:1919-1970 | more free memory never turns an admission into a rejection and never changes what is reserved |
| `Admitting.LargerBaseAdmits` | llm_gateway.py:1868-1906 | nor does a larger base for a chat or parse job, nor for a SIEM job where chat keeps at most the whole base |
| `Admitting.LargerBaseBatch` | llm_gateway.py:1877-1906 | for a batch job a larger base keeps the admission if and only if the unused reserves grow by no more than the base does beyond what was to spare |
| `Admitting.LargerBaseRefuses` | llm_gateway.py:1877-1906 | a batch job that an idle target of base 3 admits and one of base 4 rejects |
| `Admitting.GpuTakes` | llm_gateway.py:1919-1940 | an idle GPU target takes a small chat job with 3 tokens and 1114 MB |
| `Admitting.ProfileExact` | llm_gateway.py:876-908 | each part of the cost is the least amount, from its floor, that covers the model file, the scaled weights, the cache and the sum |
| `Ledger.ReserveAdds` | llm_gateway.py:1813-1830 | a reservation raises every counter of the target by the job's weight and no other counter |
| `Ledger.ReleaseSubtracts` | llm_gateway.py:1981-2012 | where the counters cover the job, release with its clamp and its dropped references is exact subtraction |
| `Ledger.TotalMoves` | llm_gateway.py:1981-2012 | a step that moves one job moves each sum over holders by that job's share |
| `Invariant.Advance` | llm_gateway.py:1354-2187 | frame rule: a step that changes one job and mirrors it to its root keeps the whole-store invariant if the job itself, the ledger and the load are kept |
| `Steps.EnqueueOk` | llm_gateway.py:1354-1477 | an accepted enqueue keeps the invariant, queue bound included |
| `Steps.AdmitOk` | llm_gateway.py:1788-1842 | admission keeps the invariant for any job, list, target and report |
| `Steps.AdmissionFits` | llm_gateway.py:1868-1906 | after an admission the target is within its base or holds one chat or parse job alone |
| `Steps.ClaimOk` | llm_gateway.py:1690-1775 | a claim keeps the invariant in every branch: expired, wrong kind, cancelled, started |
| `Steps.RenewOk` | llm_gateway.py:1777-1786 | renewal keeps the lease index in step with the record |
| `Steps.CancelOk` | llm_gateway.py:1587-1652 | cancelling keeps the invariant, propagation to a child included |
| `Steps.WaitOk` | llm_gateway.py:1554-1585 | parking a root on its child gives back exactly what it held |
| `Steps.RequeueOk` | llm_gateway.py:2019-2043 | a re-queue leaves the job once in its pending list, holding nothing |
| `Steps.WorkerEndsOk` | llm_gateway.py:2045-2122 | a worker that ends a job of its own releases it, unlists it and mirrors it to the root |
| `Steps.ReapOk` | llm_gateway.py:2124-2187 | every branch of the reaper keeps the invariant on an indexed job, unless it fails or re-queues one that is still admitted |
| `Runs.StepKeeps` | llm_gateway.py:1354-2187 | every allowed call keeps the invariant, the reaper on admitted jobs included where it only drops a cancelled child |
| `Runs.RunKeeps` | llm_gateway.py:1354-2187 | so does every disciplined run |
| `Theorems.CapacityConserved` | llm_gateway.py:1981-2012 | after every disciplined run each counter of each target (tokens, tokens per class, VRAM, RAM, active jobs, references per model) is the sum over the jobs in its dispatch or processing lists |
| `Theorems.ReleaseNeverClamps` | llm_gateway.py:1995-2008 | releasing a held job subtracts exactly its share; the clamp to zero never acts |
| `Theorems.NoOvercommit` | llm_gateway.py:1868-1906 | reserved tokens are within the base, or one chat or parse job has a CPU target alone |
| `Theorems.MemoryCovered` | llm_gateway.py:1923-1970 | reserved RAM plus VRAM is at most reserved tokens times the granule, and at most base times granule unless that one oversize job is there |
| `Theorems.WholeSystemBounded` | llm_gateway.py:1207-1220 | waiting plus holding jobs never exceed the queue limit plus one base share per target, with any re-queues |
| `Theorems.PlacementHolds` | llm_gateway.py:1700-1766 | a queued, admitted or running job is in exactly the list its record says, once, and in no other; a job waiting on its child is in none |
| `Theorems.CompletionExact` | llm_gateway.py:2045-2092 | completing or failing any job, live or ended, keeps the invariant if and only if it is in that worker's processing list, or holds nothing and names no target that anyone holds |
| `Theorems.EndingTwiceBreaks` | llm_gateway.py:2045-2092 | ending an unheld job again whose old target has holders always breaks conservation |
| `LateCompletion.LateCompletionBreaks` | llm_gateway.py:2045-2092 | a concrete disciplined run after which a late completion or failure of a job the reaper failed breaks the ledger |
| `Theorems.EndingListedBreaks` | llm_gateway.py:2045-2092 | ending a holding job that stays listed always breaks conservation |
| `Theorems.ReapExact` | llm_gateway.py:2124-2187 | the reaper keeps the invariant if and only if it does not fail or re-queue an admitted job |
| `Theorems.ReapAdmittedDoubles` | llm_gateway.py:2166-2184 | re-queueing an admitted job leaves its id in a dispatch and in a pending list |
| `Theorems.StepRetries` | llm_gateway.py:2146-2184 | only the reaper raises a retry count, by one; every call keeps the request on the record, the bound included, and a cancellation once asked for |
| `Theorems.BoundedRecovery` | llm_gateway.py:2146-2184 | over any run, disciplined or not, a job is re-queued for lease expiry at most up to its retry bound |
| `Theorems.ExpiryProgress` | llm_gateway.py:2136-2184 | every processed expiry ends the job or strictly lowers bound plus one minus retries |
| `RootChild.RootFollowsChild` | llm_gateway.py:1267-1307 | in every strict run an ended child has an ended root, and no ended job is in a pending or dispatch list |
| `Following.FollowExact` | llm_gateway.py:1700-1766 | a disciplined step keeps every ended child's root ended if and only if it is not a claim that pops an ended root with an ended child and starts it or queues it again |
| `Following.RootFollowsExactly` | llm_gateway.py:1267-1307 | a disciplined run has that property in every store it passes if and only if none of its claims does that |
| `Following.StrictHasNoRevival` | llm_gateway.py:2166-2184 | strict runs have no such claim |
| `Following.StrandExact` | llm_gateway.py:2045-2122 | a disciplined step leaves no ended job in a pending or dispatch list if and only if it does not end a child whose root is queued or admitted, for completion, failure, drop, reap, expired claim and cancellation alike |
| `Following.QueuesCleanExactly` | llm_gateway.py:2045-2122 | so for every disciplined run and every store it passes |
| `RootChild.RootCarriesOutcome` | llm_gateway.py:1267-1307 | whichever call ends a child, a live root gets its status and its result or error, an ended root is untouched |
| `RootChild.CancelReachesChild` | llm_gateway.py:1624-1652 | cancelling a running root ends a queued or admitted child with it, unlisted and released exactly |
| `Cancelling.CancelLeaves` | llm_gateway.py:1587-1652 | what every accepted cancellation leaves: a queued or admitted job is cancelled and in no list; a running one with a live child is cancelled with it, or passes the request on; any other running job keeps its whole record and carries the request |
| `Cancelling.CancelMarks` | llm_gateway.py:1587-1652 | so after every accepted cancellation the job has ended or it or its child carries the request |
| `Cancelling.RequestStays` | llm_gateway.py:1587-1652 | a request once on a record stays on it over any run of calls |
| `RootChild.ClaimRevives` | llm_gateway.py:1700-1766 | a claim revives an ended job if and only if it pops it and the job is not expired or is of the wrong kind |
| `RootChild.EndedStays` | llm_gateway.py:2100-2122 | no other call of a disciplined run changes the outcome of an ended job |
| `Outcomes.EndingsRecorded` | llm_gateway.py:2045-2122 | the three endings leave exactly the record they name and touch no other job but the root; cancelling an ended job changes nothing |
| `Outcomes.ClaimOutcome` | llm_gateway.py:1700-1766 | a claimed job is started and only in that worker's list, or failed for its deadline and in no list, or queued again once for its kind |
| `Outcomes.LeaseProtects` | llm_gateway.py:1777-1786 | after admission, after a claim of any matching kind, or after renewal the job is not due and the reaper leaves it alone until the lease ends |
| `Outcomes.NewestClaimedFirst` | llm_gateway.py:1690-1711 | the next claim takes the job admitted last: dispatch lists are pushed and popped at the same end |
| `Outcomes.EnqueuedRecord` | llm_gateway.py:1354-1477 | an accepted request is recorded with its user, model, demand, priority or the default of its class, deadline and retry bound, untried, last in its queue |
| `Outcomes.EnqueuedExactly` | llm_gateway.py:1207-1220 | a new request for a known model is turned away if and only if as many jobs are pending as the minimum and as tokens and workers are good for |
| `Outcomes.RequestKept` | llm_gateway.py:1354-2187 | over any run of calls the record keeps what the request asked for |
| `Outcomes.ReapOutcome` | llm_gateway.py:2124-2187 | a live job whose lease ran out is cancelled if it is a child that was to be, else failed past its deadline, else failed without retries left, else queued with one retry more and nothing held |
| `Outcomes.ChildOutcome` | llm_gateway.py:1502-1552 | a root gets its child once: none if it has one, has ended or is to be cancelled; the link alone if the child is there; else the child as asked for, in the root's name, or nothing if it is refused |
| `Outcomes.LinkOutcome` | llm_gateway.py:1480-1500 | reading the link of a root repairs it to an orphan child and changes nothing else |
| `Outcomes.WaitOutcome` | llm_gateway.py:1554-1585 | a parked root keeps its request and status, names its child, and holds nothing |
| `Ownership.StepOwners` | llm_gateway.py:1530-1545 | every allowed call keeps each child with the user of its root |
| `Ownership.CancelTouchesOwn` | llm_gateway.py:1587-1652 | in every disciplined run a user's cancellation changes no record of another user, although it reaches from root to child and back |
| `Stranded.CompletedRootRunsAgain` | llm_gateway.py:2166-2184 | a concrete disciplined run after which a claim sets a completed root running |
| `Gateway.LLMGateway.GetTotalPendingJobs` | llm_gateway.py:1207-1213 | the loop adds up the five pending lists |
| `Gateway.LLMGateway.DynamicQueueLimit` | llm_gateway.py:1215-1220 | the loop over targets gives the queue limit |
| `Gateway.LLMGateway.EnqueueJob` | llm_gateway.py:1354-1477 | new store and outcome: existing record, full queue, or queued |
| `Gateway.LLMGateway.ReleaseReservedCapacity` | llm_gateway.py:1981-2012 | the decrements, the clamp loop and the dropped reference give the release function |
| `Gateway.LLMGateway.SynthesizeRoot` | llm_gateway.py:1267-1307 | the root record after its child ended |
| `Gateway.LLMGateway.MarkJobCompleted` | llm_gateway.py:2045-2066 | new store after a completion |
| `Gateway.LLMGateway.MarkJobFailed` | llm_gateway.py:2068-2098 | new store after a failure |
| `Gateway.LLMGateway.MarkJobCancelled` | llm_gateway.py:2100-2122 | new store after a cancellation; nothing for an ended job |
| `Gateway.LLMGateway.CancelJob` | llm_gateway.py:1587-1618 | new store and answer in every branch: forbidden exactly for another user's job, ignored for a missing or ended one, else accepted with the store `CancelLeaves` describes |
| `Gateway.LLMGateway.PropagateCancel` | llm_gateway.py:1624-1652 | what a cancelled root does to its linked child |
| `Gateway.LLMGateway.GetLinkedChild` | llm_gateway.py:1480-1500 | a found orphan is linked; the answer is no link, the child, or the error for a link to a record that is gone |
| `Gateway.LLMGateway.EnqueueChildOnce` | llm_gateway.py:1502-1552 | child created for the user of the root, found, refused or raised, and the link |
| `Gateway.LLMGateway.MarkJobWaitingOnChild` | llm_gateway.py:1554-1585 | the parked root |
| `Gateway.LLMGateway.TryAdmitJob` | llm_gateway.py:1788-1842 | new store and answer, as `StoreAdmits` describes them; a downgrade is saved even on refusal |
| `Gateway.LLMGateway.RequeueForPending` | llm_gateway.py:2019-2043 | the record goes back to the end of its pending list |
| `Gateway.LLMGateway.ClaimDispatchJob` | llm_gateway.py:1690-1775 | new store; a job is returned exactly when one is popped that matches the kind and has not expired |
| `Gateway.LLMGateway.RenewJobLease` | llm_gateway.py:1777-1786 | lease moved in record and index |
| `Gateway.LLMGateway.ReapJob` | llm_gateway.py:2136-2184 | one turn of the stale-job loop |
| `Gateway.LLMGateway.StaleIds` | llm_gateway.py:2124-2131 | exactly the index entries due, each once, by ascending score |
| `Gateway.LLMGateway.RequeueStaleJobs` | llm_gateway.py:2124-2187 | the loop is a run of reaper calls, one per due id; it counts the recoveries and keeps the invariant when no due job is failed or re-queued while admitted |
| `Scheduler.PickTarget` | scheduler.py:76-106 | nothing if and only if no target is eligible, else an eligible target that no eligible one beats |
| `Scheduler.BestIsPreferred` | scheduler.py:92-106 | the target picked is warm before cold, then the one with the fewest active jobs, then the most free memory, then the first by name, against every eligible one |
| `Scheduler.ListPendingCandidates` | llm_gateway.py:1676-1688 | the loop gives the first entries of each queue in queue order |
| `Scheduler.CandidatesAreQueued` | llm_gateway.py:1676-1688 | in an invariant store every candidate is a queued job standing in that list |
| `Scheduler.CandidatesComplete` | llm_gateway.py:1676-1688 | an id is a candidate if and only if it is a queued job among the first entries scanned of its queue, one entry even for a depth of 0 |
| `Scheduler.UrgentFirst` | llm_gateway.py:61-67 | candidates come by urgency, chat before parsing, and within a queue in the order they were pushed |
| `Scheduler.ScheduleOnce` | scheduler.py:55-74 | the pass is exactly one attempt for each candidate that has an eligible target, in candidate order and at a target no eligible one beats in the store met at that moment; the count is the number that succeeded; the invariant is kept |
| `Race.RaceSafe` | llm_gateway.py:1788-1842 | under every interleaving of schedulers and releasers, reservations for a job never outnumber its pushes, and a target's tokens are the sum held and within bounds |
| `Handoff.ChildCreatedOnce` | llm_gateway.py:1502-1552 | with any workers, crashes and racing writers, at most one child is written for a root and every link is to it |
| `Handoff.RetryLinksOrphan` | worker.py:686-721 | a retry links the child left by a worker that died before saving the link |
| `Handoff.CancelSurvivesExactly` | worker.py:686-758 | an accepted cancellation stays through every continuation whose other writers keep it if and only if no worker carries an older copy of the root that it can still write back |
| `Handoff.CancelLost` | worker.py:747-758 | for every root, a run from the start in which an accepted cancellation is erased and the child is written, queued and linked |
| `DocumentPrompt.TruncateLength` | llm_gateway.py:254-265 | exact length of a truncation: one over the limit if and only if the limit is the marker length plus one and the text is longer |
| `DocumentPrompt.TruncateKeepsEnds` | llm_gateway.py:254-265 | both ends of the text are kept once the marker fits |
| `DocumentPrompt.TruncateHalves` | llm_gateway.py:254-265 | the two ends kept share the limit less the marker evenly and stand verbatim around it |
| `DocumentPrompt.SplitDocumentChunks` | llm_gateway.py:313-331 | the loop gives the labelled chunks of the block's lines |
| `DocumentPrompt.ChunksRoundTrip` | llm_gateway.py:313-331 | splitting printed chunks gives them back, labels and contents, in order |
| `DocumentPrompt.ChunksExact` | llm_gateway.py:313-331 | printed chunks are read back if and only if no line of a content has the shape of a label |
| `DocumentPrompt.TruncateChunkFits` | llm_gateway.py:334-345 | a cut chunk never exceeds its limit |
| `DocumentPrompt.TruncateChunkShape` | llm_gateway.py:334-345 | a cut chunk is the longest prefix that leaves room for the marker line, less trailing blanks, with that line; where no text fits, the marker, cut if need be |
| `DocumentPrompt.TrimDocumentBlock` | llm_gateway.py:348-389 | the loop gives the retained chunks, or plain truncation when none is retained |
| `DocumentPrompt.RetainKeeps` | llm_gateway.py:364-387 | what is kept is whole chunks from the front and at most one shortened after them, every label whole |
| `DocumentPrompt.RetainExactly` | llm_gateway.py:364-387 | where the first n whole chunks fit together and the next does not, exactly those are kept, then the next one's label and the cut that fits the room left, its label alone, or nothing |
| `DocumentPrompt.TrimBlockLength` | llm_gateway.py:348-389 | a trimmed block fits, except by one if and only if the limit is 20, the block is longer, and it has no label line or its first label takes up the limit |
| `DocumentBudget.ApplyDocumentBudget` | parser_stage.py:279-303 | the loop gives the budgeted documents, whose texts `TextsKept` describes on the input |
| `DocumentBudget.BudgetTwice` | parser_stage.py:279-303 | budgeting twice is budgeting once |
| `DocumentBudget.BudgetKeeps` | parser_stage.py:279-303 | every document with text survives once, in order, under its cleaned name; the total exceeds the budget by at most 20 per document |
| `DocumentBudget.TextsKept` | parser_stage.py:279-303 | the texts up to the first that exceeds the budget are kept whole, and that one is the longest prefix that leaves room for the marker, less trailing blanks, with it, or the marker alone |
| `DocumentBudget.TextsWhole` | parser_stage.py:279-303 | texts that together fit the budget are all kept whole |
| `DocumentBudget.WholeWithin` | parser_stage.py:279-303 | a text is shortened only if it and the ones before it exceed the budget |
| `DocumentBudget.MarkedExact` | parser_stage.py:279-303 | all texts from some point on are replaced by the marker if and only if the room left is too small for each in turn |
| `DocumentBudget.LaterSurvives` | parser_stage.py:279-303 | a document after a cut one that is kept whole |
| `BuiltPrompt.BuildDocumentPrompt` | parser_stage.py:306-389 | the loop prints the numbered chunks between prefix and suffix |
| `BuiltPrompt.BuiltText` | parser_stage.py:306-389 | the built prompt in full: instructions, header, each budgeted document under its number and name, divider, and the stripped request or the text for a missing one |
| `BuiltPrompt.DigitsValue` | parser_stage.py:306-322 | document numbers are printed in decimal, without leading zeros |
| `BuiltPrompt.PathsAgree` | parser_stage.py:604-607 | the inline path and the parser path build the same prompt |
| `BuiltPrompt.BuildFails` | parser_stage.py:321-322 | building fails if and only if no document has text |
| `BuiltPrompt.ParseExact` | llm_gateway.py:297-331 | with one-line names and newline-separated texts free of the request header, parsing a built prompt gives back the exact prefix, block and suffix, and the printed chunks if and only if no line of a budgeted content has the shape of a label |
| `BuiltPrompt.ParseBuilt` | llm_gateway.py:297-331 | so the prompt of readable documents gives back prefix, block, suffix and chunks |
| `BuiltPrompt.CutMakesLabel` | parser_stage.py:293-299 | a document of 12079 characters without label-shaped lines whose prompt is not read back |
| `BuiltPrompt.BudgetReadable` | parser_stage.py:279-303 | documents in which neither the request header nor a label start occurs stay readable after budgeting |
| `PromptBudget.TrimPromptLength` | llm_gateway.py:392-407 | a trimmed prompt fits its limit, except by one if and only if a truncation meets the bad limit |
| `PromptBudget.TrimBuilt` | llm_gateway.py:392-407 | with room for the documents, trimming a built prompt keeps prefix and suffix verbatim and chunks in order, or cuts the block as text if and only if not even the first label fits |
| `PromptBudget.ApplyHistoryBudget` | llm_gateway.py:268-290 | the loop gives the kept messages |
| `PromptBudget.KeepNewest` | llm_gateway.py:268-290 | kept history is the newest usable messages in order, only the oldest kept one shortened, and one is dropped only when the budget is spent |
| `PromptBudget.SentNewest` | llm_gateway.py:410-428 | what is sent of the history, after both passes, is the newest usable of the last five messages in order, only the oldest sent possibly shortened |
| `PromptBudget.KeepLength` | llm_gateway.py:268-290 | kept history fits its budget, except by one if and only if some newest usable messages leave exactly 20 characters and the next older one is longer |
| `PromptBudget.ApplyTotalPromptBudget` | llm_gateway.py:410-428 | history and prompt after the total budget, as `PreparedExactly` describes them on the input |
| `PromptBudget.PreparedExactly` | llm_gateway.py:410-428 | of the last five messages the newest usable are kept while 6000 characters last; if they fit beside the stripped prompt both are sent as they are, else of those the newest are sent while the room beside the prompt lasts, and the prompt whole if it fits beside them, else trimmed to the room left |
| `PromptBudget.ShortIsSent` | llm_gateway.py:410-428 | a short conversation is sent as it is |
| `PromptBudget.TotalBudget` | llm_gateway.py:431-448 | what is sent ends with the prompt and totals at most 12000, or 12001 if and only if a document block with no fitting label is cut at limit 20: in a prompt that fills the budget alone, or in one shortened by one because the history beside it overshot |
| `PromptBudget.BudgetExceeded` | llm_gateway.py:410-428 | a concrete prompt for which 12001 characters are sent |
| `Conversations.ByIndexSorts` | persistence/conversation_store.py:127-138 | reading a thread sorts its rows by index and holds each once |
| `Conversations.AppendLast` | persistence/conversation_store.py:87-125 | an appended message comes last; other threads are kept; refused exactly on a blank name or role or an empty content |
| `Conversations.SnapshotStored` | persistence/conversation_store.py:173-217 | replacing and importing leave exactly the normalized snapshot, or refuse exactly on a blank part |
| `Conversations.NothingLeft` | persistence/conversation_store.py:140-171 | clearing or deleting a thread leaves no message of it and every other thread |
| `Conversations.ConversationStore.AppendMessage` | persistence/conversation_store.py:87-125 | new table after an append |
| `Conversations.ConversationStore.GetMessages` | persistence/conversation_store.py:127-138 | the messages in index order |
| `Conversations.ConversationStore.DeleteThreadMessages` | persistence/conversation_store.py:140-154 | emptied thread and the number deleted |
| `Conversations.ConversationStore.DeleteThread` | persistence/conversation_store.py:156-171 | the thread is gone, and the number of threads deleted |
| `Conversations.ConversationStore.ImportThreadSnapshot` | persistence/conversation_store.py:173-196 | nothing is written when the rows already match |
| `Conversations.ConversationStore.ReplaceThreadSnapshot` | persistence/conversation_store.py:198-217 | rows renumbered from zero |
| `Chats.ChatStore.AppendMessage` | llm_gateway.py:644-668 | pushed and capped, legacy bucket taken over first for the default thread |
| `Chats.ChatStore.ClearHistory` | llm_gateway.py:695-712 | list and, for the default thread, legacy bucket removed; registry kept or not |
| `Chats.ChatStore.GetHistory` | llm_gateway.py:678-693 | the decoded, capped history; legacy bucket taken over, a thread with messages registered |
| `Chats.SettledShows` | llm_gateway.py:614-642 | taking over the legacy bucket shows the same messages, happens once, registers the thread and touches no other list |
| `Chats.HistoryShows` | llm_gateway.py:678-693 | a history holds only user and assistant messages, at most the cap, and all there are while they fit |
| `Chats.AppendShows` | llm_gateway.py:644-668 | an appended chat message is last in the history, after the latest of what was shown, and the thread is registered |
| `Chats.ClearedShows` | llm_gateway.py:695-712 | a cleared thread shows nothing, legacy bucket included, stays registered exactly if asked, and every other list stays |
| `Chats.KeysDiffer` | llm_gateway.py:527-534 | keys of users without a colon name one thread each and no legacy bucket |
| `Chats.ColonKeyShared` | llm_gateway.py:533-534 | each colon in a user name gives the user named before it a thread with the same key |
| `DualWrite.Coordinator.EnsureThread` | persistence/conversation_write_coordinator.py:70-78 | both stores after the call, with the mirror up or down |
| `DualWrite.Coordinator.AppendMessage` | persistence/conversation_write_coordinator.py:80-95 | likewise |
| `DualWrite.Coordinator.ClearThread` | persistence/conversation_write_coordinator.py:97-119 | likewise |
| `DualWrite.Coordinator.ReplaceThreadSnapshot` | persistence/conversation_write_coordinator.py:121-143 | likewise, with the clear and append loop |
| `Mirror.SnapshotExact` | persistence/conversation_write_coordinator.py:148-159 | each message of a chat role with text is in the snapshot, stripped and at its place, and no other message is |
| `Mirror.WriteKeeps` | persistence/conversation_write_coordinator.py:70-143 | a write whose mirror call goes through keeps every thread in step |
| `Mirror.RedisIsTail` | persistence/conversation_write_coordinator.py:70-179 | after any such writes each Redis history is exactly the last `cap` database messages, and every database thread is registered |
| `Mirror.ColonUsersCollide` | llm_gateway.py:533-534 | for every user whose name continues a good user name with a colon, the other user reads this one's message and the database does not show it there |
| `Parity.ServedIsRedis` | app.py:1494-1552 | under every flag and any database content or failure the reader sees the Redis history up to stripping |
| `Parity.CutoverExact` | app.py:1494-1552 | after mirrored writes the database is served if and only if the thread has not outgrown the cap, and then both are equal |
| `Parity.CompareAllThreads` | persistence/conversation_parity.py:114-149 | the five lists partition the union of thread ids by status |
| `Parity.MissingIsMigrated` | persistence/conversation_parity.py:114-149 | while the user has no message in the database, the threads reported missing there are exactly those a migration imports, as many as it counts |
| `Parity.MigrateAllThreads` | persistence/conversation_migrator.py:58-90 | new tables and tally; refused exactly on a blank id or message |
| `Parity.DistinctInOrder` | persistence/conversation_migrator.py:58-90 | threads are migrated in the order in which they were first listed |
| `Parity.MigrateThenCompare` | persistence/conversation_migrator.py:34-90 | from any database, after migrating, every thread with a history matches, the others keep theirs, other users are untouched, and a second migration changes nothing |
| `Parity.ReportAfterMigration` | persistence/conversation_parity.py:114-149 | the report then has nothing missing in the database and no mismatch |
| `RateLimiter.AsyncRateLimiter.Check` | llm_gateway.py:749-764 | new marks, expiry and answer |
| `RateLimiter.KeptIsLog` | llm_gateway.py:755-761 | what is kept shows the same window as an unbounded log, key expiry included |
| `RateLimiter.AcceptedExactly` | llm_gateway.py:749-764 | a call is accepted if and only if its window holds at most the limit of attempts |
| `RateLimiter.AcceptedWhenFew` | llm_gateway.py:749-764 | fewer earlier attempts than the limit in the window means accepted |
| `RateLimiter.WindowBounded` | llm_gateway.py:749-764 | every window holds at most the limit of accepted calls per subject |
| `EventStream.HandleBlocks` | static/js/stream-controller.js:72-107 | the inner loop sees the events of its blocks up to the first stopping one, and says whether there was one |
| `EventStream.Start` | static/js/stream-controller.js:59-107 | the buffered reading loop sees the events of the whole text up to its stopping event |
| `EventStream.CompleteAppend` | static/js/stream-controller.js:66-74 | for any text cut anywhere, reading piecewise is reading at once |
| `EventStream.IterEvents` | scripts/smoke/smoke_common.py:223-236 | the loop gives the events of the lines |
| `EventStream.PrintedEvents` | app.py:2937-2941 | the browser reads back the printed payloads with nothing left over |
| `EventStream.PrintedLines` | scripts/smoke/smoke_common.py:223-240 | so does the line reader |
| `EventStream.ManyLines` | static/js/stream-controller.js:72-82 | a text sent as several data lines of a block is one event with its line breaks, for both readers |
| `EventStream.StreamRoundTrip` | app.py:2937-2941 | for every way to cut the printed text, the browser handles the printed payloads up to its stopping event, as the line reader gives them |

## Left out

- Job record expiry, lock timeouts and connection retries: a record stays, a lock lasts until its holder is done or dies.
- Identifiers: generated ids do not repeat, and the id derived for a child collides with no other.
- Ratios and weight factors are fractions of integers, so floating-point rounding is not modelled.
- Job events, metrics, logging, dashboards, model catalogue and heartbeats: target reports and worker kinds are inputs of each call.
- Requested priorities other than the default of a class: such a job would wait in a list nobody scans.
- Gateway.LLMGateway.StaleIds: ids of equal score come in any order.
- The parser worker's save of the prepared record (worker.py:747-758) is no event of `Runs`; it rewrites the whole root record from an older copy and is modelled in `Handoff`, on the fields the hand-off reads.
- Race.RaceSafe: a reservation is released through a ticket used once; a second release of the same job is in Theorems.CompletionExact.
- Theorems.PlacementHolds: says of an ended job only that it is in at most one list; Following.QueuesCleanExactly says exactly when it is in no pending or dispatch list.
- Parity.CompareAllThreads: the lists are not in sorted order, and the comparison reads one fixed source and database.
- BuiltPrompt.BuildDocumentPrompt: the wording of the instructions is a parameter; the round trip asks only that it does not hold the documents header.
- EventStream.Start: decoding bytes to characters and parsing JSON are not modelled; which events stop the reader is a parameter.
- Chats.ChatStore.GetHistory: timestamps, thread titles and the registry scores are not modelled; the registry is a set beside the lists.
- Text generation, document extraction, staging files, authentication, web pages and the Ollama client.
- Liveness of scheduling: a target is offered without checking its kind, so only safety is claimed.
