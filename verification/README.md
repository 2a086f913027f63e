# Verified model of the artsearch intake and discovery core

Artsearch collects art posts from Bluesky authors, filters them, files them in a corpus with
embeddings, crawls outward from known creators, and answers image searches. This project models
the parts of it whose correctness depends on state that outlives one call, on interleaving, or on
arithmetic, and proves what they promise.

| module | models |
|---|---|
| `AuthorScan`, `IntakeProtocol` | the paged scan of one author feed and its stored row; the protocol of scanning again and again while the feed grows |
| `Roster` | the rotating author roster over many runs |
| `Frontier` | the in-memory discovery store: leased task queue, exclusions, observations |
| `Repository` | the durable repository: expiring leases, review, exclusions, removals; it refines `Frontier` while no lease expires and no creator is blocked |
| `Campaign`, `CampaignBounds` | the concurrent discovery coordinator: budgets, per-creator lock, exclusion checks, and why a campaign ends |
| `CampaignAccounts` | what the coordinator's counters mean; depth limit and spent media budget over a run |
| `CampaignDrain` | the coordinator never deadlocks |
| `ExpansionCount` | the coordinator's count of added expansion children |
| `RequestBudget` | the HTTP request budget and its retry loop |
| `InferenceAdmission` | the bounded queue and slots of image inference |
| `RateLimiter` | the sliding-window request limiter |
| `Decision`, `Calibration`, `Wilson` | the filter rules and decision engine; the evaluator that re-derives its decisions and recommends thresholds; the Wilson interval |
| `ImageTransform` | crop, scale and pad arithmetic |
| `FeatureCache` | cached, chunked, memory-halving image encoding and the classification of a batch |
| `EmbeddingStream` | keyset streaming over the table that embedding changes |
| `Corpus` | the artwork table: validated content is unique |
| `CandidateStream` | deduplicating and batching a candidate stream; staged, atomically published candidate files |

Code that changes tables, counters or files step by step is a class or a method with loops, proved
to do what a function on values says; the properties over whole runs are lemmas about these
functions. Code that interleaves is a state machine whose steps are the pieces between two `await`
points or inside one lock; answers from the network, the models, the clock and the file system
are arguments of the steps, so every result holds for all of them.

Some promises hold only under a condition. Each of these has a lemma that says exactly when, and
one with a concrete input for which it fails:

- A candidate limit that cuts a scan makes the mark pass the posts not reached
  (`IntakeProtocol.CutMissesIff`; `IntakeProtocol.CutLosesAPost`).
- The limiter's retry hint is rounded down, so waiting for it can be too short
  (`RateLimiter.RetryHint`; `RateLimiter.RetryHintTooShort`).
- The evaluator reports accepts that the engine did not make when automatic accept is switched off,
  as it is by default (`Calibration.CalibrationReplaysTheEngine`,
  `Calibration.ProjectedAcceptsAreMadeIff`; `Calibration.AcceptOnlyOnPaper`).
- A database lease that expires on a task at its attempt limit is taken over all the same
  (`Repository.LimitsHoldIff`; `Repository.LimitCanBreak`).
- Recording a score that was under way overwrites the deleted state of a creator
  (`Repository.DeletedUnlessRescored`; `Repository.RescoreUndeletes`); the exclusion itself stays
  (`Repository.RepositoryBarrier`).
- Folder standardization that replaces the content of an embedded artwork keeps the old embedding
  (`Corpus.StaleIffReplaced`; `Corpus.EmbeddingCanBeStale`).
- An abort with new rows staged leaves later commits without them
  (`CandidateStream.ReplacementPublishes`; `CandidateStream.AbortLosesARow`).
- A write that fails after another succeeded counts the rows already written both as processed and
  as errors (`EmbeddingStream.EmbeddingDb.ProcessBatch`; `EmbeddingStream.CountedTwice`).

## Model

| member | source | states |
|---|---|---|
| AuthorScan.IntakeStateStore.RecordScan | src/artsearch/bluesky/state.py:61-114 | The upsert after a scan: complete moves the high-water mark to the newest post, if one was met, and clears the backlog; incomplete keeps the mark, keeps the first pending mark and stores the cursor. Every other actor row is unchanged. |
| AuthorScan.IntakeStateStore.RecordError | src/artsearch/bluesky/state.py:116-145 | An error changes only the completeness flag and the error text of that actor, creating an empty row if there was none. |
| AuthorScan.ScanPage | src/artsearch/bluesky/candidates.py:130-144 | One page of the scan: stops at the stop post, or where the candidate limit falls; the items fully yielded are the feed read from the start downwards without the stop post, the output is exactly their candidates in order, up to the limit, and the newest uri is the first one met. |
| AuthorScan.YieldItem | src/artsearch/bluesky/candidates.py:138-144 | The output is extended by the candidates of one item, in order, until they or the limit are used up. |
| AuthorScan.ReadPage | src/artsearch/bluesky/candidates.py:118-144 | One round of the page loop: a failed request, a missing cursor, an empty cursor, the stop post or the limit ends the scan with the reason, cursor and output it reports; otherwise it goes on just below the page. |
| AuthorScan.IterAuthorImageCandidates | src/artsearch/bluesky/candidates.py:102-144 | The paged scan loop over any page answers: fails exactly on a page cap or candidate limit that is not positive; otherwise its report explains the feed (what was walked, why it ended, where the limit fell, the newest uri, the next cursor), and its output is exactly the candidates of the walked items in order, cut at the limit. |
| AuthorScan.GrowthIsInvisible | src/artsearch/bluesky/client.py:339-365 | Posts that arrive while a scan is under way do not change what its later pages contain. |
| AuthorScan.IntakeStateStore.ScanActor | src/artsearch/bluesky_pipeline_cli.py:248-312 | One turn of the actor loop, by how the scan ended: at the mark, at the end of the feed, at the limit or on a first scan the mark moves to the newest post, if one was met, and the backlog is cleared; at the page cap the mark stays and cursor and pending mark are kept for later; an error changes only the flag and its text. |
| IntakeProtocol.StepKeepsCovered | src/artsearch/bluesky/state.py:61-145 | The stored row always marks a gap-free prefix: everything up to the high-water post is examined, and everything from the cursor up to the pending post; each arrival, scan, error or crash keeps it, and the mark never moves back. |
| IntakeProtocol.GapFree | src/artsearch/bluesky/candidates.py:102-144 | Over any interleaving of arrivals, page caps, resumes, recorded errors and crashes in which the candidate limit cuts no scan, every post newer than the first mark and no newer than the current one has been examined. |
| IntakeProtocol.ExactlyOnce | src/artsearch/bluesky/candidates.py:102-144 | Without errors each of these posts is examined exactly once, and none above the mark more than once. |
| IntakeProtocol.FirstScanSettles | src/artsearch/bluesky_pipeline_cli.py:293-311 | The first scan of an actor, however it ends short of an error, leaves a row from which the gap-free results start, if it met a post. |
| IntakeProtocol.LostMarkRecovers | src/artsearch/bluesky_pipeline_cli.py:293-311 | From any row, also one whose mark is no longer in the feed, which no scan can meet: a scan that runs to the end of the feed has examined everything below its start, clears the backlog and moves the mark, and the gap-free results start again if it met a post. |
| IntakeProtocol.CutMissesIff | src/artsearch/bluesky_pipeline_cli.py:293-311 | A scan that neither fails nor is capped by pages examines every post above the old mark and up to the new one if and only if the limit, counted off the feed above the mark, is not reached, or falls on the last candidate of an item with no post between it and the mark; the posts missed are exactly those below the cut, and the cut item unless it was yielded whole. |
| IntakeProtocol.CutIsForeseen | src/artsearch/bluesky/candidates.py:138-144 | Whether and where such a scan is cut follows from the feed above the mark and the limit alone. |
| IntakeProtocol.NeverBelowTheMark | src/artsearch/bluesky/state.py:61-145 | In every later run, cuts, errors and crashes included, no scan examines a post at or below the mark again. |
| IntakeProtocol.CutIsForGood | src/artsearch/bluesky_pipeline_cli.py:293-311 | So what a cut scan missed is never examined, whatever follows. |
| IntakeProtocol.CutLosesAPost | src/artsearch/bluesky_pipeline_cli.py:293-311 | A concrete cut scan of two new posts that loses the older one for good. |
| Roster.RotationIsPermutation | src/artsearch/bluesky/state.py:225-230 | The rotated roster is a permutation of the indexed roster, whatever the start. |
| Roster.RosterStore.AdvanceRoster | src/artsearch/bluesky/state.py:196-213 | The next index is stored modulo the roster size, for this roster only; an empty roster is an error. |
| Roster.RosterStore.RunAuthors | src/artsearch/bluesky_pipeline_cli.py:220-328 | A run that deals with any number of actors before it stops visits consecutive indices from the stored start and leaves the roster just after the last one. |
| Roster.RosterStore.RunMany | src/artsearch/bluesky_pipeline_cli.py:220-328 | Any number of runs of any lengths on the store, one after another: the visits are exactly the specified cycle from the stored start, and the visit counts of any two actors differ by at most one. |
| Roster.VisitsAreCyclic | src/artsearch/bluesky_pipeline_cli.py:284-328 | The visits that these runs make form one unbroken cycle, however it is divided into runs. |
| Roster.Fairness | src/artsearch/bluesky/state.py:181-230 | From any stored start and for any run lengths, the visit counts of two actors in these visits differ by at most one. |
| Frontier.OpKeepsValid | src/artsearch/discovery/fakes.py:224-327 | Every queue operation keeps: one active task per entity and action, one task per key, lease keys exactly the leased tasks, attempts within their bounds by status. |
| Frontier.OnlyTheHolderEndsTasks | src/artsearch/discovery/fakes.py:305-327 | Completed and dead are final, and only the lease holder brings them about: complete by completing, dead by failing. |
| Frontier.OpsKeepValid | src/artsearch/discovery/fakes.py:224-327 | After any run of operations the queue invariant holds and the claims made equal the attempts recorded. |
| Frontier.ClaimsBound | src/artsearch/discovery/fakes.py:224-327 | All claims ever made are at most the largest attempt limit times the number of keys ever enqueued. |
| Frontier.ExclusionBarrier | src/artsearch/discovery/fakes.py:224-267 | Through any run of store operations an excluded creator stays excluded and no task carrying it is created. |
| Frontier.InMemoryDiscoveryStore.EnqueueTask | src/artsearch/discovery/fakes.py:224-267 | Inserts exactly when key, exclusions and active tasks allow it, and changes nothing otherwise. |
| Frontier.InMemoryDiscoveryStore.SortedEligible | src/artsearch/discovery/fakes.py:280-293 | All waiting tasks of the campaign, each once, in claim order. |
| Frontier.InMemoryDiscoveryStore.ClaimTasks | src/artsearch/discovery/fakes.py:269-303 | Leases exactly the first waiting tasks up to the limit to this worker: a task is left out only when the limit is used up, and only for tasks of no worse priority or, if equal, no later time. |
| Frontier.InMemoryDiscoveryStore.CompleteTask | src/artsearch/discovery/fakes.py:305-310 | Completes the task and drops its lease exactly when this worker holds it. |
| Frontier.InMemoryDiscoveryStore.FailTask | src/artsearch/discovery/fakes.py:312-327 | Retry or dead by the attempts made, and drops the lease; an error when this worker does not hold it. |
| Frontier.InMemoryDiscoveryStore.RecordSuggestion | src/artsearch/discovery/fakes.py:121-146 | Appends the observation unless an equal one is recorded. |
| Frontier.InMemoryDiscoveryStore.AddExclusion | src/artsearch/discovery/fakes.py:336-348 | Adds exactly this exclusion. |
| Repository.OpKeepsRepoValid | src/artsearch/discovery/repository.py:588-940 | Every repository operation, at any time and in any order, keeps: one row per key, one active row per entity and action, a lock holder exactly on leased rows, attempts consistent with status. |
| Repository.LeaseIsExclusive | src/artsearch/discovery/repository.py:651-761 | Until its lease runs out a leased task cannot be changed by any run of operations other than its holder completing or failing it: not by claims, blocks or removals. |
| Repository.RetryWaits | src/artsearch/discovery/repository.py:736-760 | Until its pause is over, no run of operations claims a failed task; a block may cancel it, and then for good. |
| Repository.PausesDouble | src/artsearch/discovery/repository.py:748-754 | On the stored row: a first failure puts the task off by the base, and each further one by twice as long as the one before. |
| Repository.FailedTaskRests | src/artsearch/discovery/repository.py:722-761 | After its holder failed a task, no run of operations claims it before the base pause is over, whatever happens meanwhile. |
| Repository.ClaimLasts | src/artsearch/discovery/repository.py:681-700 | A claimed task is its worker's for the whole lease: no operation before its end changes it but the worker's own. |
| Repository.LimitsHoldIff | src/artsearch/discovery/repository.py:660-671 | A step keeps all attempts within their limits if and only if it does not take over an expired lease of a task that is already at its limit. |
| Repository.RunWithinLimits | src/artsearch/discovery/repository.py:651-700 | A run without such takeovers keeps all attempts within their limits. |
| Repository.LimitCanBreak | src/artsearch/discovery/repository.py:660-671 | A concrete run in which a task with a limit of one is claimed twice. |
| Repository.RepositoryBarrier | src/artsearch/discovery/repository.py:611-613 | Once a creator is excluded, then through every later operation it stays excluded and the tasks carrying it stay exactly the same. |
| Repository.BarrierIsRaised | src/artsearch/discovery/repository.py:801-914 | An exclusion of scope all or discovery, a block review and an approved removal each exclude the creator at once; a block also leaves no waiting task of the creator. |
| Repository.RemovalsAreDurable | src/artsearch/discovery/repository.py:886-940 | In every run each approved removal request keeps its approval, has excluded its subject and has exactly one event in the outbox; no other request has one. |
| Repository.DeletedUnlessRescored | src/artsearch/discovery/repository.py:470-482 | A deleted creator stays deleted under every operation if and only if the operation is not the recording of its score with another state. |
| Repository.RescoreUndeletes | src/artsearch/discovery/repository.py:470-482 | A concrete run in which a removed creator is qualified again by a score that was under way. |
| Repository.HydrationRun | src/artsearch/discovery/repository.py:251-302 | However often creators are hydrated, with any queue operations between: a deleted creator stays deleted; any other is blocked if and only if it was blocked or was once found unsafe; otherwise a reviewed state is kept, and an unreviewed creator is hydrated; one that is not hydrated keeps its state. |
| Repository.OpRefines | src/artsearch/discovery/repository.py:588-761 | Every operation that takes over no expired lease and blocks no creator does to the queue what the in-memory operation of the same name does, or leaves it alone. |
| Repository.RunRefines | src/artsearch/discovery/repository.py:588-761 | So every such run is a run of the in-memory store, and whatever holds of all runs there holds here. |
| Repository.DiscoveryRepository.EnqueueTask | src/artsearch/discovery/repository.py:588-649 | Inserts, with a clamped priority, exactly when exclusion, active tasks and idempotency key allow it. |
| Repository.DiscoveryRepository.ClaimTasks | src/artsearch/discovery/repository.py:651-700 | Leases due rows, waiting or with an expired lease, to this worker until the lease ends: a due row is left out only when the limit is used up, and only for rows of no worse priority; all other rows are unchanged. |
| Repository.DiscoveryRepository.CompleteTask | src/artsearch/discovery/repository.py:702-720 | Completes the row exactly when it is leased by this worker. |
| Repository.DiscoveryRepository.FailTask | src/artsearch/discovery/repository.py:722-761 | Dead or retry by the attempts made, put off by at least the base and by exactly the base the first time, with the lease gone; an error that changes nothing when this worker does not hold it. |
| Repository.DiscoveryRepository.ReviewCreator | src/artsearch/discovery/repository.py:763-832 | Each decision sets its state; an unknown or deleted creator is an error; a block also excludes the creator and cancels exactly its waiting tasks. |
| Repository.DiscoveryRepository.ApproveRemoval | src/artsearch/discovery/repository.py:886-940 | An open request excludes and deletes its subject, publishes its event and is closed; any other request is an error. |
| Repository.DiscoveryRepository.HydrateCreator | src/artsearch/discovery/repository.py:251-302 | Does exactly one specified hydration of this creator and leaves everything else alone. |
| Campaign.BudgetsHold | src/artsearch/discovery/pipeline.py:239-253 | From any valid store, in every reachable state of every interleaving: the seen creators equal the counter and stay within the creator budget; media and claims stay within theirs; when no task is running, claimed = completed + retried + dead. HTTP attempts stay within their budget because each is charged before it is sent, which is proved of the retry loop in `RequestBudget`. |
| CampaignAccounts.UseIsWithinBudgets | src/artsearch/discovery/pipeline.py:479-517 | In every run the media handed to the processor add up to exactly the media count and stay within the budget, and the requests sent are exactly the requests used and stay within theirs. |
| CampaignAccounts.ReservationIsFull | src/artsearch/discovery/pipeline.py:479-483 | A reservation hands on everything offered unless the budget cuts it, and is counted in full. |
| CampaignAccounts.SpentBudgetStopsSampling | src/artsearch/discovery/pipeline.py:471-475 | Once the media budget is spent no further task of the run starts sampling and nothing more is handed to the processor. |
| CampaignAccounts.SummaryMatchesStore | src/artsearch/discovery/pipeline.py:410-457 | The completed and dead counts of a run are exactly the growth of the completed and dead tasks in the store. |
| CampaignAccounts.DepthHolds | src/artsearch/discovery/pipeline.py:618-663 | No run enqueues a task beyond the depth limit, or an expansion at it, whatever tasks earlier runs left. |
| CampaignAccounts.SuggestionLeadsTo | src/artsearch/discovery/pipeline.py:239-334 | A suggested creator within the budget is seen and recorded; an excluded or label-blocked one is excluded for good and gets no task; nor does one too deep or not worth sampling; one worth sampling has an active sampling task or had one in this campaign. |
| CampaignAccounts.QualifiedIsExpanded | src/artsearch/discovery/pipeline.py:618-663 | A qualified creator within the depth limit gets an expansion task for each enabled follow source, unless it had one in this campaign. |
| CampaignAccounts.TaskBegins | src/artsearch/discovery/pipeline.py:459-475 | Which tasks fail at once (no creator), end at once (excluded, too deep, no source, media budget spent) and go on. |
| CampaignAccounts.ExpansionIsLimited | src/artsearch/discovery/pipeline.py:576-597 | Through any run up to the next batch an expansion consumes no more suggestions than the follow limit of its kind allows. |
| Campaign.FanoutHolds | src/artsearch/discovery/pipeline.py:558-599 | For each creator, whatever the others have and on any store that earlier campaigns left: with both of its expansions able to run at once its children never exceed the limit if they did not before, and one at or over the limit gains no child at all. |
| Campaign.ExclusionHolds | src/artsearch/discovery/pipeline.py:262-296 | Once a creator is excluded, in this run and all later ones, with operators excluding, blocking and removing creators meanwhile, no task is created for it and no further task gets past its exclusion check to sample or expand it. |
| Campaign.OperatorIsObeyed | src/artsearch/discovery/pipeline.py:469-470 | An exclusion, block or removal raised by an operator in the middle of a run holds from that step on, whatever is running: the creator gets no new task, and none of its tasks gets past its check. |
| Campaign.StepKeepsSound | src/artsearch/discovery/pipeline.py:387-457 | Each step keeps: every running coroutine holds the lease of its task, and each creator lock is held by exactly the expansion that is past it. |
| Campaign.StepKeepsBudgets | src/artsearch/discovery/pipeline.py:471-517 | Each step keeps the creator, media, request and claim budgets and the conservation of claimed tasks, running ones included. |
| Campaign.StepKeepsFanout | src/artsearch/discovery/pipeline.py:558-599 | Each step keeps, creator by creator: children plus what the lock holder may still add is within any bound of at least the limit. |
| CampaignDrain.EveryBatchDrains | src/artsearch/discovery/pipeline.py:336-457 | No deadlock: from every sound state, whatever coroutines run and locks are held, some run of their own steps without any error ends them all and frees all locks. |
| Campaign.StepStartsNoWork | src/artsearch/discovery/pipeline.py:469-470 | No step takes a task of an excluded creator past its exclusion check. |
| ExpansionCount.AddedIsGrowth | src/artsearch/discovery/pipeline.py:576-597 | When no task is running, the summary's count of added children is exactly the growth of the recorded expansion edges in this run, less what failing expansions had found: the lock lets no child be counted twice. |
| ExpansionCount.StepCounts | src/artsearch/discovery/pipeline.py:576-597 | No step changes the number of edges that nobody counts or will count, but the failure of an expansion, which adds exactly what it had found. |
| Campaign.ClaimFrontierBatch | src/artsearch/discovery/pipeline.py:354-385 | Exploitation, exploration and top-up claim, in turn, the best tasks, the least promising ones and the best of the rest, in their exact shares; together one claim of distinct waiting tasks, never more than the batch, and fewer only when none is left. |
| CampaignBounds.CampaignEnds | src/artsearch/discovery/pipeline.py:336-352 | From a store without tasks a campaign claims at most 3 * creator budget * attempt limit tasks, and its drain loop runs at most that many rounds, whatever the task cap. |
| CampaignBounds.RunKeepsAccounted | src/artsearch/discovery/pipeline.py:632-663 | Along any run every task belongs to this campaign and a seen creator, claims equal attempts, and claims grow by at least one per round. |
| RequestBudget.BlueskyRequestBudget.Consume | src/artsearch/bluesky/client.py:41-59 | Charges one request exactly while the budget lasts. |
| RequestBudget.BlueskyRequestBudget.RequestWithRetries | src/artsearch/bluesky/client.py:304-337 | The budget is charged for exactly the attempts sent; the budget error comes exactly when the attempts needed exceed what is left; only transport errors, the statuses 408, 425 and 429 and server errors are tried again, and they are while retries are left; the result is that of the last attempt. |
| RequestBudget.Final | src/artsearch/bluesky/client.py:312-337 | An error is flagged retryable exactly when another attempt would have been worth making, and only a status below 400 is a response. |
| RequestBudget.AttemptsInRange | src/artsearch/bluesky/client.py:304-337 | Between one and retries + 1 attempts; all but the last were retryable, and the last only if no retry was left. |
| InferenceAdmission.SlotsConserved | src/artsearch/api/service.py:237-320 | Over every interleaving of successes, encoder errors, queue and inference timeouts and cancels: free permits plus held slots equal the capacity, unfinished jobs never exceed it even after callers gave up, and the queue stays within its bound. |
| InferenceAdmission.ReturnedExactlyOnce | src/artsearch/api/service.py:305-320 | No slot is returned twice or before its worker job has ended, the image of a request stays open while its job runs and is closed exactly once, and a request that is over has returned what it took. |
| InferenceAdmission.RunningJobsKeepSlots | src/artsearch/api/service.py:279-316 | Counted from the operations alone, the jobs submitted and not yet ended never exceed the capacity together with the free permits, and each has its slot and its open image until it ends, however long ago its caller gave up. |
| InferenceAdmission.QuiescenceRestoresCapacity | src/artsearch/api/service.py:318-320 | When every request is over, all permits are back and both counters are zero. |
| InferenceAdmission.EveryStateDrains | src/artsearch/api/service.py:237-320 | No deadlock: from every valid state some run of operations ends all requests. |
| InferenceAdmission.InferenceGate.EnterQueue | src/artsearch/api/service.py:248-252 | Admits exactly while fewer than the maximum are pending. |
| InferenceAdmission.InferenceGate.SlotAcquired | src/artsearch/api/service.py:254-272 | Moves the request from the queue to a slot; when the executor refuses the job the slot is returned at once. |
| InferenceAdmission.InferenceGate.AwaitReturns | src/artsearch/api/service.py:273-297 | A result or error returns the slot; a timeout raised by the job itself leaves it to the worker callback. |
| InferenceAdmission.InferenceGate.TimeoutOrCancel | src/artsearch/api/service.py:279-297 | Giving up frees nothing: the slot stays with the running job. |
| InferenceAdmission.InferenceGate.ReleaseInferenceSlot | src/artsearch/api/service.py:318-320 | Returns one permit, counts one inference fewer and ends the request. |
| RateLimiter.WindowBound | src/artsearch/api/app.py:54-71 | For any monotone sequence of checks every interval (t - window, t] holds at most `requests` admissions of a key. |
| RateLimiter.KeysAreIndependent | src/artsearch/api/app.py:61-71 | However the checks of many keys interleave, each key has exactly the events and admissions it would have alone. |
| RateLimiter.FixedWindowRateLimiter.CheckAll | src/artsearch/api/app.py:54-71 | Any sequence of checks in time order on a fresh limiter gives the specified answers, and every window of every key holds at most `requests` admissions. |
| RateLimiter.RefusedIffWindowFull | src/artsearch/api/app.py:61-71 | A check is refused if and only if the window ending now already holds `requests` admissions. |
| RateLimiter.RetryHint | src/artsearch/api/app.py:66-69 | Waiting for the returned time is enough if and only if the exact rest of the window is at most one second or a whole number of seconds; one second more is always enough. |
| RateLimiter.RetryHintTooShort | src/artsearch/api/app.py:66-69 | A concrete refused check whose hint is too short. |
| RateLimiter.FixedWindowRateLimiter.Check | src/artsearch/api/app.py:61-71 | The pruning loop and the decision do exactly one step of the specified limiter on this key and leave every other key alone. |
| Calibration.CalibrationReplaysTheEngine | src/artsearch/artwork_filter/evaluation.py:468-516 | For every input under a valid configuration the evaluator at the configured thresholds says reject exactly when the engine rejected, and accept exactly when it accepted, provided automatic accept is on; an accepted result has the route of its class. |
| Calibration.AcceptOnlyOnPaper | src/artsearch/artwork_filter/ensemble.py:193-199 | A concrete result that the evaluator counts as an accept and the engine, with automatic accept off, sent to review. |
| Calibration.ClampIsInvisible | src/artsearch/artwork_filter/ensemble.py:288-291 | Clamping a score does not change its comparison with a valid pair of thresholds. |
| Calibration.RulesAggregate | src/artsearch/artwork_filter/rules.py:10-135 | The rule result aggregates its own hits; it forces a reject exactly for a small, tiny or disallowed animated image, otherwise a review exactly for a far from square or nearly one-coloured image, a repost or a quote, and never an accept. |
| Decision.Top | src/artsearch/artwork_filter/ensemble.py:259-262 | The predicted class is that of the first of the highest scores. |
| Decision.UtilityRaisesScore | src/artsearch/artwork_filter/ensemble.py:271-281 | Below the upper end of the scale, raising the art utility raises the score of a decision by exactly the visual weight, whatever else the model says. |
| Decision.TextRaisesScore | src/artsearch/artwork_filter/ensemble.py:271-281 | Likewise raising the net text score raises it by half of the text weight. |
| Decision.ScoreAtTheEnds | src/artsearch/artwork_filter/ensemble.py:271-285 | The least inputs give half of the rule weight; without a model the text alone gives the score, and the decision is review. |
| Decision.UtilityHelps | src/artsearch/artwork_filter/ensemble.py:170-205 | A better utility never turns an accept into a review or a reject, and a worse one never a reject into anything else. |
| Decision.DecisionIsFiled | src/artsearch/artwork_filter/ensemble.py:58-130 | The route of every reject and review, the results forced by rules, and the confidence, which is the highest class score. |
| Decision.AcceptedClassHasRoute | src/artsearch/artwork_filter/ensemble.py:170-209 | A class that gets as far as an accept has an entry in the table of accepted routes. |
| Calibration.RecommendAccept | src/artsearch/artwork_filter/evaluation.py:519-532 | The recommended row qualifies and has the least threshold of all that do; none only if none does. |
| Calibration.RecommendReject | src/artsearch/artwork_filter/evaluation.py:535-550 | The recommended row qualifies below the given threshold and has the greatest threshold of all that do; none only if none does. |
| Calibration.RecommendationIsSound | src/artsearch/artwork_filter/evaluation.py:73-157 | A recommended threshold was decided on often enough and its observed precision meets the target; a recommended pair has reject below accept; no qualifying accept threshold is lower. |
| Calibration.BolderDecidesMore | src/artsearch/artwork_filter/evaluation.py:388-431 | A lower accept threshold or a higher reject threshold never decides fewer samples. |
| Calibration.RecommendationCoversMost | src/artsearch/artwork_filter/evaluation.py:519-550 | Of all thresholds that qualify the recommended ones decide the most samples. |
| Calibration.WilsonIsLowerBound | src/artsearch/artwork_filter/evaluation.py:633-643 | The lower end of the interval never exceeds the observed precision, which is what the recommendation needs of it. |
| Calibration.WilsonRecommendationIsSound | src/artsearch/artwork_filter/evaluation.py:73-157 | With the Wilson interval as the bound, as in the source, recommended thresholds are safe and a recommended pair has reject below accept. |
| Calibration.ProjectionPartitions | src/artsearch/artwork_filter/evaluation.py:434-465 | With ordered thresholds the projected accept, reject and review counts partition the samples. |
| Calibration.ProjectionReplaysDecisions | src/artsearch/artwork_filter/evaluation.py:434-465 | For every valid configuration, projecting the current thresholds counts exactly the rejects made, and accepts and reviews together exactly as many as accepts, reviews and errors; the accepts made are the projected ones with automatic accept on and none with it off. |
| Calibration.ProjectedAcceptsAreMadeIff | src/artsearch/artwork_filter/evaluation.py:434-465 | The projected accept count equals the accepts made if and only if automatic accept is on or the evaluator would accept no stored sample. |
| Wilson.IntervalIsWilson | src/artsearch/artwork_filter/evaluation.py:633-643 | The interval lies in [0, 1], holds the observed proportion p, and consists of exactly the x with (p - x)^2 <= z^2 x (1 - x) / n; its ends are the two roots. |
| Wilson.IntervalMirrors | src/artsearch/artwork_filter/evaluation.py:633-643 | The lower end for s of n is one minus the upper end for n - s of n. |
| ImageTransform.PlanFits | src/artsearch/ingest/transforms.py:37-103 | For all positive sizes and every threshold of at least one a plan exists; crops and pads are not negative, sum exactly, split within one, sides are rounded half to even from their exact length, and the longer side fills the canvas. |
| ImageTransform.FailsOnlyOnBadArguments | src/artsearch/ingest/transforms.py:43-51 | A plan exists exactly for valid arguments: the oversize error and a division by zero cannot happen. |
| ImageTransform.CropMeetsThreshold | src/artsearch/ingest/transforms.py:53-70 | What is kept of the long side is within half a pixel of the threshold; an image within the threshold stays whole. |
| ImageTransform.RoundIsNear | src/artsearch/ingest/transforms.py:58-73 | Rounding gives the nearest integer, and of two equally near ones the even one. |
| ImageTransform.KeptFits | src/artsearch/ingest/transforms.py:53-70 | The cut leaves both sides positive, enlarges neither and keeps the short side whole. |
| ImageTransform.RetainedPointsStayInside | src/artsearch/ingest/transforms.py:106-114 | Every point of the retained box maps onto the canvas. |
| ImageTransform.BoxMapsToImage | src/artsearch/ingest/transforms.py:106-114 | The retained box is mapped to where the resized image lies: its left and top edges exactly onto the pads, the others up to half a pixel. |
| ImageTransform.MapsAreInverse | src/artsearch/ingest/transforms.py:106-125 | The two coordinate maps of every plan undo each other. |
| FeatureCache.SiglipBackend.EncodeWithOomRetry | src/artsearch/artwork_filter/siglip_backend.py:175-188 | Halving until it fits returns the per-image encodings in order; it runs out of memory only if a single image may. |
| FeatureCache.SiglipBackend.EncodeImages | src/artsearch/artwork_filter/siglip_backend.py:78-86 | Chunked encoding equals the order-preserving per-image map whenever it returns, and fails only if some consecutive images may. |
| FeatureCache.ArtworkFilterService.EmbeddingsFor | src/artsearch/artwork_filter/service.py:207-262 | Row i is the encoding of image i for every pattern of hits and misses, the model is asked for exactly the misses, the cache stays true, and it fails only if the model may fail on the images asked for, so never on hits alone. |
| FeatureCache.ArtworkFilterService.FillMissing | src/artsearch/artwork_filter/service.py:239-262 | Each computed row goes to the index it was missing at, and into the cache. |
| FeatureCache.ArtworkFilterService.RulePass | src/artsearch/artwork_filter/service.py:118-146 | After the first pass exactly the candidates that need the model are open, in order, and every other slot holds the result that does not depend on it. |
| FeatureCache.ArtworkFilterService.FillModelSlots | src/artsearch/artwork_filter/service.py:188-205 | Each score goes to the candidate it was made for; without scores each of them gets an error. |
| FeatureCache.ArtworkFilterService.ClassifyLoaded | src/artsearch/artwork_filter/service.py:118-205 | One result per candidate at its own index, equal to the engine applied to that candidate alone; exactly the candidates that need the model are errors when a call fails, and that only if encoding may fail on the images not cached, or scoring on the batch. |
| EmbeddingStream.EmbeddingDb.GenerateEmbeddings | src/artsearch/embed/pipeline.py:23-92 | For any set of existing files and any answers of model and database: every artwork pending at the start is yielded exactly once, in strictly increasing id order, although processing shrinks the pending set and failed rows stay in it; the loop ends; exactly the rows with a file that a page stored leave the pending set; and processed plus errors is the number of yielded rows if and only if in no page a write failed after another had succeeded. |
| EmbeddingStream.SelectPage | src/artsearch/embed/pipeline.py:118-156 | A page is the first rows of the pending set after the last key, in order, and short only when no more are left. |
| EmbeddingStream.EmbeddingDb.ProcessBatch | src/artsearch/embed/pipeline.py:33-82 | One batch touches only its own rows; existing files, the model and the failing write determine exactly which rows are stored and both counts, a row stored before its log entry failed included. Each row is counted once if and only if no write failed after another had succeeded. |
| EmbeddingStream.EmbeddingDb.WriteEmbeddings | src/artsearch/embed/pipeline.py:64-73 | Stores the embeddings of exactly the first rows, up to the write that fails, the row of that write included if only its log entry failed. |
| EmbeddingStream.CountedOnceIff | src/artsearch/embed/pipeline.py:33-82 | For every page: processed plus errors is its number of rows if and only if no write failed after another had succeeded, and otherwise exceeds it by the rows written. |
| EmbeddingStream.CountedTwice | src/artsearch/embed/pipeline.py:64-82 | A concrete page of two rows that is counted as one processed row and two errors. |
| EmbeddingStream.EmbeddingDb.PageExtends | src/artsearch/embed/pipeline.py:118-156 | A page continues what was yielded with exactly the ids of the starting set up to its last key. |
| Corpus.StepKeepsSound | src/artsearch/artwork_filter/corpus_store.py:195-308 | Every import, folder standardization, audit, embedding, commit and rollback, failing midway or not, keeps: no two validated rows share a file hash, and validated rows are complete. It holds of what the connection sees and of what is committed. |
| Corpus.ValidatedContentIsUnique | src/artsearch/ingest/pipeline.py:102-252 | In every state of every run from an empty table no two validated rows share a file hash, and no two rows share a Bluesky source. |
| Corpus.OutcomeMeansStored | src/artsearch/artwork_filter/corpus_store.py:195-308 | Unless the outcome is an error, the content is validated under exactly one row afterwards, the one named; unchanged and duplicate change nothing. |
| Corpus.ErrorAddsNothing | src/artsearch/ingest/pipeline.py:102-252 | An error never makes content valid, and every row it changed is out of the corpus. |
| Corpus.ImportIsIdempotent | src/artsearch/artwork_filter/corpus_store.py:195-217 | Importing the stored file again is unchanged and changes nothing. |
| Corpus.ProcessIsIdempotent | src/artsearch/ingest/pipeline.py:125-141 | Standardizing the stored file again is unchanged and changes nothing; the row holds the file's paths. |
| Corpus.RollbackForgets | src/artsearch/artwork_filter/corpus_store.py:247-253 | After a rollback an uncommitted import is gone: a new row entirely, and of a replaced one only the early invalidation stays. |
| Corpus.StaleIffReplaced | src/artsearch/ingest/pipeline.py:170-214 | Embeddings stay those of the present content if and only if no folder standardization writes new content over an embedded row; imports drop the embedding of what they replace. |
| Corpus.EmbeddingCanBeStale | src/artsearch/ingest/pipeline.py:170-214 | A concrete run, one file standardized, embedded, changed and standardized again, that ends with a stale embedding. |
| Corpus.CorpusDb.ImportAccepted | src/artsearch/artwork_filter/corpus_store.py:195-308 | The statements of an import do exactly the import step, with whatever rows the lookups return, including its commit before the image is made. |
| Corpus.CorpusDb.PersistBatch | src/artsearch/artwork_filter/corpus_store.py:31-92 | A batch imports exactly its accepted items, in order, and ends with a commit, or with a rollback when a result was made under another configuration; each heading of the summary counts exactly the items it names. |
| Corpus.CorpusDb.ProcessOne | src/artsearch/ingest/pipeline.py:102-252 | The statements for one file do exactly the standardization step: the row is written unvalidated before the image is made and validated after. |
| Corpus.CorpusDb.AuditCorpusMetadata | src/artsearch/ingest/pipeline.py:278-352 | The audit invalidates exactly the rows with a missing raw or processed file, changes nothing else, and counts each missing file once. |
| CandidateStream.BlueskyArtworkPipeline.ProcessStream | src/artsearch/bluesky_pipeline.py:75-108 | The batches handed on, a failing one included, concatenate to the first occurrences of the consumed stream minus skipped keys, in full batches but the last, also when the source raises midway; the candidate file is committed unless processing fails after the source did. |
| CandidateStream.DedupeKeepsFirst | src/artsearch/bluesky/io.py:32-46 | Deduplication reads the stream at exactly the positions of first occurrences of unseen versions, in order. |
| CandidateStream.ReplacementPublishes | src/artsearch/bluesky/io.py:17-67 | Replacement mode: the published file is unchanged before the first successful commit, and afterwards is exactly the deduplicated appended rows in order if and only if no abort came before that commit with new versions appended since the abort before it. |
| CandidateStream.AbortLosesARow | src/artsearch/bluesky/io.py:48-67 | A concrete sequence, append, abort, append again, commit, that publishes an empty file. |
| CandidateStream.DiscardedIff | src/artsearch/bluesky/io.py:48-67 | Rows are thrown away exactly by such aborts; a commit that fails has nothing to throw away. |
| CandidateStream.ReplacementConserves | src/artsearch/bluesky/io.py:17-67 | Rows thrown away by aborts followed by the rows kept are exactly the deduplicated appended rows, and the row counter counts both. |
| CandidateStream.CommitPublishesIff | src/artsearch/bluesky/io.py:48-63 | A commit publishes exactly when empty files are allowed, something was published before, or a row was ever appended. |
| CandidateStream.AppendExtends | src/artsearch/bluesky/io.py:17-67 | Append mode: the old content stays as a prefix, followed by exactly the appended rows of versions it did not have. |
| CandidateStream.StreamIsPublished | src/artsearch/bluesky_pipeline.py:75-108 | A stream processed into a fresh replacement file publishes exactly the first occurrences of what was consumed; nothing is published when nothing was and empty files are not allowed. |
| CandidateStream.JSONLCandidateStore.constructor | src/artsearch/bluesky/io.py:17-26 | Append mode starts with the versions readable in the existing file, replacement mode with none. |
| CandidateStream.JSONLCandidateStore.AppendMany | src/artsearch/bluesky/io.py:32-46 | Appends exactly the candidates of unseen versions, once each, and counts them. |
| CandidateStream.JSONLCandidateStore.Commit | src/artsearch/bluesky/io.py:48-63 | Publishes the staged rows and turns to append mode, or aborts when there is nothing to publish. |

## Left out

- IntakeProtocol.GapFree: excludes scans cut by the candidate limit, for which `IntakeProtocol.CutMissesIff` says what is missed, and starts after the first scan of an actor; both are recorded as complete by design.
- IntakeProtocol.ExactlyOnce: excludes errors, crashes and pages that end in an empty cursor, after which posts are examined again, and items without a uri, which no mark can name.
- AuthorScan.IterAuthorImageCandidates: cursors are stable positions in a feed that grows only at the front; the parsing of feed items into candidates and their moderation is a count of candidates per item.
- Roster.Fairness: the roster key is the roster itself, not its hash; case folding of actor names is left out.
- Campaign.BudgetsHold: the coordinator is a state machine on values and not a class, because its coroutines interleave between any two awaits; answers of hydrator, oracles, media processor and scorer are arbitrary, which allows more runs than the code has. HTTP attempts may be made at any time in a run.
- Campaign.FanoutHolds: the follow oracles name the creator they expand as the parent, as they do in the repository, and initial sources record no creator parents, so their suggestions add no expansion children.
- Campaign.ExclusionHolds: a task that had already passed its check when the exclusion came may finish; expiry dates and deactivation of exclusions are left out, since no operation sets them.
- CampaignBounds.CampaignEnds: is proved for the in-memory store, which has no lease expiry; `Repository.LimitsHoldIff` shows what expiry adds.
- Repository.OpRefines: transactions are atomic steps, so races between two connections, and rows skipped because another connection holds them, are left out; entity ids are an injective function of the DID; tasks are numbered in the order of their creation, which stands for the creation time.
- Repository.RemovalsAreDurable: posts and media marked deleted, graph edges, review queues, snapshots and pipeline events are left out.
- InferenceAdmission.SlotsConserved: the semaphore hands a permit to a waiter atomically, the lock of the pending counter is a step boundary without queue, and a loop that is closed before a worker ends never gets that slot back; telemetry and response building are left out.
- RateLimiter.WindowBound: the checks come in time order, as they do from the one event loop that makes them.
- Calibration.CalibrationReplaysTheEngine: scores are exact reals, so non-finite scores do not exist; reason codes, text matching and score softmax are left out.
- Wilson.IntervalIsWilson: the square root is any exact square root on non-negative reals, and `z` any positive real; the source's value is the constant `Wilson.Z95`.
- Calibration.RecommendationIsSound: recall, coverage and the per-artist and per-subtype metrics are left out, and so is the file format of the labels.
- ImageTransform.PlanFits: floating-point rounding is left out; numbers are exact and only the rounding to pixels is modelled. `Oversized` and `DivisionByZero` stay in the model to be shown unreachable.
- FeatureCache.ArtworkFilterService.EmbeddingsFor: encoding an image is a fixed function of it and the cache key is the image; a cached vector of the wrong length is a miss; whether a cache write fails, or a call that may fail does, is arbitrary.
- FeatureCache.ArtworkFilterService.ClassifyLoaded: loading of images, durations and the persistence of decisions are left out.
- EmbeddingStream.EmbeddingDb.GenerateEmbeddings: an artwork with an empty id sorts with the initial key and is never yielded; nobody else inserts rows during the run.
- Corpus.ValidatedContentIsUnique: operations follow one another on one connection; two processes that look for duplicates at the same time are left out. A database error in the middle of a batch is a rollback. Hashes and derived ids are injective.
- Corpus.CorpusDb.ProcessOne: near-duplicate search, review status, artist rows, run events and the transform columns are left out.
- Corpus.CorpusDb.AuditCorpusMetadata: raw files without a row, which are only reported, are left out.
- CandidateStream.BlueskyArtworkPipeline.ProcessStream: cancellation, which is not caught as an exception, and failures to write the file are left out; what classification, routing and storing do with a batch is in `FeatureCache` and `Corpus`. There is always a candidate store.
- The resume files of actor checkpoints and decisions: append-only sets of keys with easy properties.
- Search, vector indexes, fusion, the HTTP layer, the gallery, monitoring, migrations, deployment and configuration loading: not part of this model; the validators of the configuration appear as preconditions.
