# Verification of the web analyzer's delivery pipeline

This project models, in Dafny 4.11, the path of an analysis request through the
service: the API commits an analysis row and an outbox event in one transaction,
publishers claim the event and hand it to the broker, subscribers fetch and
analyse the page, and a read-through cache is filled and emptied around them. It
proves what holds in every run, whatever workers interleave, crash, read stale
lists or see their calls fail, and it says exactly where the code falls short of
what its own domain layer, comments or documentation promise.

`dafny verify dfyconfig.toml` checks everything.

## How it is built

Two kinds of model stand side by side.

* **State machines** for what runs concurrently. Each database statement, broker
  call, cache call and channel operation is one atomic step; whatever comes from
  outside (an answer of the database, the result of a call, a clock reading, the
  choice a `select` makes) is a parameter of the step. Theorems are about every
  state of every run. Ghost history (owner of a claim, publish attempts, past
  states of a row, what full analyses produced) is part of the state.
* **Classes and loops** for what one caller executes: repositories, services,
  the domain event, the loops of the link checker, the backoff and the consumer.
  Their methods are proved against specification functions, and run alone they
  are shown to be paths through the state machines (`PublishEventIsRun`,
  `ProcessIsRun`, `RequestIsRun`, `FetchIsRun`, `StartIsRun`), so the theorems about the machines
  are theorems about them.

A call to the database ends as `Done`, `Rejected` (an error, nothing happened) or
`Unacknowledged` (an error, although it took effect). Version 5 UUIDs (section
5.5 of RFC 9562) and the content hash are taken to be injective only where a
lemma says so; that the *names* the UUIDs are computed from are injective is
proved, from decimal printing upwards.

| file | about |
|---|---|
| `Prelude.dfy`, `Decimal.dfy`, `Names.dfy`, `Urls.dfy` | shared types; `Itoa`/`Atoi`; ID names; URL normalisation |
| `OutboxTable.dfy`, `OutboxDomain.dfy` | the outbox rows, the repository's statements, the guarded domain event |
| `OutboxProtocol.dfy`, `OutboxSafety.dfy`, `OutboxRefinement.dfy` | any number of publishers and subscribers over the outbox; what holds in every run; how transactions and requests are paths of it |
| `OutboxBudget.dfy`, `OutboxFuture.dfy`, `OutboxDeliveries.dfy`, `OutboxLimits.dfy` | exactly when the retry budget breaks; what can still become of an event; counting messages; runs that break a guard |
| `PublisherService.dfy`, `Processor.dfy`, `Interleaving.dfy` | `PublishEvent` step by step; the fan-out over a list; why interleaving its workers changes nothing |
| `SinglePublisher.dfy`, `Backlog.dfy` | the guarantees of a single publisher process; how it works off a backlog tick by tick |
| `Allocation.dfy`, `StartAnalysis.dfy` | concurrent transactions that allocate versions and IDs; one of them as code |
| `AnalysisTable.dfy`, `AnalysisStore.dfy`, `AnalysisPipeline.dfy` | the analysis rows, repository and cache; readers, writers and subscribers at once |
| `SubscriberService.dfy`, `SubscriberRefinement.dfy`, `ApplicationService.dfy` | `ProcessAnalysisRequest` and `FetchAnalysis` as code, and as paths of the pipeline |
| `MessageQueue.dfy`, `Consumer.dfy` | requeueing; the consumer loop and the analysis worker |
| `LinkExtractor.dfy`, `LinkChecker.dfy`, `Backoff.dfy`, `EventStream.dfy`, `KeyCache.dfy` | link extraction, the semaphore, the backoff loop, the SSE goroutine, the key cache |

## What turned out not to hold

Each of these is stated with the exact condition under which the code does meet
the expectation, or with a run that breaks it.

* Several publisher processes can call `Publish` more often than `max_retries`
  allows, and as often as there are processes (`OutboxBudget.BudgetCanBreak`): with
  retries allowed, exactly when what was claimed had none left
  (`BudgetBreaksExactlyWhen`). A single process cannot.
* A failed `Publish` that left its message behind lets a row be claimed while its
  message is still live (`OutboxLimits.LeakedMessageOutlivesClaim`): exactly if the
  row is claimable already or a worker still owns the claim without having seen
  `Publish` succeed (`OutboxFuture.ClaimableAgainExactlyWhen`).
* The claim does not look at `next_retry_at`: a process that listed an event while it was
  pending can claim it before its backoff is over (`OutboxLimits.StaleListOvertakesBackoff`).
  A single process cannot (`SinglePublisher.ClaimsAwaitBackoff`).
* A row whose worker crashed, or whose failure could not be recorded, is stranded in
  processing for ever (`OutboxFuture.StrandedExactlyWhen`, `OutboxLimits.CrashStrands`).
* A fast subscriber can mark an event processed before it is marked published
  (`OutboxLimits.ConsumerOvertakesPublisher`), which the domain layer would refuse.
* When the channel closes under a subscriber that goes on working, a second one gets
  the message and both work on the event (`OutboxLimits.TwoConsumersAtWork`).
* Because the ID comes from the normalised URL while versions are counted per raw
  URL, a second spelling of a URL cannot be analysed
  (`StartAnalysis.OnlySpellingMatters`, `SecondSpellingLockedOut`).
* A request whose `MarkCompleted` fails leaves a stale view in the cache
  (`SubscriberService.OneStaleExit`; in general `StaleExactlyWhen`).
* A second delivery takes a finished analysis back to in progress
  (`AnalysisPipeline.RedeliveryGoesBack`).
* Copied results have the headings of whoever analysed the page first
  (`AnalysisPipeline.StoredMatchesPage`, `SubscriberRefinement.CopiedHeadingsCanDiffer`).
* The SSE goroutine blocks for good on its own channel if it ever prefers a tick
  to a waiting token (`EventStream.SelfBlockedExactlyWhen`), which two steps suffice
  for (`FirstTickBlocks`).
* `RefreshKey` is documented to force a refresh and does not while the cached key
  is valid (`KeyCache.RefreshAsksExactlyWhen`).
* With a multiplier that does not outweigh the jitter, or no greater than one,
  delays need not increase (`Backoff.IncreasesExactlyWhen`).
* An href that is skipped, such as `#top`, hides later links to the same URL
  (`LinkExtractor.FirstHrefDecides`).
* With a semaphore of size zero the link checks never end
  (`LinkChecker.NeverStuckExactlyWhen`).
* One pending row that does not decode keeps `FindPending` from finding anything, as
  long as fewer than ten others are not outranked by it
  (`OutboxTable.BadRowBlocksExactlyWhen`).
* Requeueing loses a message exactly if the broker accepted its replacement and put
  it nowhere (`MessageQueue.NoCopyExactlyWhen`).
* Normalising a URL is not idempotent if the default port is there twice
  (`Urls.NormalizedTwice`).

## Model

| member | source | states |
|---|---|---|
| OutboxSafety.AtMostOnePublish | internal/service/publisher_service.go:58-105 | in every run of any number of publishers with stale lists, crashes and failed marks, `Publish` succeeds at most once for an event; afterwards no attempt is made, the row is never claimable again and no worker is left that could publish it |
| OutboxSafety.RetryBudget | internal/service/publisher_service.go:107-139 | in every reachable state `retry_count` stays within `max_retries`, a row has at most one live owner, and the snapshot on which a failed publisher decides agrees with the row's retry fields |
| OutboxSafety.RecordedFailure | internal/service/publisher_service.go:107-139 | in every run a recorded failure, though decided on the snapshot, does what the row itself asks for: one retry more at the given time, or none; no other column and no other event changes |
| OutboxSafety.SettledForever | internal/adapters/repos/outbox_repository.go:149-188 | once a publish succeeded, attempts, retry count and `started_at` of the event never change again |
| OutboxSafety.LiveMessageFreezesRow | internal/service/publisher_service.go:71-90 | while a message is queued or held and no failed publish left one behind, its row exists, is processing or published and keeps its `started_at` for the rest of the run |
| OutboxSafety.GuardsHold | internal/domain/analysis.go:230-292 | the unguarded statements of the table meet the domain guards: always for MarkPublished and MarkCompleted, for MarkFailed exactly when the snapshot does, for MarkProcessed exactly when MarkPublished has taken effect |
| OutboxSafety.OneLiveCopy | internal/service/publisher_service.go:71-90 | without a leaked message, and as long as the broker has not queued the message again under a consumer that holds it, an event's message is in one place at most, so no two consumers work on the event at once |
| OutboxLimits.TwoConsumersAtWork | pkg/queue/channel.go:127-152 | a run without leaks in which the channel closes under a subscriber, the broker hands its message to a second one, and both work on the event |
| OutboxProtocol.InvKept | internal/adapters/repos/outbox_repository.go:149-360 | the ownership invariant over rows, publishers, messages and consumers is kept by every step of every actor |
| OutboxProtocol.LookupFindsOrigin | internal/adapters/repos/outbox_repository.go:398-421 | GetByAggregateID finds the very event whose message the subscriber holds |
| OutboxBudget.BudgetBreaksExactlyWhen | internal/service/publisher_service.go:59-72 | in every run a call of `Publish` exceeds max(1, max_retries) exactly if the claimed snapshot has no retries left, and, where none are allowed, records an earlier failure |
| OutboxBudget.OverBudgetExactlyWhen | internal/service/publisher_service.go:58-139 | an event is over its budget exactly if some earlier call of `Publish` was of that kind |
| OutboxBudget.AnyNumberOfAttempts | internal/service/publisher_service.go:58-139 | for every max_retries and every n, a run in which n workers with stale lists publish one event n times |
| OutboxBudget.BudgetCanBreak | internal/service/publisher_service.go:58-139 | so for every max_retries there is a run that exceeds it |
| OutboxFuture.ClaimableAgainExactlyWhen | internal/service/publisher_service.go:71-90 | while a message is live its row can become claimable, in some continuation, exactly if it is so now or a worker owns the claim and has not seen `Publish` succeed |
| OutboxFuture.StrandedExactlyWhen | internal/service/publisher_service.go:58-90 | a row in processing that was not published stays so in every continuation exactly if no live worker owns it |
| OutboxLimits.CrashStrands | internal/service/publisher_service.go:59-72 | a run in which a crash after the claim leaves such a row |
| OutboxLimits.LeakedMessageOutlivesClaim | internal/service/publisher_service.go:71-88 | a run in which a failed publish leaves a live message behind a claimable row |
| OutboxLimits.ConsumerOvertakesPublisher | internal/domain/analysis.go:246-258 | a run in which MarkProcessed is applied to a row that is still processing |
| OutboxTable.OutboxRepository.FindByCriteria | internal/adapters/repos/outbox_repository.go:112-146 | the conversion loop returns the answer's rows in order exactly if every one of them decodes |
| OutboxTable.OutboxRepository.FindPending | internal/adapters/repos/outbox_repository.go:86-94 | the pending rows of the answer: urgent before high before normal before low, the oldest of each first, no better row left out, at most the limit and all of them below it; or nothing if one does not decode |
| OutboxTable.OutboxRepository.FindRetryable | internal/adapters/repos/outbox_repository.go:97-110 | the failed rows with retries left whose time has come, earliest first, none left out that was due earlier, at most the limit and all of them below it |
| OutboxTable.BadRowBlocksExactlyWhen | internal/adapters/repos/outbox_repository.go:86-145 | an undecodable pending row is in every possible answer, and so spoils it, exactly if fewer than the limit of other pending rows are not outranked by it |
| OutboxTable.OutboxRepository.ClaimForProcessing | internal/adapters/repos/outbox_repository.go:149-188 | the row is claimed exactly if it is pending or failed and the transaction succeeds: status and started_at change, no other column and no other row |
| OutboxTable.OutboxRepository.MarkPublished | internal/adapters/repos/outbox_repository.go:191-227 | for each outcome every column of the row afterwards, and the rest of the table as it was; an unknown ID is an error |
| OutboxTable.OutboxRepository.MarkProcessed | internal/adapters/repos/outbox_repository.go:229-254 | likewise: processed_at is set and the status left alone |
| OutboxTable.OutboxRepository.MarkCompleted | internal/adapters/repos/outbox_repository.go:256-281 | likewise for completed_at |
| OutboxTable.OutboxRepository.MarkFailed | internal/adapters/repos/outbox_repository.go:283-321 | likewise for a failure with a retry: failed, one retry more, the error, and next_retry_at as given |
| OutboxTable.OutboxRepository.MarkPermanentlyFailed | internal/adapters/repos/outbox_repository.go:323-360 | likewise for a failure without one: next_retry_at is cleared and the count kept |
| OutboxDomain.OutboxEvent.MarkPublished | internal/domain/analysis.go:230-244 | succeeds exactly under its guard and then leaves every column as the statement on the table does, else changes nothing |
| OutboxDomain.OutboxEvent.MarkProcessed | internal/domain/analysis.go:246-259 | likewise, guarded by the published status |
| OutboxDomain.OutboxEvent.MarkCompleted | internal/domain/analysis.go:261-274 | likewise, guarded by processed_at |
| OutboxDomain.OutboxEvent.MarkFailed | internal/domain/analysis.go:276-292 | likewise, guarded by the retry limit |
| PublisherService.Service.PublishEvent | internal/service/publisher_service.go:58-105 | for every combination of outcomes: exactly the payload of the row found is sent, true is returned exactly if the claim, the broker and the mark succeeded, every column of the row afterwards, no other row touched |
| PublisherService.Service.HandlePublishFailure | internal/service/publisher_service.go:107-139 | the row after a failed publish, column by column: due at the time of the mark plus the backoff for the claimed retry count, or permanently failed at the limit |
| PublisherService.PublishEventIsRun | internal/service/publisher_service.go:58-139 | run alone, PublishEvent is a path of the protocol that ends in the same table, with the message queued and the attempt counted exactly if the claim went through |
| Processor.Processor.ProcessEvents | internal/adapters/outbox/processor.go:85-100 | for a list of distinct events, exactly the payloads the table had for them are sent, in the order of the list, each row ends as its own calls make it end, and no other row changes |
| Processor.BatchSends | internal/adapters/outbox/processor.go:85-100 | what one event of the list does to the table never changes what is sent for a later one |
| Processor.BatchPointwise | internal/adapters/outbox/processor.go:85-100 | after that, each row of the list is as it would be alone, every other row is untouched |
| Processor.BatchOrderIrrelevant | internal/adapters/outbox/processor.go:85-100 | swapping whole calls makes no difference to the table |
| Interleaving.InterleavingIrrelevant | internal/adapters/outbox/processor.go:85-100 | two runs in which every worker takes the same steps, interleaved in any way with each other, the clock, consumers and inserts, end with the same rows up to time stamps, and with the same rows if only workers step |
| Interleaving.TickIsBatch | internal/adapters/outbox/processor.go:85-100 | workers that go through PublishEvent side by side leave, in every such interleaving, the rows that the loop over their list leaves, up to time stamps |
| Interleaving.EachGoesItsOwnWay | internal/adapters/outbox/processor.go:85-100 | what becomes of a worker's event is what its own steps make of it, whatever the others do in between |
| Backlog.BacklogDrains | internal/adapters/outbox/processor.go:38-103 | in every run of the tick loop without new events, restarts and refused claims, n pending events are exactly max(0, n - 10k) at the tick after k others whose list did not fail, however the workers interleave |
| Backlog.NoOvertaking | internal/adapters/repos/outbox_repository.go:86-94 | in such a run no event listed in a later tick outranks one listed earlier by priority and age |
| Backlog.TakenArePublished | internal/adapters/outbox/processor.go:71-103 | if moreover every call succeeds, each event of the backlog is published or still pending at every tick |
| SinglePublisher.RefinesProtocol | internal/adapters/outbox/processor.go:38-137 | every step of the single process is a step of the protocol, or changes nothing in it |
| SinglePublisher.AttemptsBounded | internal/adapters/outbox/processor.go:44-137 | one process publishes an event at most max(1, max_retries) times, over restarts and failures |
| SinglePublisher.ClaimsAreDue | internal/adapters/repos/outbox_repository.go:97-110 | every claim is of a pending row or of one whose retry is due, at the moment of the claim |
| SinglePublisher.ClaimsAwaitBackoff | internal/service/publisher_service.go:125-139 | over all runs of one process, after a recorded failure no claim of the event comes before the next_retry_at recorded then, and none comes at all if no retries were left |
| OutboxLimits.StaleListOvertakesBackoff | internal/adapters/repos/outbox_repository.go:149-188 | with a second process that listed the event while it was pending, a run in which the row is claimed before that time |
| SinglePublisher.PermanentFailureOnlyWithoutRetries | internal/service/publisher_service.go:112-123 | the permanent branch is taken exactly if no retries were allowed at all |
| Allocation.VersionsGapFree | internal/adapters/repos/analysis_repository.go:315-330 | in every interleaving of transactions, the committed versions of a raw URL are exactly 1 to n |
| Allocation.OneSpelling | internal/adapters/repos/analysis_repository.go:129-181 | rows with one normal form all have one raw URL |
| Allocation.InsertSucceedsIff | migrations/20250927205110_create_analysis_table.up.sql:8-40 | both unique keys admit a transaction's row exactly if its version is still the next and no other spelling has rows |
| Allocation.RowsAndEventsPaired | internal/service/application_service.go:61-106 | every committed row has exactly one event under its ID, pending and untried, of the one event type and normal priority, with the limit of retries and a payload of the same ID, URL, options and time; no event lacks its row |
| Allocation.RowsWereRequested | internal/service/application_service.go:61-106 | every committed row, and so its event, carries the URL and the options of one request made earlier in the run |
| Allocation.EventInsertNeverClashes | internal/adapters/repos/outbox_repository.go:53-83 | the event's derived primary key is always free |
| OutboxRefinement.CommitIsInsert | internal/service/application_service.go:61-107 | the commit of any transaction, in any interleaving, is an insert of the outbox protocol: the ID and the aggregate are new in every protocol state with the same events |
| StartAnalysis.Service.Run | internal/service/application_service.go:61-120 | both inserts or neither, the cache filled only after an acknowledged commit, and the row, the queued event and the cached view all carry what the caller asked for, for every combination of failing calls |
| StartAnalysis.StartIsRun | internal/service/application_service.go:61-107 | run alone, a committing StartAnalysis is five steps of the allocation machine |
| StartAnalysis.OnlySpellingMatters | internal/adapters/repos/analysis_repository.go:135-145 | with no rival and no failing call, a request commits exactly if its URL's normal form has rows under the same spelling only |
| StartAnalysis.SecondSpellingLockedOut | internal/domain/value_objects.go:28-44 | a run after which no request for the same address with explicit port, slash and fragment commits |
| Names.AnalysisNameInjective | internal/adapters/repos/analysis_repository.go:145 | distinct pairs of normal form and version have distinct names |
| Names.EventNameInjective | internal/adapters/repos/outbox_repository.go:54-60 | distinct triples of aggregate, type and time have distinct names, for aggregate IDs without colons |
| Decimal.AtoiPrint | pkg/queue/message.go:98-150 | Atoi reads back what Itoa prints, exactly within the range of an int |
| Decimal.PrintInjective | internal/adapters/repos/analysis_repository.go:145 | numbers that print alike are equal |
| Urls.NormalizedUrl.constructor | internal/domain/value_objects.go:21-47 | the rewriting in place, cut at the last colon, yields the normal form |
| Urls.NormalForm | internal/domain/value_objects.go:28-46 | part by part: lower-cased scheme, https if there is none, the host without the default port of its scheme and only that, no bare slash, no fragment, user and query as they were |
| Urls.NormalizedTwice | internal/domain/value_objects.go:28-46 | normalising again changes nothing exactly if the scheme has no default port or the host does not end in it twice |
| Urls.SpellingsAgree | internal/domain/value_objects.go:28-46 | an explicit default port, a bare slash and a fragment do not change the normal form |
| AnalysisPipeline.CachedWasReal | internal/service/application_service.go:122-138 | under any interleaving of readers, writers and invalidations, a cached value is the view of a state the row was in |
| AnalysisPipeline.ReturnedWasReal | internal/service/application_service.go:122-138 | and so is every value FetchAnalysis returns |
| AnalysisPipeline.ContentWasAnalyzed | internal/service/subscriber_service.go:197-281 | every field of the content of a row is what one full analysis of the run found in its page under its options, through any chain of copies |
| AnalysisPipeline.StoredMatchesPage | internal/service/subscriber_service.go:120-153 | without collisions, what is stored for a page describes a page of the same HTML and has the version, title and size of a fresh analysis, and its headings exactly if the options for them agree or there are none |
| AnalysisPipeline.StatusMovesForward | internal/service/subscriber_service.go:82-118 | while a row's message has been delivered once at most, its status never goes back and a final one stays |
| AnalysisPipeline.RedeliveryGoesBack | internal/service/subscriber_service.go:82-88 | from any reachable state one more delivery takes a final status back |
| OutboxDeliveries.MessagesConserved | pkg/queue/queue.go:225-258 | copies waiting and copies delivered are always the copies published and the copies handed back |
| OutboxDeliveries.DeliveriesBounded | internal/service/publisher_service.go:71-90 | a message is delivered no more often than it was published, leaked or handed back; without leaks and returned messages at most once |
| AnalysisStore.AnalysisRepository.FindByContentHash | internal/adapters/repos/analysis_repository.go:62-82 | finds a completed row with that hash exactly if there is one, and none that was completed earlier than another |
| AnalysisStore.AnalysisRepository.Update | internal/adapters/repos/analysis_repository.go:183-202 | for each outcome every column of the row afterwards: content, status, completed_at and lock version change, no other; an unknown ID is no error |
| AnalysisStore.AnalysisRepository.UpdateStatus | internal/adapters/repos/analysis_repository.go:204-214 | for each outcome every column of the row afterwards: status and lock version change, no other; an unknown ID is no error |
| AnalysisStore.AnalysisRepository.UpdateCompletionDuration | internal/adapters/repos/analysis_repository.go:216-227 | for each outcome every column of the row afterwards: duration, completed_at and lock version change, no other; an unknown ID is no error |
| AnalysisStore.AnalysisRepository.MarkFailed | internal/adapters/repos/analysis_repository.go:291-305 | for each outcome every column of the row afterwards: status, error, completed_at and lock version change, no other; an unknown ID is no error |
| SubscriberService.Service.ProcessAnalysisRequest | internal/service/subscriber_service.go:56-195 | table, cache, outbox and result for every combination of outcomes of its calls |
| SubscriberService.Service.CopyAnalysisResults | internal/service/subscriber_service.go:206-231 | the source's size and results under the fetched hash, then the cache filled if all goes well |
| SubscriberService.Service.PerformFullAnalysis | internal/service/subscriber_service.go:233-281 | each stored field is the page's own value: version, title, internal and external links, headings, forms and inaccessible links under their options; then the cache filled if all goes well |
| SubscriberService.StaleExactlyWhen | internal/service/subscriber_service.go:90-184 | with succeeding deletes the cache is stale on exit exactly under a condition on the calls and the row, on first and on repeated deliveries |
| SubscriberService.OneStaleExit | internal/service/subscriber_service.go:163-184 | if errors have no effect, the one stale exit is MarkCompleted failing after the cache was filled and the duration written |
| SubscriberService.SuccessMeans | internal/service/subscriber_service.go:171-194 | success exactly if every needed call succeeded; then every column of the row and of its event is known: completed under the returned hash, with the duration and the times of the statements |
| SubscriberService.ResultMeans | internal/service/subscriber_service.go:65-194 | the result is the error code of the first call that failed, for all calls, or success under the hash of the page |
| SubscriberService.FetchFailureMeans | internal/service/subscriber_service.go:97-118 | if the page cannot be fetched, the row keeps its content and says why and when, and leaves the cache if a delete succeeded |
| OutboxDeliveries.CompletedAfterProcessed | internal/service/subscriber_service.go:74-171 | in every run an event is marked completed only when it was marked processed, and not earlier |
| SubscriberService.ContentMeans | internal/service/subscriber_service.go:120-159 | copied from another completed row with the fetched hash if there is one; if there is none, every field is what the analysis finds in the page |
| SubscriberService.StatusAtExit | internal/service/subscriber_service.go:82-159 | which status a request leaves, for every combination of outcomes |
| SubscriberService.OnlyItsOwn | internal/service/subscriber_service.go:56-195 | no row, view or event but the request's own is touched |
| SubscriberRefinement.ProcessIsRun | internal/service/subscriber_service.go:56-195 | run alone, a request is a path of the pipeline to the same table and cache |
| OutboxRefinement.RequestIsRun | internal/service/subscriber_service.go:65-177 | run alone, a request is a consumer's path of the outbox protocol to the same outbox table, up to its acknowledgement |
| SubscriberRefinement.CopiedHeadingsCanDiffer | internal/service/subscriber_service.go:132-133 | a run after which a request that asks for headings stores none although the page has some |
| ApplicationService.Service.FetchAnalysis | internal/service/application_service.go:122-138 | a cached view is returned and the cache left alone; else the fields of the row are returned and cached, for every combination of outcomes and with every other ID untouched |
| ApplicationService.FetchKeepsCoherent | internal/service/application_service.go:122-138 | a fetch alone keeps the cache coherent, returns the current row, fills the cache with it after a miss, and fails exactly if neither lookup succeeds |
| ApplicationService.FetchIsRun | internal/service/application_service.go:122-138 | and is one reader's path through the pipeline |
| MessageQueue.MsgController.Requeue | pkg/queue/message.go:128-163 | queue, settlement and each of the errors for every outcome; a message is lost only if the broker accepted its replacement and dropped it |
| MessageQueue.HopsCount | pkg/queue/message.go:86-104 | over a chain of requeues the header reads one more each time and the body stays the same |
| MessageQueue.ChainLength | pkg/queue/message.go:128-163 | from a count c a message can be requeued exactly max(0, 11 - c) times, eleven times without a header |
| MessageQueue.UnreadableCounterStops | pkg/queue/message.go:93-101 | a header that is no number stops the chain at once |
| MessageQueue.NoCopyExactlyWhen | pkg/queue/message.go:142-160 | over any chain of attempts no copy is left exactly if one of them had the replacement accepted and dropped and the original acknowledged |
| MessageQueue.SomeCopyLives | pkg/queue/message.go:142-160 | so a copy is left if the broker never drops what it accepted |
| Consumer.AnalysisWorker.ProcessMessage | internal/adapters/queue/analysis_worker.go:32-62 | one settling call: reject if the payload does not decode, else acknowledge whatever the result; the requeue branch is dead |
| Consumer.AnalysisWorker.StartConsumer | pkg/queue/queue.go:225-258 | every delivery gets exactly one call: a nack if it cannot be unmarshalled, an ack if it is a request, a reject if not; and the tables end as the requests leave them in order |
| Consumer.OthersUntouched | pkg/queue/queue.go:225-258 | a row that no message asks for is as it was |
| LinkExtractor.ExtractLinks | internal/adapters/html_analyzer.go:231-281 | the loop collects, in order, the hrefs that are first to lead to their URL and are not skipped |
| LinkExtractor.FirstHrefDecides | internal/adapters/html_analyzer.go:249-273 | whether a URL is reported, and whether as internal or external, is decided by the first href that leads to it alone |
| LinkExtractor.SortLinks | internal/adapters/html_analyzer.go:75-83 | external links in order, and counts that add up |
| LinkExtractor.ExternalsInOrder | internal/adapters/html_analyzer.go:75-83 | all external links and no others, in the order of the page |
| LinkExtractor.FilterOnlyParses | internal/adapters/link_checker.go:107-132 | of an analysed page the checker's filter removes exactly the URLs that do not parse |
| LinkChecker.FilterExternalLinks | internal/adapters/link_checker.go:107-132 | the loop keeps, in order, the first external link of each URL that parses |
| LinkChecker.KeepsOrder | internal/adapters/link_checker.go:107-132 | the kept links are a subsequence of the input |
| LinkChecker.FilterIsExact | internal/adapters/link_checker.go:107-132 | no URL twice, nothing internal or unparseable, and every other external URL once |
| LinkChecker.LinksToCheck | internal/adapters/link_checker.go:76-89 | a prefix of these, of at most the configured length |
| LinkChecker.ChecksAreBounded | internal/adapters/link_checker.go:134-157 | in every interleaving at most the configured number of checks is in flight, no link is checked twice, and a run has at most four steps a link |
| LinkChecker.ResultIsExact | internal/adapters/link_checker.go:134-157 | when all goroutines are done every link has been checked, and a link is in the result exactly if its circuit was open, it could not be reached or it answered 400 or more, with the code and text that go with it |
| LinkChecker.NeverStuckExactlyWhen | internal/adapters/link_checker.go:138-154 | no interleaving gets stuck before the end exactly if the semaphore has room or there are no links |
| Backoff.Backoff | internal/shared/backoff/backoff.go:33-54 | the loop computes the floor of the specified delay, for every configuration |
| Backoff.LoopIsPower | internal/shared/backoff/backoff.go:38-46 | leaving the loop early does not matter: capped, its value is the capped power of the multiplier |
| Backoff.NominalMonotone | internal/shared/backoff/backoff.go:38-46 | before jitter, delays do not decrease with the retries |
| Backoff.DelayInRange | internal/shared/backoff/backoff.go:48-53 | between zero and the cap plus jitter, and within the jitter of its own nominal value |
| Backoff.IncreasesExactlyWhen | internal/shared/backoff/backoff.go:38-53 | below the cap, delays increase for every pair of draws exactly if the multiplier exceeds one and outweighs the jitter |
| Backoff.FirstIncreaseExactlyWhen | internal/shared/backoff/backoff.go:34-53 | the step from the first, unjittered delay has its own exact condition |
| EventStream.HeartbeatsThenOneEvent | internal/service/application_service.go:140-192 | a client sees heartbeats, then at most one event, completed for a completed analysis and failed for a failed one, then the stream is closed; there is never more than one token |
| EventStream.PollDecides | internal/service/application_service.go:172-230 | a poll sends nothing; one that finds the analysis requested or in progress keeps the stream open, a finished one is announced, an error closes it |
| EventStream.ToldIsPolled | internal/service/application_service.go:172-190 | in every run what the client is told last is a view that a poll was answered with |
| EventStream.ClosedExactlyWhen | internal/service/application_service.go:158-190 | in every run the stream is closed exactly if the client's leaving was noticed, a poll failed or the last event was sent |
| EventStream.ClosedForGood | internal/service/application_service.go:144-190 | a closed stream sends nothing more |
| EventStream.SelfBlockedExactlyWhen | internal/service/application_service.go:168-170 | the goroutine is blocked on its own channel exactly if a tick was chosen while a token was waiting |
| EventStream.SelfBlockedForGood | internal/service/application_service.go:168-170 | and stays so, whatever the client does |
| EventStream.FirstTickBlocks | internal/service/application_service.go:156-170 | a run of two steps that ends there |
| EventStream.FirstTickIsFinal | internal/service/application_service.go:156-170 | after these two steps nothing is ever sent and the stream is never closed |
| EventStream.StuckExactlyWhen | internal/service/application_service.go:158-189 | besides that it is stuck only when closed, or behind ten events nobody reads |
| KeyCache.PasetoKeyService.GetPublicKey | internal/infrastructure/paseto_key_service.go:45-66 | key, cache and Vault calls for every configuration, answer and time |
| KeyCache.PasetoKeyService.LoadKeyFromVault | internal/infrastructure/paseto_key_service.go:78-151 | under the lock: a valid key is given again; else Vault is asked, and a key that parses is kept for its time to live, or the fallback given and the cache left alone |
| KeyCache.RefreshAsksExactlyWhen | internal/infrastructure/paseto_key_service.go:69-88 | in every run a refresh asks Vault exactly if no key was ever stored or the newest has outlived its time; otherwise it yields that key and changes nothing |
| KeyCache.StoresAreApart | internal/infrastructure/paseto_key_service.go:53-88 | however callers interleave, keys are stored at least a time to live apart |
| KeyCache.StoredCameFromVault | internal/infrastructure/paseto_key_service.go:94-151 | in every run each stored key was read from a non-empty answer of Vault, at the time it is kept from |
| KeyCache.GivenKeyIsCurrent | internal/infrastructure/paseto_key_service.go:45-151 | a key handed out is the fallback, or the newest that Vault gave and not yet expired or just read |
| KeyCache.FallbackExactlyWhen | internal/infrastructure/paseto_key_service.go:94-138 | provided Vault never gave the fallback key itself, the fallback is used exactly if Vault is off or was asked and did not deliver, and it is never cached |

## Left out

- PostgreSQL, RabbitMQ, Redis, Vault, the HTTP client, the HTML parser and the circuit breaker: only the atomic step or the answer each of them gives is modelled.
- JSON codecs, SHA-256 and UUIDs: encoding is assumed to be undone by decoding where a lemma needs it, hash and UUID are injective functions where a lemma needs it.
- HTTP handlers, middleware, token parsing, mappers, decorators, logging, metrics and tracing: they hold no state of the pipeline.
- `AnalysisRepository.Save`, `CopyResults` and `Delete`: no service calls them, and `Delete` would break the gap-free versions.
- `Analysis.CheckVersion` and the optimistic lock: nothing in the pipeline compares lock versions.
- Exchange and queue topology, reconnecting channels (but for the messages a closed one brings back), the configuration loader and the health checks.
- HTML version, title, headings and forms are functions of the page: their content is in library code.
- Processor.Processor.ProcessEvents: a loop in place of goroutines; that the goroutines leave the same rows is Interleaving.TickIsBatch, on values.
- Processor.BatchPointwise: of whole calls, as is BatchOrderIrrelevant; for interleaved steps see Interleaving.TickIsBatch.
- Integer width of versions, durations and retry counts: only the range check of `Atoi` is modelled.
- A negative `MaxConcurrentChecks` or `MaxLinksToCheck`, which panics.
- The 500 ms pause before the last event of a stream, and the pace of its tickers: any order of events is allowed.
- Urls.SpellingsAgree: lower-casing is that of ASCII letters, and URLs are taken after parsing.
- Backoff.Backoff: real numbers instead of rounded float64 values.
- AnalysisPipeline.StatusMovesForward: says nothing once a message has been delivered twice; RedeliveryGoesBack shows why, and OutboxDeliveries.DeliveriesBounded when that cannot happen.
- AnalysisPipeline.StoredMatchesPage: links and forms of copied results are not compared, they depend on the URL and on the link checks of the original request.
- OutboxSafety.OneLiveCopy: excludes events of which a failed publish left a message behind, and messages queued again while held; TwoConsumersAtWork shows why.
- Interleaving.InterleavingIrrelevant: no worker is started or killed within the stretch that is compared, and time stamps are compared only while the clock stands still.
- Consumer.AnalysisWorker.StartConsumer: the answers of the database are a function of the tables; several consumers at once are in `OutboxProtocol` and `AnalysisPipeline`.
- StartAnalysis.Service.Run: writes both tables at its commit, so that a rollback is to do nothing.
