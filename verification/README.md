# Lead scoring: what its shared-state protocols and its arithmetic guarantee

A Dafny model of the lead-scoring service and proofs about it. The service creates leads behind
idempotency keys, hands embedding and scoring work to workers through a Redis list and a Postgres table,
reads through three Redis caches, embeds text locally, scores leads, and limits request rates.

| files | what they model |
|---|---|
| `Redis`, `Idempotency`, `CreateLeadProtocol`, `CreateLeadBinding`, `CreateLeadRelease`, `CreateLeadReplay`, `CreateLeadTiming`, `CreateLeadHandler` | the idempotency store as it changes its three keys, the handlers as a state machine over its scripts, what a bound key holds off and a finished request leaves, whose response they replay, the timing they need, and the handler itself |
| `Jobs`, `WorkerProtocol`, `WorkerInvariant`, `WorkerOutcomes`, `WorkerResults`, `WorkerAnnouncements` | the job store, the worker's loop, and any number of enqueuers and workers with faults: who holds what, how jobs end, and what is announced |
| `CacheKeys`, `LeadTables`, `LeadService`, `LeadLaws` | the cached names, the tables with the service over them, the cached service, one call at a time, and what its calls do for each other |
| `EmbeddingMemo`, `CacheStaleness` | the stored embeddings, and the caches under concurrency |
| `Text`, `Vectors`, `Embedder`, `VectorText`, `Leads` | words, integer vectors, the local embedder, vectors as text, and the text a lead is embedded as |
| `Scoring`, `ScoreInNumbers`, `ScoringPipeline` | the scorers, what a score is in numbers, and what the service stores with them |
| `RateLimit`, `Sequences` | the fixed-window limiter, and a lemma about rearrangements |

Code that changes state is a class or a method with a loop, proved against a function of the old state;
the functions are what the lemmas are about. A concurrent system is a total function `Step` from a state
and an action to a state, in which every Lua script, Redis command and SQL statement is one step and an
action that is not enabled does nothing. A statement about all sequences of actions is then one about all
interleavings of any number of handlers, calls or workers.

`dafny verify dfyconfig.toml` checks everything.

## Findings

- A key can be replayed to a different body. `internal/lead/controller/http.go:118-120` answers 409 to a
  key used again with another body, but the binding lapses one result TTL after Begin and the response one
  result TTL after Complete. In between the begin script sees no binding and offers the stored response to
  any body. And the response is read by a second command: when it has lapsed by then, a request whose body
  did match is answered with whatever was stored since, for another body too. `ReplayAcrossBodiesIff` gives
  the exact condition for both; `LapsedBindingReplays` with `LapsedBindingIsReachable`, and
  `LateReadCrossesBodies`, show that they are reached.
- One lead per key depends on time and on the database. `OneLeadPerKeyIff` gives the exact condition: every lead
  is inserted under a live lock, its handler learns that it was, and its Complete takes effect before the lock
  lapses. For runs that all complete or abort in time that is just the second part (`GrantsInTimeGiveOneLead`).
  The handler checks none of it, and it reports success when Complete fails. `LateInsertDuplicates`,
  `LostCompleteDuplicates` and `LostAnswerDuplicates` are runs that end with two leads.
- The caches need not show a client its own finished update. After the update's Set a client sees it from then
  on exactly when no call that read the key before is still about to store it (`UpdateIsSeenIff`, and `SeenIff`
  for every key and state). `StalenessIsBounded` says how old an answer can get, and three lemmas that it does.
- Half of the local embedder's similarity range is never used: index and sign come from the same hash and
  1536 is even, so no two texts have a negative similarity.
- The limiter's counts do not depend on EXPIRE succeeding; a failed one only leaves a counter behind.

## Assumptions

- A value set with a TTL at time t is live in [t, t + TTL); times are milliseconds on one clock.
- Operation tokens are distinct; a handler is named by its token.
- In the service taken one call at a time an INSERT or UPDATE that reports an error has changed nothing.
- SHA-256 digests all have one length, which keeps storage keys of one slot together; the embedding memo
  needs nothing more of the hash. FNV is any function.
- The cache key of a score is hashed from content; that different content gives different hashes is not
  used either, since a lead's content never changes.
- A PUBLISH reaches the channel at most once; an LPUSH may be lost or doubled.
- An exact search and an exact cosine are hypotheses of the lemmas that need them; `NearestIsExact` shows that
  there is such a search.
- Postgres hands out lower-case UUIDs, each once, and creation times that increase.

## Model

| member | source | states |
|---|---|---|
| `Idempotency.Defaults` | internal/platform/idempotency/store.go:13-17 | The lock TTL is positive and no longer than the result TTL, which is all the proofs below need of the two constants. |
| `Idempotency.KeysAreApart` | internal/platform/idempotency/store.go:53-58 | The three Redis keys of one storage key, and those of different storage keys, never coincide. |
| `Idempotency.LockAndBind` | internal/platform/idempotency/store.go:136-142 | Granting the lock writes the lock and the binding of this storage key and leaves every other storage key's three keys alone. |
| `Idempotency.StoreAndRelease` | internal/platform/idempotency/store.go:150-152 | Storing the response replaces the lock by it and leaves every other storage key alone. |
| `Idempotency.Store.Begin` | internal/platform/idempotency/store.go:48-84 | Answers conflict if and only if a live binding holds another hash; else replays, or reports an error when a second read finds nothing, if and only if a response is live; else proceeds if and only if no lock is live, having written lock and binding with their TTLs; otherwise in progress. Only a grant changes the key, and no other storage key changes; without a key it proceeds and touches nothing. |
| `Idempotency.Store.StorageKeysDiffer` | internal/platform/idempotency/store.go:53-58 | Idempotency keys with different digests have different storage keys. |
| `Idempotency.Store.Complete` | internal/platform/idempotency/store.go:86-104 | Is `CompleteScript`: takes effect exactly when the token still holds a live lock; no key or no token means no effect; other keys unchanged. |
| `Idempotency.Store.Abort` | internal/platform/idempotency/store.go:106-113 | Is `AbortScript`, with the same guard. |
| `CreateLeadBinding.BeginIff` | internal/platform/idempotency/store.go:126-142 | A request that begins is granted the lock if and only if no binding to another body, no response and no lock is live, and reads if and only if a response is live and no such binding; unless granted it changes nothing. |
| `CreateLeadBinding.RetryIsReplayed` | internal/lead/controller/http.go:111-117 | From any state: a retry with the bound body, or after the binding lapsed, is answered 201 with the stored lead and changes nothing. |
| `CreateLeadBinding.BoundKeyRefusesOthers` | internal/platform/idempotency/store.go:127-130 | After a grant, in every continuation and for a whole result TTL, the binding carries the granted body; a run with another body that had not begun by then has been granted and has read nothing, and whatever it does next changes no key and inserts no lead. |
| `CreateLeadRelease.IdleKeyIsGrantedIff` | internal/platform/idempotency/store.go:144-160 | In every run in which no answer, Complete or Abort is lost: when no request is at work on the key, a newcomer is granted the lock if and only if no response is stored and the key is not bound to another body. No finished request leaves a lock. |
| `CreateLeadRelease.RejectedIsRetried` | internal/lead/controller/http.go:127-139 | From any state: when the service refuses the lead, the abort frees the key and a retry with the same body is granted at once. |
| `CreateLeadRelease.LostAnswerLocksUntil` | internal/platform/idempotency/store.go:136-142 | When the begin script's answer is lost, nobody is at work and the key stays locked for exactly the lock TTL. |
| `CreateLeadProtocol.StepKeepsInv` | internal/platform/idempotency/store.go:126-160 | Every step of every handler, late, lost or undelivered, keeps: the lock and the binding were written together for the holder's request hash; a live response belongs to the last author, for the bound hash, and outlives the binding by less than one lock TTL; a live lock excludes a live response. |
| `CreateLeadProtocol.ReachableSlots` | internal/platform/idempotency/store.go:126-160 | The expiry invariant in every reachable state, in terms of the three keys alone. |
| `CreateLeadProtocol.LiveResponseIsFinal` | internal/platform/idempotency/store.go:126-153 | From any such state, whatever happens until a stored response lapses, nothing overwrites, deletes or extends it. |
| `CreateLeadProtocol.LapsedRunIsHarmless` | internal/platform/idempotency/store.go:126-160 | A run that has begun and does not hold the lock never gets it back: after any further steps its Complete and its Abort change no key. |
| `CreateLeadProtocol.OfferAcrossBodiesIff` | internal/platform/idempotency/store.go:126-134 | In every reachable state the begin script offers a request the response of a request with a different body if and only if the binding has lapsed while that response has not. |
| `CreateLeadReplay.ReplayAcrossBodiesIff` | internal/platform/idempotency/store.go:71-76 | Over every run to a Begin that is offered a response, and every run from there to the read: the 201 carries the response of a request with a different body if and only if the binding had lapsed at Begin and was last written for another body (when the offered response is still live at the read), or a later run has bound the key to another body and stored its response (when it is not). A 201 is always the last author's response, and the offered one while that is live. |
| `CreateLeadReplay.LateReadCrossesBodies` | internal/platform/idempotency/store.go:71-76 | The second case is reached with a live, matching binding at Begin: the response lapses before it is read, a request with another body is served, and its lead is what the read answers. |
| `CreateLeadProtocol.LapsedBindingReplays` | internal/lead/controller/http.go:111-117 | In that window any body is answered 201 with the stored lead. |
| `CreateLeadProtocol.LapsedBindingIsReachable` | internal/platform/idempotency/store.go:136-152 | The window is reached by every Complete that follows its Begin by a positive delay shorter than the lock TTL. |
| `CreateLeadProtocol.OneLeadPerKey` | internal/lead/controller/http.go:104-162 | In every timely interleaving of any number of handlers (leads are inserted under a live lock, the handler learns of it, and their Complete takes effect before the lock lapses): no second lead is created for the key until the stored response of the first lapses, every 201 carries a lead created for the key, and every 201 within a lead's span carries that lead. |
| `CreateLeadTiming.GrantsInTimeGiveOneLead` | internal/lead/controller/http.go:104-162 | If every run that got Proceed makes its Complete or Abort take effect before its lock lapses, the interleaving is timely, with one lead per span, if and only if no handler is told that an INSERT failed which committed. |
| `CreateLeadTiming.OneLeadPerKeyIff` | internal/lead/controller/http.go:104-162 | The timing is exactly what is needed: after a run, no newcomer, however long it waits, adds a second lead to a span if and only if the run was timely and every lead it inserted has its response stored. |
| `CreateLeadTiming.UntimelyRunAbandons` | internal/platform/idempotency/store.go:136-160 | The first untimely step (an insert that is late or committed unseen, a lock that lapses before its Complete, a lost Complete) leaves a lead that no stored response will ever cover, whatever happens next. |
| `CreateLeadTiming.OpenSpanIsDoubled` | internal/platform/idempotency/store.go:126-142 | A newcomer that comes when nothing is left in Redis then inserts a second lead beside it. |
| `CreateLeadProtocol.LateInsertDuplicates` | internal/lead/controller/http.go:127-162 | Without the timing hypothesis it fails, whatever the TTLs: a lead inserted after its lock lapsed joins a second one. |
| `CreateLeadProtocol.LostCompleteDuplicates` | internal/lead/controller/http.go:156-162 | It also fails when Complete never reaches Redis: the client got its 201, and a retry after the lock TTL creates a second lead. |
| `CreateLeadProtocol.LostAnswerDuplicates` | internal/lead/controller/http.go:127-139 | Nor with every step in time when an INSERT commits and the handler is told that it failed: it aborts, the lock is free, and the retry creates a second lead at once. |
| `CreateLeadProtocol.StepKeepsSpacing` | internal/platform/idempotency/store.go:136-160 | Grants that no abort undid lie a lock TTL apart, kept by every step. |
| `CreateLeadProtocol.ProceedBound` | internal/platform/idempotency/store.go:13-17 | Over any stretch of any run, grants of the lock number at most 1 + effective aborts + floor(elapsed / lock TTL). |
| `CreateLeadProtocol.GapsFitTheTime` | internal/platform/idempotency/store.go:136-160 | A grant that was completed keeps the next one away for a whole result TTL, one that lapsed for a lock TTL: over any stretch of any run these gaps fit into the time that passed and what is left of the last one. |
| `CreateLeadHandler.UninterruptedCallIsARun` | internal/lead/controller/http.go:104-163 | One call taken without interruption is a run of the protocol's steps, and its slot, answer and inserted leads are those of `CallResult`. |
| `CreateLeadHandler.Handler.CreateLead` | internal/lead/controller/http.go:104-163 | The handler over the store has exactly the effect `CallResult` describes, by the verdict of its Begin and what the service did (made a lead, made none, or made one and reported an error); however it ends it leaves no lock of its own, and the keys of every other storage key alone; without a key it creates unconditionally and leaves Redis alone. |
| `Jobs.Store.Enqueue` | internal/platform/jobs/store.go:57-100 | Inserts the row as queued, then pushes and announces it as far as Redis takes either; only a refused row is an error. |
| `Jobs.Store.ClaimNext` | internal/platform/jobs/store.go:133-185 | Takes the oldest id off the list in every case; hands it out if and only if its row is still queued and the statement's answer arrives, having set the row running and announced that as far as Redis is reachable; a lost BRPOP or statement is an error, and the row may be running already. |
| `Jobs.Store.Complete` | internal/platform/jobs/store.go:187-211 | Sets the row completed with no guard on the status it replaces and adds the announcement of completed to the log whenever the statement is answered and Redis reachable; an error for a failed statement, an unknown id, or a failed announcement, though the row may be completed. |
| `Jobs.Store.Fail` | internal/platform/jobs/store.go:213-237 | Likewise with failed. |
| `Jobs.Work` | cmd/worker/main.go:65-121 | The worker's loop, for any rounds with any faults of the store, is that many iterations of claim, work by type, complete or fail; a failed Complete is not answered with Fail. |
| `WorkerInvariant.HandOnKeepsOwned` | cmd/worker/main.go:73-120 | A worker may drop its job or pass it to its own next stage without breaking ownership. |
| `WorkerInvariant.TakeKeepsOwnership` | internal/platform/jobs/store.go:149-154 | The guarded claim gives a row to at most one worker, whatever duplicates the list holds. |
| `WorkerInvariant.FinishKeepsOwnership` | internal/platform/jobs/store.go:193-198 | The unguarded update is safe because a running row in hand is in one worker's hands only. |
| `WorkerInvariant.WorkerKeepsConserved` | internal/platform/jobs/store.go:138-177 | A worker's step that balances its own share of the copies and running rows keeps the whole balance. |
| `WorkerInvariant.PushKeepsConserved` | internal/platform/jobs/store.go:89-97 | Lost and doubled pushes are balanced by the ledger of faults. |
| `WorkerInvariant.AnnouncementKeepsCausality` | internal/platform/jobs/store.go:200-236 | A worker announces only what its row says and nobody has said before. |
| `WorkerInvariant.StepKeepsInv` | internal/platform/jobs/store.go:133-237 | Every step of any enqueuer or worker, faulty or not, keeps ownership, conservation, list order and causality. |
| `WorkerOutcomes.ResultsAreSuccesses` | cmd/worker/main.go:91-119 | A job has a result from the moment its work succeeds, and from nothing else. |
| `WorkerOutcomes.StepKeepsOutcomes` | cmd/worker/main.go:91-119 | Every step keeps: a worker about to finish a job will complete it if its work succeeded and fail it otherwise; a completed row has a result and a failed one has none. |
| `WorkerResults.RowsEndAsTheirWork` | cmd/worker/main.go:91-119 | For any interleaving and any faults, embed or score job: a row is completed only if its work succeeded and failed only if it did not. |
| `WorkerResults.JobsFollowOnePath` | internal/platform/jobs/store.go:149-219 | For any number of workers, any interleaving and any faults: each row's statuses are a prefix of queued, running and one end, and no job is handed out twice. |
| `WorkerResults.EndsAreFinal` | internal/platform/jobs/store.go:193-219 | A completed or failed row never changes again. |
| `WorkerResults.FailAfterCompleteLeavesThePath` | cmd/worker/main.go:99-115 | Why the worker must not answer a failed Complete with Fail: the update may have been applied, and the row would leave completed. |
| `WorkerResults.FailAfterCompleteIsReached` | cmd/worker/main.go:91-103 | A run of six steps from the start gets there. |
| `WorkerResults.WorkIsConserved` | internal/platform/jobs/store.go:63-177 | Without faults each queued row's id is in exactly one place between INSERT and claim, and the running rows are exactly those in a worker's hands. |
| `WorkerResults.FaultsAccountForTheRest` | internal/platform/jobs/store.go:89-177 | With faults, missing copies, surplus copies and running rows in nobody's hands match recorded faults one to one. |
| `WorkerResults.AnnouncementsAreCausal` | internal/platform/jobs/store.go:178-236 | Per job each status is announced at most once and no end before running; an end is announced only when the row has it, completed only when the work succeeded and failed only when it did not; nothing is said about when queued appears. |
| `WorkerResults.EndsAreAnnouncedAfterRunning` | internal/platform/jobs/store.go:178-236 | When no announcement of running is lost, every announced end has its announcement of running before it. |
| `WorkerResults.QueueIsFifo` | internal/platform/jobs/store.go:90-138 | Ids are popped in the order they were pushed. |
| `WorkerResults.WorkerStepMakesProgress` | cmd/worker/main.go:65-121 | Every worker step that does anything lowers the measure over list and program counters. |
| `WorkerResults.DrainIsBounded` | cmd/worker/main.go:65-121 | So under any schedule, and with faults, the workers take a bounded number of steps that do anything. |
| `WorkerResults.DrainEndsEveryJob` | cmd/worker/main.go:65-121 | When they come to rest, without faults and with every push done, every row is completed or failed. |
| `WorkerAnnouncements.StatusesAreDue` | internal/platform/jobs/store.go:89-236 | Liveness: in every run without faults, every status a row was ever given is in the event log, or an enqueuer or worker is just about to announce it. |
| `WorkerAnnouncements.DrainAnnouncesEveryJob` | internal/platform/jobs/store.go:89-236 | So when the enqueuers are done and the workers at rest, every row has its queued, its running and its end in the log. |
| `WorkerResults.EnqueueIsARun` | internal/platform/jobs/store.go:57-100 | An uninterrupted Enqueue is three steps of the protocol. |
| `WorkerResults.IterationIsARun` | cmd/worker/main.go:73-120 | An uninterrupted round of the worker, with any faults, is six steps of the protocol. |
| `CacheKeys.NamesAreDistinct` | internal/lead/service/service.go:387-393 | Different leads, pages and scores are cached under different names, the UUID and the decimal numbers being recoverable from them. |
| `CacheKeys.KindByName` | internal/lead/service/service.go:387-393 | No lead's name matches the pattern of pages and no page's that of leads or scores, and the other way round. |
| `CacheKeys.ScorePatternMatches` | internal/lead/service/service.go:420-439 | The pattern of a lead's scores matches that lead's scores and nothing else. |
| `LeadService.Service.DeleteMatching` | internal/lead/service/service.go:490-509 | The SCAN loop, for any spread of keys and any batch sizes, leaves no key that matched; of the others only those that lapsed by themselves are gone. |
| `LeadService.Service.GetLead` | internal/lead/service/service.go:191-215 | Answers what the table holds for the identifier in canonical form, from the cache or not, keeps the cache coherent and leaves the lead cached; it reads the table if and only if the key is not cached. |
| `LeadService.Service.ListLeads` | internal/lead/service/service.go:164-189 | Answers the page of the table after clamping limit and offset, leaves it cached, and reads the table if and only if it was not. |
| `LeadService.Service.Ensure` | internal/lead/service/service.go:356-385 | Returns the stored vector when its content hash fits and embeds and stores otherwise; leads, scores and order unchanged. |
| `LeadService.Service.SimilarLeads` | internal/lead/service/service.go:229-248 | Is the search among the other leads with an embedding of the model, in the tables as the memo left them, for as many as the clamped limit; leads, scores and order unchanged. |
| `ScoringPipeline.CandidatesAreOthers` | internal/lead/repository/postgres_repository.go:297-316 | The rows searched are those of other leads that have an embedding of the model; the asking lead is never among them. |
| `ScoringPipeline.OthersAreCandidates` | internal/lead/repository/postgres_repository.go:297-316 | Every other lead with a record of the model is among them, with its name, status and similarity. |
| `ScoringPipeline.LocalNeighbours` | internal/lead/repository/postgres_repository.go:297-316 | With the local embedder and an exact search, after any requests: every neighbour's similarity is in [0, 1], and the score uses that of the first as it is, so the cut at zero never acts. |
| `LeadService.Service.ScoreLead` | internal/lead/service/service.go:273-307 | Answers and stores what the service without a cache does, and caches the new score under the lead's content. |
| `LeadService.Service.LatestLeadScore` | internal/lead/service/service.go:309-331 | Answers the latest score of the table, leaves it cached under the lead's content, and reads no score when it was. |
| `LeadService.Service.CreateLead` | internal/lead/service/service.go:97-138 | Validates, inserts, enqueues an embed job or embeds when there is no queue, caches the lead and drops every page. |
| `LeadService.Service.InvalidateScores` | internal/lead/service/service.go:420-439 | The scores of the lead are gone from the cache, and of the rest only what lapsed by itself. |
| `LeadService.Service.UpdateLeadStatus` | internal/lead/service/service.go:140-162 | Updates the row, caches it, and drops every page and the lead's scores and nothing else that has not lapsed; checks identifier before status. |
| `LeadService.Service.ServeAll` | internal/lead/service/service.go:97-331 | Sequential transparency: over any sequence of calls, with keys lapsing before any cache command, every answer and the final tables are those of the service without a cache. |
| `LeadLaws.CreateThenGet` | internal/lead/service/service.go:97-138 | A request with a company, a source and an address with an @ creates its trimmed lead, which is then read back; every other lead stays; any other request is refused and changes nothing. |
| `LeadLaws.CreateEmbeds` | internal/lead/service/service.go:123-134 | A new lead gets exactly one embed job if the queue takes it, and its record at once where there is no queue and the embedder works. |
| `LeadLaws.UpdateThenGet` | internal/lead/service/service.go:140-162 | One of eight statuses, in any case and with blanks around it, is written with the time to that row only and read back; any other is refused and changes nothing. |
| `LeadLaws.GetIgnoresCase` | internal/lead/repository/postgres_repository.go:153-166 | A lead is found by its identifier in either case. |
| `LeadLaws.LatestIs` | internal/lead/repository/postgres_repository.go:385-397 | The latest score is the last of the lead's, and there is none exactly when it has none. |
| `LeadLaws.ScoreThenLatest` | internal/lead/service/service.go:273-331 | A score given to a lead is its latest score afterwards, and no other lead's latest score changes. |
| `LeadLaws.ListIs` | internal/lead/service/service.go:164-174 | Twenty leads when no limit is given, never more than a hundred, from the newest when the offset is negative, and else the page asked for. |
| `LeadLaws.PageIs` | internal/lead/repository/postgres_repository.go:95-114 | A page is a stretch of the order of creation, backwards. |
| `LeadLaws.PagesOfRuns` | internal/lead/repository/postgres_repository.go:95-114 | After any requests whose creation times increase: every page goes strictly back in time, consecutive pages join into the page of their lengths together, and a page long enough has all the leads, each once. |
| `LeadLaws.EnsureStores` | internal/lead/service/service.go:374-385 | A call that answers a vector leaves the record of lead and model with the content's hash and that vector, and changes no other record and no other table; a failed one changes nothing. |
| `LeadLaws.StoredNeedsNoEmbedder` | internal/lead/service/service.go:356-372 | A later call answers the same vector and writes nothing when the embedder always fails. |
| `LeadLaws.RunKeepsRecords` | internal/lead/service/service.go:356-385 | Whatever is asked for, no record is ever lost or changed. |
| `LeadLaws.EmbeddedIsFound` | internal/lead/repository/postgres_repository.go:297-316 | Over any requests: once a lead was embedded, searched with or scored, it has its record for ever, and its name, status and similarity are among the rows that every other lead's search chooses from. |
| `EmbeddingMemo.EnsureIsFresh` | internal/lead/service/service.go:356-385 | Stored or fresh, the vector is the embedding of the lead's content, with no assumption on the hash. |
| `EmbeddingMemo.EnsureIsIdempotent` | internal/lead/service/service.go:356-372 | A second call writes nothing and returns the same vector. |
| `EmbeddingMemo.StatusNeverReembeds` | internal/lead/service/service.go:511-523 | Nor does a call after a status update. |
| `EmbeddingMemo.RunKeepsMemo` | internal/lead/repository/postgres_repository.go:267-281 | Over every sequence of requests each stored record is the hash and embedding of its lead's content, which never changes. |
| `EmbeddingMemo.MemoAgreesWithRecomputation` | internal/lead/service/service.go:356-385 | So after any requests the memo agrees with embedding afresh. |
| `CacheStaleness.StepKeepsInv` | internal/lead/service/service.go:97-331 | Every cache command and SQL statement of any number of calls keeps: whatever is cached, about to be cached or answered is what the tables held when it was read. |
| `CacheStaleness.StalenessIsBounded` | internal/lead/service/service.go:44-47 | In every interleaving each answer about a lead, page or score is what the tables held at a moment less than the key's TTL plus the longest statement-to-Set delay before the answer. |
| `CacheStaleness.BoundIsMet` | internal/lead/service/service.go:191-215 | No smaller bound holds for leads: a slow reader overwrites a finished update's cache entry, and an answer TTL + delay - 1 later has only been true until then. |
| `CacheStaleness.PageBoundIsMet` | internal/lead/service/service.go:164-189 | Nor for pages, though an update invalidates them. |
| `CacheStaleness.ScoreBoundIsMet` | internal/lead/service/service.go:309-331 | Nor for scores, though a new score is stored at once. |
| `CacheStaleness.SeenIff` | internal/lead/service/service.go:191-215 | In every state: all later answers about a key are of a version or newer, in every continuation, if and only if nothing older is live under the key and no call is about to store anything older there. |
| `CacheStaleness.UpdateIsSeenIff` | internal/lead/service/service.go:140-162 | After an update has stored its row, clients see it from then on if and only if no call that read the key before is still to store it. |
| `CacheStaleness.MemoHoldsUnderConcurrency` | internal/lead/repository/postgres_repository.go:267-281 | The memo also holds when records are written from leads seen at any earlier moment. |
| `Embedder.ParityOfIndex` | internal/lead/embedding/embedder.go:138-143 | The coordinate a hash picks has the hash's parity, because 1536 is even, and so decides the sign. |
| `Embedder.RawIsSignedCount` | internal/lead/embedding/embedder.go:128-145 | Each coordinate is the number of its tokens, negative at even and positive at odd indices. |
| `Embedder.CoordinateIff` | internal/lead/embedding/embedder.go:138-144 | From the hash alone: coordinate i is not zero if and only if some token's hash is i modulo 1536, and its absolute value is the number of those tokens. |
| `Embedder.OrthogonalIff` | internal/lead/embedding/embedder.go:138-144 | Two texts have dot product 0 if and only if no token of one agrees with a token of the other modulo 1536. |
| `Embedder.NothingCancels` | internal/lead/embedding/embedder.go:128-145 | The absolute values sum to the number of tokens. |
| `Embedder.RawIsNeverZero` | internal/lead/embedding/embedder.go:150-158 | So the zero-magnitude branch never fires. |
| `Embedder.RawIsAdditive` | internal/lead/embedding/embedder.go:135-145 | The raw vector of joined token lists is the sum of theirs. |
| `Embedder.RawIgnoresOrder` | internal/lead/embedding/embedder.go:135-145 | It depends on the multiset of tokens only. |
| `Embedder.Normalize` | internal/lead/embedding/embedder.go:150-165 | Divides each value by the root of the sum of squares, or by one when that is zero. |
| `VectorText.FormatVector` | internal/lead/embedding/embedder.go:167-173 | The text has each value with six decimals, rounded to nearest; reading it gives these numbers back. |
| `VectorText.ParseVectorPrinted` | internal/lead/embedding/embedder.go:167-173 | Round trip: reading a printed vector gives the printed numbers, for every vector that is not empty. |
| `VectorText.DeterministicVector` | internal/lead/embedding/embedder.go:128-173 | What is read from the text of the token loop, the normalization and the printing together is the normalized raw vector of the content, rounded to six decimals. |
| `Embedder.PrintedVectorIsUsable` | internal/lead/embedding/embedder.go:147-173 | For every text the printed vector has 1536 entries, keeps the signs by parity, has no entry beyond one, and has an entry beyond 0.025. |
| `Embedder.RawSimilarity` | internal/lead/repository/postgres_repository.go:297-316 | Any two raw vectors have a dot product that is not negative and whose square is at most the product of the squared norms. |
| `Embedder.PrintedSimilarityInUnitInterval` | internal/lead/repository/postgres_repository.go:297-316 | The cosine similarity of the vectors printed for any two texts is defined and lies in [0, 1]. |
| `Vectors.CauchySchwarz` | internal/lead/repository/postgres_repository.go:297-316 | The inequality itself, for integer vectors of any length. |
| `Vectors.LargeCoordinate` | internal/lead/embedding/embedder.go:150-165 | Some coordinate carries its share of the squared norm. |
| `Text.FieldsOfJoined` | internal/lead/service/service.go:511-523 | The words of texts joined by spaces are the words of the texts, one after the other. |
| `Text.ReplacedOfJoined` | internal/lead/service/service.go:511-523 | Lowering, character by character in any alphabet, commutes with joining by spaces if it keeps the space. |
| `Text.FieldsLaws` | internal/lead/embedding/embedder.go:128-134 | Three laws that determine the words of every text: none of the empty text, a word is itself, and any kind of space separates. |
| `Text.TrimSpaceIs` | internal/lead/service/service.go:97-107 | Trimming takes blanks off both ends and nothing else; nothing is left exactly of a blank text. |
| `Embedder.TokensOfBlank` | internal/lead/embedding/embedder.go:128-134 | A text has no words if and only if it is blank, and is then embedded as "empty". |
| `Leads.LeadHasTokens` | internal/lead/service/service.go:511-523 | A lead always has words, so it is never embedded as "empty". |
| `Leads.LeadWords` | internal/lead/service/service.go:511-523 | The words a lead is embedded as are those of eight of its fields, lowered, in that order. |
| `Leads.MoneyReadsBack` | internal/lead/service/service.go:519 | The printed revenue reads back to the cent. |
| `Leads.LeadVectorIsSumOfParts` | internal/lead/service/service.go:511-523 | The raw vector of a lead is the sum of those of its eight lowered parts. |
| `Scoring.SortDescending` | internal/lead/scoring/scorer.go:270 | In place: descending, and a permutation. |
| `Scoring.ConversionProbability` | internal/lead/scoring/scorer.go:227-281 | The loop, the sort, the clamps and the rounding compute `Probability`. |
| `ScoreInNumbers.ScoreIs` | internal/lead/scoring/scorer.go:227-281 | In numbers: within 1/20000 of 0.25 plus the points for source, size, revenue and notes, 0.03 for each won and -0.02 for each lost neighbour and 0.18 times the largest similarity, between the clamps 0.05 and 0.95. |
| `ScoreInNumbers.LoneScore` | internal/lead/scoring/scorer.go:227-257 | Without neighbours the score is exactly the points of the lead, in ten-thousandths. |
| `ScoreInNumbers.NearerRaises` | internal/lead/scoring/scorer.go:259-271 | When neither clamp acts, raising the largest similarity from m to m' raises the score by 0.18 * (m' - m), up to 1/10000. |
| `ScoreInNumbers.OneMoreNeighbour` | internal/lead/scoring/scorer.go:259-272 | When neither clamp acts, one more neighbour no closer than the closest adds exactly 0.03 if won, takes 0.02 if lost, and else counts nothing, wherever it stands. |
| `ScoreInNumbers.ProbabilityIsStrict` | internal/lead/scoring/scorer.go:241-280 | When an outcome, a tier of size or revenue, or the largest similarity by 1/1800 gets better and nothing worse, the score rises, unless a clamp decides it. |
| `ScoreInNumbers.SourcesCompared` | internal/lead/scoring/scorer.go:230-239 | With any neighbours a source of more points never gives a lower score. |
| `ScoreInNumbers.SourcesInOrder` | internal/lead/scoring/scorer.go:230-239 | Referral is 0.05 above webinar, that 0.03 above inbound and website, those 0.07 above manual, and that 0.05 above any other source. |
| `Scoring.NearnessIs` | internal/lead/scoring/scorer.go:270-271 | What the sorted head contributes is the unique largest similarity, or zero. |
| `Scoring.ProbabilityRange` | internal/lead/scoring/scorer.go:274-280 | Always a multiple of 1/10000 in [0.05, 0.95]. |
| `Scoring.ProbabilityIgnoresOrder` | internal/lead/scoring/scorer.go:259-272 | Invariant under every permutation of the neighbours. |
| `Scoring.ProbabilityIsMonotone` | internal/lead/scoring/scorer.go:241-280 | Never falls when company size, revenue, any similarity or any outcome improves, in any combination. |
| `Scoring.WonNeighbourNeverHurts` | internal/lead/scoring/scorer.go:259-280 | Nor when a won neighbour is added anywhere. |
| `Scoring.FallbackIsAlwaysStorable` | internal/lead/scoring/scorer.go:147-195 | With the fallback, scoring never fails, and the value passes the column's CHECK and is stored unchanged. |
| `Scoring.RemoteDecidesIff` | internal/lead/scoring/scorer.go:147-160 | The remote answer is taken if and only if its number is in [0, 1] and its reasoning is not blank, rounded to four decimals. |
| `Scoring.FallbackIsLast` | internal/lead/scoring/scorer.go:177-195 | Then it is the decision as it is; otherwise the decision has the local score and model, and its reasoning ends with why the remote one failed. |
| `Scoring.ScoreReasoning` | internal/lead/scoring/scorer.go:283-310 | The sentences, each under its condition, joined; the closest match is the last. |
| `Scoring.ReasonsAre` | internal/lead/scoring/scorer.go:283-310 | The estimate is first and the closest match last; between them, in order, the source if it is not blank, the size and the revenue if they are positive, and nothing else. |
| `Scoring.NearestIsExact` | internal/lead/repository/postgres_repository.go:314-315 | There is an exact search: sorting the rows by similarity and taking the first. |
| `Scoring.ClosestMatchIsUsed` | internal/lead/scoring/scorer.go:297-304 | The reasoning ends by naming the first neighbour as the closest match; that is the nearest row there is and the one whose similarity the score used. |
| `Scoring.PipelineScore` | internal/lead/scoring/scorer.go:227-281 | On at most five neighbours the score is in [0.15, 0.95]; the lower clamp never decides it. |
| `ScoringPipeline.ScoreAddsDecision` | internal/lead/service/service.go:273-307 | ScoreLead answers and stores exactly the scorer's decision on the lead and on the five neighbours that a search for its vector finds, with that lead and that time, if the lead exists and can be embedded, and stores nothing otherwise. |
| `ScoringPipeline.StoredIsRounded` | migrations/001_init.sql:40-42 | Whatever a scorer answers, what is stored is its number to four decimals, and a probability. |
| `ScoringPipeline.LocalScoresInRange` | internal/lead/service/service.go:273-294 | With the local scorer, after any requests, every stored score is a decision on at most five neighbours and lies in [0.15, 0.95]. |
| `ScoringPipeline.FallbackScoresInRange` | internal/lead/scoring/scorer.go:177-195 | With the remote scorer and the fallback, after any requests, every stored score is what was decided, in [0, 1]. |
| `ScoringPipeline.FallbackNeverFails` | internal/lead/scoring/scorer.go:177-195 | With the fallback ScoreLead answers a score if and only if the lead exists and can be embedded. |
| `ScoringPipeline.ServeLocally` | internal/lead/service/service.go:273-307 | The cached service stores no other scores than the one without a cache: all are in [0.15, 0.95]. |
| `RateLimit.Limiter.Admit` | internal/platform/auth/middleware.go:50-107 | INCR, then EXPIRE for the first of a window, then the comparison with the limit of the path's bucket. |
| `RateLimit.AllowKeepsCounters` | internal/platform/auth/middleware.go:96-106 | Each counter holds the arrivals of its bucket, token and minute and is not dropped within it, whether or not EXPIRE succeeds. |
| `RateLimit.CountersExpire` | internal/platform/auth/middleware.go:103-105 | While no EXPIRE fails, every counter has an expiry, which `AllowKeepsCounters` puts in the third minute from its window's start. |
| `RateLimit.SameWindowIff` | internal/platform/auth/middleware.go:92-97 | Two requests share a counter if and only if they have the same token, the same minute and both or neither of them a path that ends in /score or /embeddings. |
| `RateLimit.ExpensivePaths` | internal/platform/auth/middleware.go:109-111 | Those paths are held to the expensive limit, whatever precedes. |
| `RateLimit.AdmitsTheFirst` | internal/platform/auth/middleware.go:87-107 | An arrival is admitted if and only if fewer than the limit came before it in its bucket, token and minute. |
| `RateLimit.WindowAdmitsUpToLimit` | internal/platform/auth/middleware.go:87-107 | Each window admits exactly the smaller of its arrivals and its limit. |
| `RateLimit.SpanBound` | internal/platform/auth/middleware.go:87-107 | Any half-open span admits at most limit * (ceil(length / 60 s) + 1). |
| `RateLimit.BurstMeetsBound` | internal/platform/auth/middleware.go:87-107 | The bound is met: in the two milliseconds around any turn of the minute twice the limit is admitted. |

## Left out

- CreateLeadProtocol: handlers of one key; different keys are independent by the store's frame clauses.
- CreateLeadHandler.Handler.CreateLead: hashing the request, decoding, the limit of 128 characters on the key and the status codes other than 201.
- LeadService.Service.CreateLead: an embed job is recorded for the lead; the job store itself is a model of its own.
- Idempotency.Store.Begin: a nil client, and errors of the script run itself; the protocol has answers that are lost.
- Jobs.Store.Enqueue: payloads, results, error texts and times of jobs; a lead that does not exist (the foreign key) is a refused row.
- Jobs.Work: runs for given rounds instead of until its context is cancelled; a BRPOP that takes nothing is no round.
- WorkerResults.AnnouncementsAreCausal: a PUBLISH that a client retries into a duplicate.
- WorkerResults.DrainIsBounded: that a schedule gives every worker its turn is not claimed; the bound is on the steps that do something.
- LeadService.Service.ServeAll: Redis commands that fail; JSON encoding and decoding of cached values is the identity.
- LeadService.Service.DeleteMatching: the server is any assignment of keys to buckets that a cursor walks; rehashing while a scan runs is not modelled.
- LeadService.Service.SimilarLeads: which of the rows the index finds is any choice; the approximation itself is not modelled. Of a neighbour only the name, status and similarity.
- CacheStaleness.StalenessIsBounded: a LatestLeadScore is two calls, for the lead and for the score under its key, each with its own bound.
- Leads.LeadVectorIsSumOfParts: lowering is that of ASCII letters; `ReplacedOfJoined` holds for every alphabet.
- VectorText.DeterministicVector: exact reals instead of floating point; the square root is any function, and exact where a lemma says so.
- Scoring.ConversionProbability: exact reals instead of floating point; revenue in cents.
- Scoring.ScoreReasoning: how numbers and quoted texts are printed in it is any function.
- Scoring.FallbackIsAlwaysStorable: the remote call is any answer or failure, NaN aside; stripping code fences and the fallback hook are left out.
- RateLimit.Limiter.Admit: a failing INCR, which answers 503, and a nil client; the choice of the paths that need a token.
- HTTP routing, WebSocket, authentication, metrics, OpenSearch, configuration and the user interface.
- ListLeadScores, GetJob and EnqueueScoreLead, which read or insert one row.
- Remote embedding, and clocks that differ between instances.
