# Verified model of a distributed web crawler

Many crawler nodes share a Redis store, a Kafka task log, a Neo4j link graph and a Milvus index.
This project models the parts of the crawler whose correctness depends on more than one function,
and proves what they keep over all inputs and all interleavings.

- **Run lifecycle** (`RunState`, `Scripts`, `Offsets`, `CommitSafety`, `CommitOrder`, `Ownership`, `Producer`,
  `Protocol`, `NoLostWork`, `LostWork`, `PassedOver`, `Termination`, `Restarts`, `Narrow`, `Worker`, `WorkerLaws`).
  The Redis scripts, the offset tracker and the batching producer are written as the code has them and proved
  against functions on values. `Protocol` puts them together as a state machine whose steps are the atomic
  calls of all nodes: slots, task tables, counters, buffers, the log with its consumer groups, and workers
  between two calls, with failed calls, lost replies, rebalances in the middle of a fetch, crashes and
  evictions. `Worker` is the code of one worker, statement by statement, and shows that left alone it is a
  path of that state machine. `Scripts` and `WorkerLaws` say what each script and each handling of a task mean
  without the functions they are written as: who gets a slot, which children are sent, when a task is settled.
- **Chunker** (`Text`, `Split`, `Units`, `Pack`, `Chunker`, `UniqueChunks`, `ChunkLaws`). From a document to chunks,
  with what splitting and rendering undo, and a description of where paragraphs, sentences, pieces and
  chunks begin and end that is complete: a document and the settings determine its chunks.
  `ChunkLaws` says with the very characters and lengths where words, sentences, pieces and chunks end.
- **Link graph** (`Links`, `PageGraph`, `GraphLaws`). `PageGraph` is the stored graph, with node identities,
  and its queries; `Links` is the graph it stands for, its invariants and the order of saves; `GraphLaws` says
  link by link, page by page and name by name what one save makes of it.
- **Index** (`VectorStore`, `Index`, `HashLaws`, `AsyncSink`). Batched replacement of a page's rows, the hash
  that lets unchanged documents be skipped, and the sharded queue in front.
- **Metrics** with `ScoreLaws`, **Retrieval** with `FusionLaws`, **Embedding**. nDCG against the
  insertion-sorted ideal, reciprocal rank fusion with a stable sort, and placement of embeddings that come back
  in any order.

`dafny verify dfyconfig.toml` checks everything.

## What the proofs say about the code

- A worker that goes on after a failed state read is said to do only idempotent work
  (internal/webcrawler/crawler_repo.go:112-114). It is not. `ExactCondition` says when a run that was
  found finished stays finished: if and only if workers start only on tasks that are queued and sent, no
  worker of an earlier incarnation is left when the next one begins, and no two workers hold the same
  task, or its settings allow it no slot, no lease, no second link or no second level. Each other way has a
  run of the whole system, from its empty start, in which a finished run goes on: a failed read of a finished task (`FinishedStart`), a record left over from before the run's keys
  were removed (`UnknownStart`), a record whose task is being admitted again and then undone
  (`EarlyStart`), a worker still at work when the keys are evicted (`LeftoverWorker`), and a record
  delivered to two workers (`SharedTask`).
- Six steps can lose a queued task, and `StepLosesIff` says exactly when they do: an admission whose answer
  is lost, an undo that fails, a payload whose flush fails, which the code only logs, a crash between the
  admission and the message, a state read under a lapsed lease, and a commit that passes over the last record
  of the task. Each happens in a run from the start (`FirstAdmissionLost`, `FirstUndoFailed`, `FirstDropped`,
  `FirstCrashed`, `FirstLeaseLapsed`, `FirstPassedOver`). Once nobody handles the task any more it is lost for
  good: while the run's keys stay it stays queued, every retry is answered Duplicate, and the run is not found
  finished, unless an old record of it is delivered again (`LostForGood`). After a commit that passes over it
  none is, as long as ownerships start at the committed position and that does not move back
  (`PassedOverIsLost`). No other step of the model loses a task, in any run (`RunLosesIff`).
- A commit passes over a record nobody acked only if a record was tracked after its partition was released,
  while an offset below it was missing (`CommitsOnlyAcked`), and a run stays safe exactly up to the first such
  record (`SafeAlongIff`, `LateSafeIff`, `ReleasedMidFetchIff`). `track` does not know about the release;
  `ReleaseThenTrack` is a run of the consumer group in which it happens, and `FirstPassedOver` one of the
  whole system in which the store and the broker answer every call until, with the commit done, one worker
  cannot send a child and gives up, counting on a redelivery.
- From the beginning of an ownership on, until the partition is given anew, what a consumer is handed to
  commit goes back to an older record exactly if a commit is put back that is older than one handed out
  since, while nothing is due (`GoesBackIff`). That happens when a partition is
  taken away while a commit is under way: `CommitMovesBack` is a run in which the committed position goes
  from 2 back to 1. Nothing is lost by it; acked records are delivered again. The order proved in
  `LongestAckedPrefix` has a failed commit restored before the next take.
- The producer's shutdown cannot get stuck, but only because the loop waits for the lock after the stop
  channel is closed (`GoesOnIff`, `NeverStuck`): callers of a full queue could not leave otherwise.
- nDCG is a share for all judgements exactly if no page is listed twice among the first k
  (`NdcgIsShareIff`). Recall is one exactly if at most one page is listed, or none is listed twice and grade 0
  does not count as relevant (`RecallIsShareIff`); the two conditions together are those for all four scores
  (`ScoresAreSharesIff`).
- A stored hash says what is indexed for every page whose last change was recorded (`HashAgreesWithIndex`).
  If the last change was not recorded, it agrees with the index exactly if it is the hash of that change or
  neither version has any chunks (`UnrecordedAgreesIff`). If the last change was interrupted half way, after
  recorded ones, it agrees exactly if it is the hash of that change or no row of the page was written or
  deleted (`InterruptedAgreesIff`); after any number of unrecorded and interrupted changes of another hash,
  exactly if the rows are as they were (`AgreesIffUntouched`). So going back to the version whose hash is
  still stored is taken for no change over the rows of another version, whole or half (`OldHashSurvives`,
  `HalfReplacedIsSkipped`).
- What the indexer stores for a chunk is shown as the chunk again if and only if the page has a title or the
  chunk does not begin with a blank line (`SnippetOfStored`).
- The saves of two pages may change places, whatever the pages link to, if and only if they claim nothing
  of each other's and neither takes over another name without the page it is a name of (`AnyOrderIff`).
  Taking over just the name is enough to make the order matter (`TakenOverName`).

## Conventions

A URL after canonicalisation, a task ID and a hash are values; `TaskID`, `ChunkID` and `Hash` are
constructors, so hashing is injective, and the shard of a URL is any function. The code hashes parts joined by
zero characters; `HashLaws` shows that this is the same while URLs, fingerprints and titles hold none, and that
it would not be otherwise (`ZeroInTitle`). Strings are sequences of runes. Scores and discounts are reals; the discount is any positive function that does not increase.
Calls that can fail take their outcome as a parameter, so every contract covers every outcome; where a
call changes shared state, it may also take effect and its answer be lost.
Settings that constructors check (`MaxRunes > 0`, `OverlapRunes < MaxRunes`, `RRFK > 0`,
`BatchSize > 0`) are preconditions.

## Model

| member | source | states |
|---|---|---|
| RunState.RunStateManager.AcquireRunSlot | internal/webcrawler/runstates/runstate_redis.go:26-39 | reaps expired slots, then renews the run's slot or takes a free one, else refuses |
| RunState.RunStateManager.ReleaseRunSlot | internal/webcrawler/runstates/runstate_redis.go:153-161 | removes the slot and changes nothing else |
| RunState.RunStateManager.AdmitTask | internal/webcrawler/runstates/runstate_redis.go:41-63 | answers in the order inactive, duplicate, limit; else queues the task and counts it in both counters |
| RunState.RunStateManager.UnadmitTask | internal/webcrawler/runstates/runstate_redis.go:65-75 | takes a queued task and its counts back; a done or unknown one is left alone |
| RunState.RunStateManager.ReadTaskState | internal/webcrawler/runstates/runstate_redis.go:77-87 | renews a live lease and tells whether the run is active and the task done |
| RunState.RunStateManager.CompleteTask | internal/webcrawler/runstates/runstate_redis.go:89-103 | counts a queued task down once, returns what is left and renews a live lease |
| RunState.RunStateManager.CleanupRun | internal/webcrawler/runstates/runstate_redis.go:206-216 | removes the run's table and both counters |
| RunState.CountersInEveryReachableState | internal/webcrawler/runstates/runstate_redis.go:41-103 | after any script calls: active is the number of queued tasks, links the size of the table, at most MaxLinks |
| RunState.PotentialAccounts | internal/webcrawler/runstates/runstate_redis.go:41-103 | 2 (MaxLinks - links) + active falls by one at each admission and counted completion, rises by one at each undo, and nothing else moves it |
| RunState.IncarnationIsBounded | internal/webcrawler/runstates/runstate_redis.go:41-103 | an incarnation changes its table at most 2 MaxLinks times, plus two for each undone admission, and keeps at most MaxLinks tasks |
| RunState.SlotSafety | internal/webcrawler/runstates/runstate_redis.go:26-39 | with a monotone clock: never more than maxConcurrent slots, no unexpired slot reaped, no expiry moved back, an expired slot revived only by acquiring |
| RunState.AdmittedOnlyUnderLease | internal/webcrawler/runstates/runstate_redis.go:41-56 | a task enters a table only by its own admission under a live lease |
| Scripts.AcquiredIff | internal/webcrawler/runstates/runstate_redis.go:26-39 | a slot is acquired if and only if the run holds an unexpired one or fewer than maxConcurrent are unexpired; then it lasts until now + lease; every expired slot goes and is reported, every unexpired one of another run stays as it is |
| Scripts.ExpiredIsFree | internal/webcrawler/runstates/runstate_redis.go:26-39 | once the lease of a run ends, any other run can acquire a slot, though nobody released it |
| Scripts.ReleasedIsFree | internal/webcrawler/runstates/runstate_redis.go:153-161 | a release frees the slot for any other run and changes nothing else |
| Scripts.AdmissionTells | internal/webcrawler/runstates/runstate_redis.go:41-63 | what each answer tells about lease, table and limit, if and only if; an admitted task is queued and counted, nothing else differs |
| Scripts.UndoRestores | internal/webcrawler/runstates/runstate_redis.go:65-75 | undoing an admission gives back tables, counters and slots as they were before it |
| Scripts.UndoOfOthers | internal/webcrawler/runstates/runstate_redis.go:65-75 | an undo of a task that is unknown or done changes nothing |
| Scripts.StateTells | internal/webcrawler/runstates/runstate_redis.go:77-87 | active exactly under an unexpired lease, done exactly if done; a live lease is extended to now + lease and a lapsed one stays lapsed |
| Scripts.CompletedOnce | internal/webcrawler/runstates/runstate_redis.go:89-103 | a completion counts exactly a queued task; a second one, at any time, counts nothing and changes nothing |
| Scripts.CleanedStartsOver | internal/webcrawler/runstates/runstate_redis.go:206-216 | a run without its keys knows no task, counts from 0 and admits any task again |
| Offsets.OffsetTracker.TrackRecord | internal/processor/queue/offsets.go:36-42 | the record is appended to its partition's queue, not done; other partitions keep theirs |
| Offsets.OffsetTracker.AckRecord | internal/processor/queue/offsets.go:46-69 | marks the first entry of this very record done and moves the done records at the head into the commit candidate |
| Offsets.OffsetTracker.TakeDue | internal/processor/queue/offsets.go:72-83 | hands out and forgets the candidate of every partition |
| Offsets.OffsetTracker.RestoreRecords | internal/processor/queue/offsets.go:86-96 | puts a failed commit back unless a newer one is due |
| Offsets.OffsetTracker.ReleasePartitions | internal/processor/queue/offsets.go:101-120 | forgets the released partitions, returns exactly their candidates and leaves the others alone |
| CommitSafety.CommitsOnlyAcked | internal/processor/queue/offsets.go:36-120 | over all interleavings of deliveries, acks (late ones too), takes, commits, lost answers, restores, releases and reassignments in which whatever is tracked after its release has nothing missing below it: every offset below a committed position or handed to a commit was acked |
| CommitSafety.SafeAlongIff | internal/processor/queue/kafka_queue.go:122-143 | every run is safe in all its states, whatever follows, if and only if no record is tracked, after its release, with an offset missing below it |
| CommitSafety.LateSafeIff | internal/processor/queue/kafka_queue.go:132-142 | tracking one such record is safe for everything that follows if and only if no offset below it is missing |
| CommitSafety.ReleasedMidFetchIff | internal/processor/queue/kafka_queue.go:176-184 | a release in the middle of a fetch, followed by the next record of that fetch, is safe if and only if everything fetched before was acked |
| CommitSafety.ReleaseThenTrack | internal/processor/queue/kafka_queue.go:132-184 | a run of six steps that hands record 1 to a commit while record 0 was never acked |
| CommitSafety.TrackSafeIff | internal/processor/queue/offsets.go:36-69 | tracking a record is safe for all later acks if and only if no offset below it is missing |
| CommitSafety.StepKeepsGroup | internal/processor/queue/kafka_queue.go:115-184 | every step of the consumer group keeps every lane safe, a record tracked late if no offset below it is missing |
| CommitOrder.GoesBackIff | internal/processor/queue/offsets.go:71-96 | from the beginning of an ownership, and after its end: what the consumer is handed goes back to an older record if and only if one older than what was handed out is put back while nothing is due |
| CommitOrder.CommitMovesBack | internal/processor/queue/kafka_queue.go:145-184 | a run in which an older commit fails after a newer one succeeded, is handed out again, and moves the committed position back |
| Ownership.LongestAckedPrefix | internal/processor/queue/offsets.go:46-96 | within an ownership the head of the queue is never done, the candidate is the end of the longest acked prefix not handed out yet or a restored one, and what is handed out never moves back |
| Ownership.AckedIsDue | internal/processor/queue/offsets.go:46-96 | when the first n records are acked and the next is not: record n is due, unless it was handed out, and a take hands it out and leaves nothing due; the others are queued with what is known of them |
| Ownership.StepRefines | internal/processor/queue/offsets.go:36-96 | each tracker operation matches its effect on the log and the set of acked records |
| Producer.RunProducer | internal/processor/queue/kafka_queue.go:201-240 | the flushes, concatenated, are what was received and then drained, in order; a batch ends exactly when it holds batchSize payloads, at a tick, or with the last one |
| Producer.Conservation | internal/processor/queue/kafka_queue.go:90-106 | when the loop has returned its flushes are exactly the payloads Produce accepted, once each, in channel order, and that is final |
| Producer.NothingAfterSeal | internal/processor/queue/kafka_queue.go:192-196 | after the seal no payload is accepted and the channel only shrinks |
| Producer.HoldersOnlyLeave | internal/processor/queue/kafka_queue.go:90-106 | while the loop waits for the lock no call enters, every put or return takes just that call out, and the seal comes only after the last |
| Producer.GoesOnIff | internal/processor/queue/kafka_queue.go:98-105 | while the loop waits for the lock, somebody can go on if and only if nobody is inside, the channel has room, the queue has stopped or the context of a call inside is over |
| Producer.NeverStuck | internal/processor/queue/kafka_queue.go:223-224 | in every reachable state in which the loop waits for the lock every call inside can return because the queue has stopped |
| Producer.SealIsInevitable | internal/processor/queue/kafka_queue.go:192-196 | whatever the calls inside do, the seal has happened after one step for each of them and one more |
| Producer.SealIsReachable | internal/processor/queue/kafka_queue.go:192-196 | whatever fills the channel, the closed stop channel alone lets the calls inside leave, and the seal then happens |
| NoLostWork.QueuedTasksAreCarried | internal/webcrawler/crawler_repo.go:91-221 | in every reachable incarnation, until a step drops the last carrier of a task, every queued task is held by a sender, a buffer, or a log record at or past the committed position |
| NoLostWork.StepLosesIff | internal/processor/processor_queue.go:63-85 | a step leaves all queued tasks of a run carried if and only if it is not a lost answer to an admission, a failed undo, a dropped payload, a crash, a state read under a lapsed lease or a commit past its records that drops the last carrier of one |
| NoLostWork.RunLosesIff | internal/webcrawler/crawler_repo.go:91-221 | along any run, records tracked after a release included, all queued tasks stay carried if and only if no step is one of those |
| NoLostWork.CarefulIsLossless | internal/webcrawler/crawler_repo.go:115-126 | that is so if no admission loses its answer, no undo of a queued task fails, no payload of one is dropped, no node that sends one crashes, the lease is live whenever the state of one is read, and nothing is missing below a record that is tracked after its release |
| NoLostWork.RunLosesNothing | internal/processor/processor_queue.go:63-85 | along any run without such a step queue and carriers stay as they should |
| NoLostWork.RunKeepsQueue | internal/processor/queue/kafka_queue.go:115-184 | along any run at all what is tracked, acked, handed out or committed is in the log, and so is every record in hand |
| LostWork.LostForGood | internal/webcrawler/runstates/runstate_redis.go:41-103 | a queued task that nobody handles stays queued, is answered Duplicate, and keeps its run from being found finished, until the run's keys go or an old record of it is delivered again |
| LostWork.LostAdmissionIsLost | internal/processor/processor_queue.go:63-66 | an admission of a new task whose answer is lost: so it is after any run that keeps the run's keys |
| LostWork.FailedUndoIsLost | internal/processor/processor_queue.go:77-85 | a failed undo: likewise |
| LostWork.DropIsLost | internal/processor/queue/kafka_queue.go:242-274 | the last payload of a queued task whose flush fails: likewise |
| LostWork.CrashIsLost | internal/processor/processor_queue.go:63-85 | a crash of the node that sends a queued task: likewise |
| LostWork.LapsedLeaseIsLost | internal/webcrawler/crawler_repo.go:115-126 | a queued task read under a lapsed lease is acked: likewise, unless its old record is delivered again |
| LostWork.FirstAdmissionLost | internal/processor/processor_queue.go:63-66 | a run from the start that ends with such a task, by a lost answer |
| LostWork.FirstUndoFailed | internal/processor/processor_queue.go:77-85 | another, by a failed undo |
| LostWork.FirstDropped | internal/processor/queue/kafka_queue.go:242-274 | another, by a failed flush |
| LostWork.FirstCrashed | internal/processor/processor_queue.go:63-85 | another, by a crash |
| LostWork.FirstLeaseLapsed | internal/webcrawler/crawler_repo.go:115-126 | another, by a lapsed lease |
| PassedOver.PassedOverIsLost | internal/processor/queue/kafka_queue.go:132-184 | a commit past the records of a queued task that nobody handles: nothing carries it after any run that keeps the run's keys and in which ownerships start at the committed position and that does not move back |
| PassedOver.FirstPassedOver | internal/processor/queue/kafka_queue.go:132-184 | a run from the start that ends with such a task: its partition is released in the middle of a fetch, and the next record of the fetch is tracked, handled, acked and committed |
| Termination.TerminationDetectedOnce | internal/webcrawler/crawler_repo.go:161-221 | in every reachable incarnation with nobody at work when it begins, over every interleaving in which workers start on tasks that are queued and sent, no two on the same one: at most one completion is counted with nothing left; from then on nothing is queued and no admission succeeds |
| Termination.NoAdmissionAfterFinish | internal/webcrawler/runstates/runstate_redis.go:41-103 | after the finish every admission of the run leaves the store as it is |
| Termination.AdmitterIsEarly | internal/webcrawler/crawler_repo.go:161-190 | a worker that may still admit a new child shows that the run has not finished |
| Termination.ProducedAtMostMaxLinks | internal/processor/processor_queue.go:63-85 | an incarnation produces each task at most once and at most MaxLinks of them |
| Narrow.ExactCondition | internal/webcrawler/crawler_repo.go:112-126 | under all settings, that holds for all incarnations if and only if workers start only on such tasks, nobody is at work when an incarnation begins, and no two workers hold the same task, or the settings allow the run no slot, no lease, no second link or no second level |
| Restarts.SharedTask | internal/webcrawler/crawler_repo.go:91-110 | a run from the start in which two workers start on one queued task, and one of them queues a new task after the other finished the run |
| Restarts.FinishedStart | internal/webcrawler/crawler_repo.go:112-126 | a run from the start in which a failed read of a finished task queues a new task of a finished run |
| Restarts.UnknownStart | internal/webcrawler/crawler_repo.go:115-126 | a run from the start in which a record left over from an earlier incarnation does |
| Restarts.EarlyStart | internal/processor/processor_queue.go:77-85 | a run from the start in which a record whose task is being admitted again and then undone does |
| Restarts.LeftoverWorker | internal/webcrawler/runstates/runstate_redis.go:206-216 | a run from the start in which a worker still at work when the run's keys went does |
| Termination.MessagesAreShallow | internal/processor/processor_queue.go:42-45 | in every reachable state every buffered or logged task is within the run's depth limit |
| Worker.CrawlWorker.SendTask | internal/processor/processor_queue.go:42-90 | depth, URL, admission and produce are tried in this order; an unsent task is un-admitted |
| Worker.CrawlWorker.SendChildren | internal/webcrawler/crawler_repo.go:164-190 | children too deep are not sent; limits and bad URLs are passed over, an inactive run ends the loop without error, other errors fail the whole |
| Worker.CrawlWorker.CompleteTask | internal/webcrawler/crawler_repo.go:196-221 | acks unless the completion failed; only a counted completion with nothing left releases and cleans up |
| Worker.AckedWhileQueuedIff | internal/webcrawler/crawler_repo.go:91-126 | whatever happens on the way, a task is acked and left queued if and only if its state was read under a lapsed lease |
| Worker.ChildrenBooked | internal/webcrawler/crawler_repo.go:161-190 | if no admission loses its answer and every failed send is undone, the tasks queued after sending the children are exactly those queued before and those handed to the producer |
| Worker.SendBookedIff | internal/processor/processor_queue.go:42-90 | one send keeps that up if and only if it is so settled or admits nothing |
| Worker.CrawlWorker.HandleTask | internal/webcrawler/crawler_repo.go:91-110 | the task is completed and acked unless its children were not sent |
| Worker.HandlingIsAPath | internal/webcrawler/crawler_repo.go:91-221 | whatever calls fail, with or without effect, handling a task is a path of the protocol with the same store, the same produced tasks and an ack exactly if the code acks; it works on the links of the page |
| WorkerLaws.LinksAreSent | internal/webcrawler/crawler_repo.go:91-221 | a fetched page of an active run with room and depth, every send answered and produced: every link is known to the run when its task is completed, and exactly the links new to it were produced, once each, in the order of the links |
| WorkerLaws.NothingToSend | internal/webcrawler/crawler_repo.go:135-190 | a page that fails, has no links or is too deep sends nothing, and its task is completed all the same |
| WorkerLaws.NothingToDo | internal/webcrawler/crawler_repo.go:91-126 | a task read to be done, or of an inactive run, is acked and nothing else happens |
| WorkerLaws.SentOrNotAcked | internal/webcrawler/crawler_repo.go:91-190 | while the run is active and the producer takes every payload, a fetched page is acked if and only if the admission of every valid link and its completion were answered; else it keeps its place in the table |
| WorkerLaws.NotProducedNotAcked | internal/webcrawler/crawler_repo.go:161-190 | if a link new to the run is not produced, whatever becomes of the others, the task is not acked |
| WorkerLaws.InactiveSendsNothing | internal/webcrawler/crawler_repo.go:161-221 | once the run is inactive no link is sent, and the task is completed all the same |
| WorkerLaws.CompletionSettles | internal/webcrawler/crawler_repo.go:192-221 | after an answered completion the task is acked and counted once; after the last one the slot is free and the keys are gone, as far as these calls succeed |
| Worker.SendPath | internal/processor/processor_queue.go:42-90 | whatever calls fail, with or without effect, sending one task is a path of the protocol and leaves the worker where the error says |
| Text.SplitOfJoin | internal/chunker/split.go:14-38 | splitting joined lines gives the lines back |
| Text.NormalLineIsItsWords | internal/chunker/split.go:14-38 | a normal line is its words joined by single blanks |
| Split.SplitParagraphs | internal/chunker/split.go:14-38 | paragraphs are the blocks of lines between blank ones, normal, and together have exactly the words of the content, in order |
| Split.ParagraphsAreUnique | internal/chunker/split.go:14-38 | the lines determine the paragraphs |
| Split.SplitSentences | internal/chunker/split.go:76-108 | the sentences joined by blanks are the line; it is split at every sentence boundary and nowhere else |
| Split.SplitWords | internal/chunker/split.go:110-166 | pieces render back to the sentence and fit the limit; one ends only where the next word does not fit, and only a word longer than the limit is broken |
| Split.SplitOversized | internal/chunker/split.go:43-74 | for every limit: pieces render back to the paragraph and fit; it is cut by lines, these by sentences, and these by words only where they do not fit |
| Units.ToUnits | internal/chunker/chunker_paragraph.go:95-126 | one unit for each paragraph that fits and the pieces of each that does not, rendering to the paragraphs joined by blank lines, the first of a paragraph knowing its size |
| Units.RenderUnits | internal/chunker/chunker_paragraph.go:198-210 | the text is the units with the separator each needs |
| Units.MeasureIsLength | internal/chunker/chunker_paragraph.go:212-240 | the measure of units is the length of their rendering |
| Units.IntervalIsSubstring | internal/chunker/chunker_paragraph.go:198-232 | rendering an interval of units gives a substring of rendering all |
| Pack.Overlap | internal/chunker/chunker_paragraph.go:170-196 | the tail is the longest proper suffix that measures at most the budget |
| Pack.PackUnits | internal/chunker/chunker_paragraph.go:128-168 | the texts are a packing: each chunk goes on until the next unit breaks it, and begins with the longest tail or none |
| Pack.ChunksFit | internal/chunker/chunker_paragraph.go:128-168 | every chunk renders to between 1 and MaxRunes runes |
| Pack.ChunksAdvance | internal/chunker/chunker_paragraph.go:128-196 | starts and ends strictly increase without a gap; the repeated part is a proper suffix of at most OverlapRunes |
| Pack.ChunksCover | internal/chunker/chunker_paragraph.go:128-168 | every unit is in some chunk |
| Pack.NoOverlapPartitions | internal/chunker/chunker_paragraph.go:128-168 | with overlap 0 the chunks one after the other are the units |
| Pack.NeighboursAreDense | internal/chunker/chunker_paragraph.go:128-168 | with overlap 0 two consecutive texts hold at least half of MaxRunes |
| Pack.PackingIsDense | internal/chunker/chunker_paragraph.go:128-168 | with overlap 0 n texts hold at least (n / 2) (MaxRunes / 2) runes |
| Pack.PackingIsUnique | internal/chunker/chunker_paragraph.go:128-196 | units and settings determine the packing |
| Chunker.MakeChunks | internal/chunker/chunker_paragraph.go:60-93 | too small documents give no chunks; else one chunk for every different packed text, numbered in order |
| UniqueChunks.ChunksAreDetermined | internal/chunker/chunker_paragraph.go:60-93 | a document and the settings determine its paragraphs, units, intervals and chunks |
| UniqueChunks.SentencesAreUnique | internal/chunker/split.go:76-108 | a line determines its sentences |
| UniqueChunks.WordPiecesAreUnique | internal/chunker/split.go:110-166 | a text and the limit determine its greedy pieces |
| Chunker.ChunksAreParts | internal/chunker/chunker_paragraph.go:60-93 | every chunk is a substring of the normalised document within the size bound, under an id no other chunk has |
| Chunker.EveryTextHasAChunk | internal/chunker/chunker_paragraph.go:75-92 | removing duplicates loses no packed text |
| ChunkLaws.BlanksPartWords | internal/chunker/split.go:28-36 | a character between two words parts them if and only if it is one of the 25 of Unicode white space |
| ChunkLaws.CutIff | internal/chunker/split.go:76-108 | a line is cut at a blank if and only if the text before it ends with one of four terminators, followed only by terminators and the eight closers |
| ChunkLaws.PieceBreaks | internal/chunker/split.go:110-166 | a sentence is broken inside a word only behind a full piece of that word, and behind a word only if the next one does not fit after a blank |
| ChunkLaws.ChunkEndsIff | internal/chunker/chunker_paragraph.go:128-168 | behind its first new unit a chunk ends exactly where the next unit makes the text too long, or begins a paragraph that would, while half of MaxRunes is used |
| ChunkLaws.ChunkRepeats | internal/chunker/chunker_paragraph.go:128-196 | every chunk begins with the longest proper end of the one before it whose text is within OverlapRunes, or without it if its first new unit does not fit behind |
| ChunkLaws.NoChunksIff | internal/chunker/chunker_paragraph.go:60-69 | no chunks if and only if there is no paragraph or the paragraphs joined, less two runes between each two, are shorter than MinDocumentRunes |
| ChunkLaws.NoParagraphsIff | internal/chunker/split.go:14-39 | no paragraph if and only if no word |
| Links.EveryGraphIsWellFormed | internal/pages/graph.go:72-96 | after any saves: links join different existing pages, no URL is both page and alias, every alias is of an existing page |
| Links.SaveKeeps | internal/pages/graph.go:72-96 | one save keeps a graph well formed and leaves the page in it |
| GraphLaws.LinkedAfterIff | internal/pages/graph.go:15-96 | two pages are linked after a save if and only if they differ and what is one of them now was linked to what is the other now, or is on the saved page |
| GraphLaws.PageAfterIff | internal/pages/graph.go:15-96 | the pages are those before, the saved one and what it links to, without its other names |
| GraphLaws.NameAfterIff | internal/pages/graph.go:13-36 | other names are those before, the saved page itself left out, and those the save brings, which stand for it with all that stood for them |
| Links.FoldIsQuotient | internal/pages/graph.go:40-59 | folding an alias maps pages, links and aliases to their images under alias to page, loops left out |
| Links.FoldUpsertCommute | internal/pages/graph.go:15-59 | folding an alias into one page and saving another page's links may change places |
| Links.SavesCommute | internal/pages/graph.go:72-96 | two independent saves, with any links and aliases, give the same graph in either order |
| Links.AnyOrderIff | internal/pages/graph.go:72-96 | the saves of two pages commute whatever links there are if and only if their names are disjoint and neither takes over another name without the page it is a name of |
| Links.TakenOverName | internal/pages/graph.go:30-36 | a save that takes over just the name does not commute with one that links to it |
| Links.CollidingClaims | internal/pages/graph.go:83-93 | saves that claim the same name, or each other's page, give different graphs in the two orders |
| Links.PageIdentity | internal/webcrawler/crawler_repo.go:305-316 | the page is what the server says, if that is a URL, else what was asked for; the alias is what was asked for if that is not the page |
| Links.AskedLeadsToPage | internal/webcrawler/crawler_repo.go:294-316 | once the page is saved, links to the URL asked for go to it |
| PageGraph.PageStore.DropAliasOfPage | internal/pages/graph.go:13 | a URL saved as a page is no alias any more |
| PageGraph.PageStore.MergePage | internal/pages/graph.go:16 | finds the one node of the URL or makes it |
| PageGraph.PageStore.UpsertPage | internal/pages/graph.go:15-28 | the page, its crawl, and links to what its links resolve to, none to itself |
| PageGraph.PageStore.MergeAliasNode | internal/pages/graph.go:40-64 | the alias node's edges move over, self-loops go, the newer crawl stays, the node is deleted |
| PageGraph.PageStore.RecordAliasOf | internal/pages/graph.go:30-36 | the alias and every alias of it point at the page |
| PageGraph.PageStore.SavePage | internal/pages/graph.go:72-96 | the stored graph changes as the graph it stands for, with one node for every URL |
| PageGraph.LatestCrawlSurvives | internal/pages/graph.go:54-58 | no later crawl of a page or of its aliases is lost, other pages keep theirs |
| GraphLaws.KeptCrawlIs | internal/pages/graph.go:54-58 | the crawl kept is the page's own or that of one of its aliases, none is later, and its own wins a tie; the aliases keep none |
| VectorStore.Store.Replace | internal/vectorstore/milvus.go:113-150 | each error exactly when, and success exactly when; then the rows are the replacement; when the store fails some batches are written, or all and some stale rows deleted, the failing write included or not |
| VectorStore.Store.UpsertAll | internal/vectorstore/milvus.go:125-129 | all rows are written if and only if the store lasts for every batch of 500; otherwise exactly the batches before it failed, and the failing one if it took effect |
| VectorStore.Store.StaleOf | internal/vectorstore/milvus.go:131-141 | exactly the stored ids that are not kept, once each |
| VectorStore.ReplacedIsExact | internal/vectorstore/milvus.go:113-150 | after a replacement the rows of the page are exactly the new ones and all others are as before |
| Index.VectorSink.Submit | internal/indexing/sink_vector.go:26-65 | succeeds exactly if the chunks are embedded and the store takes the rows; then the rows of the page are exactly its chunks, each with its own vector and the run of the document; rows that hold their own text's vector keep doing so; other pages never change |
| Index.ChunkingSink.Submit | internal/indexing/sink_chunking.go:35-69 | a document is skipped exactly if the hash read is of the same settings, title and content; else it succeeds exactly if its chunks are embedded and stored; a hash is recorded only after the rows are in, and exactly if that write takes effect |
| Index.ChunkerMakesThese | internal/chunker/chunker_paragraph.go:75-92 | the chunker's chunks carry their URL in different ids |
| Index.HashAgreesWithIndex | internal/indexing/sink_chunking.go:35-69 | after any submissions a stored hash is that of what is indexed, for every page whose last change was recorded |
| HashLaws.SameHashIff | internal/indexing/sink_chunking.go:82-85 | two documents have the same hash if and only if the same string is hashed, and then settings, title and content are equal |
| HashLaws.SameIDIff | internal/chunker/chunker_paragraph.go:251-254 | two chunks have the same id if and only if the same string is hashed |
| HashLaws.ZeroInTitle | internal/indexing/sink_chunking.go:82-85 | with a zero character in a title two different documents are hashed as the same string |
| Index.SubmittedIsIndexed | internal/indexing/sink_chunking.go:35-69 | a document whose submission succeeded is what is indexed, unless it was skipped over a hash left behind |
| Index.UnrecordedAgreesIff | internal/indexing/sink_chunking.go:35-69 | after an unrecorded last change the stored hash agrees with the index if and only if it is that of the change or neither version has chunks |
| Index.OldHashSurvives | internal/indexing/sink_chunking.go:56-66 | in any history, going back to the old version after an unrecorded change is taken for no change, and right exactly then |
| Index.GoingBackIff | internal/indexing/sink_chunking.go:35-69 | from an empty index: stored, replaced unrecorded, and submitted again, a version is what is indexed exactly then |
| Index.InterruptedAgreesIff | internal/vectorstore/milvus.go:125-147 | after an interrupted change of a page whose changes were recorded, the stored hash agrees with the index if and only if it is that of the change or no row of the page was written or deleted |
| Index.AgreesIffUntouched | internal/indexing/sink_chunking.go:52-66 | after any unrecorded and interrupted changes of another hash, if and only if no row of the page is changed |
| Index.InterruptionHarmsIff | internal/vectorstore/milvus.go:125-147 | an interruption can make them disagree if and only if the hashes differ and one of the versions has chunks |
| Index.HalfReplacedIsSkipped | internal/indexing/sink_chunking.go:35-69 | in any history, a recorded version, another one interrupted, and the first again: it is taken for unchanged over rows that are not its own |
| Index.HalfReplacedFromEmpty | internal/indexing/sink_chunking.go:35-69 | so from an empty index |
| AsyncSink.PagesInOrder | internal/indexing/sink_async.go:69-114 | documents of a page are handled in the order they were accepted, and after a drain all of them |
| AsyncSink.LastAcceptedIsIndexed | internal/indexing/sink_async.go:69-170 | after a drain the index holds the version accepted last, if indexing it succeeded |
| AsyncSink.CleanDrainIndexesLatest | internal/indexing/sink_async.go:69-170 | if nothing failed that holds for every page |
| AsyncSink.CanDrain | internal/indexing/sink_async.go:69-170 | once the queue is closed no worker is stuck: from every state all that was accepted can be handled and the workers go home |
| Metrics.SortDescending | internal/evaluation/metrics.go:80-85 | the array is sorted, best first, and holds the same grades |
| Metrics.IdealDCG | internal/evaluation/metrics.go:72-93 | the gain of the best k relevant grades of all judged pages |
| Metrics.Score | internal/evaluation/metrics.go:23-62 | the four scores in terms of the ranked grades and the ideal list |
| Metrics.CountRelevant | internal/evaluation/metrics.go:95-105 | the number of judged pages at or above the grade |
| Metrics.SortedIsBest | internal/evaluation/metrics.go:72-93 | no list drawn from the sorted grades is worth more than the best of them |
| Metrics.ScoresAreShares | internal/evaluation/metrics.go:23-62 | without duplicates among the first k, and with minRelevant at least 1 or one page listed, every score is in [0, 1], for any discount that does not increase |
| Metrics.ScoresAreSharesIff | internal/evaluation/metrics.go:23-62 | that is so for all judgements only then |
| Metrics.RecallIsShareIff | internal/evaluation/metrics.go:40-55 | recall of a list is in [0, 1] for all judgements if and only if at most one page is listed, or none twice and minRelevant is at least 1 |
| Metrics.NdcgIsShareIff | internal/evaluation/metrics.go:32-51 | nDCG is in [0, 1] for all judgements if and only if no page is listed twice among the first k |
| Metrics.DuplicatesExceedOne | internal/evaluation/metrics.go:32-51 | with a duplicate, grading every listed page 1 gives an nDCG above 1 |
| ScoreLaws.WorseFirst | internal/evaluation/metrics.go:23-93 | at k = 1, with pages judged low and high and the first listed, nDCG times 2^high - 1 is 2^low - 1, whatever the discount |
| ScoreLaws.EachGradeDoubles | internal/evaluation/metrics.go:64-70 | a grade of 0 or less gains nothing, and each further grade gains double and the discount |
| ScoreLaws.ListGainsItsParts | internal/evaluation/metrics.go:64-70 | a list gains what its parts gain, each page at its own position |
| ScoreLaws.PerfectRankingScoresOne | internal/evaluation/metrics.go:23-93 | listing all judged pages from best to worst has nDCG 1 at every k, if one of them is relevant and k is not 0 |
| ScoreLaws.MrrIs | internal/evaluation/metrics.go:32-48 | MRR is one over the position of the first relevant page, or 0; a page nobody judged has grade 0 |
| ScoreLaws.SharesAre | internal/evaluation/metrics.go:26-62 | recall is the number of listed positions with a relevant page over the number of relevant pages, the judged score the share of positions judged; both 0 of nothing |
| Retrieval.Pages | internal/retrieval/retrieval.go:155-169 | exactly the first hits of all URLs, in order, ranked from 1 |
| Retrieval.Fuse | internal/retrieval/retrieval.go:171-231 | the stable sort of one scored entry for each page of either list |
| Retrieval.StableSortSorts | internal/retrieval/retrieval.go:217-223 | the results are sorted by score, then best rank |
| Retrieval.StableSortIsStable | internal/retrieval/retrieval.go:217-223 | tied entries keep their order |
| Retrieval.ResultsAreTheUnion | internal/retrieval/retrieval.go:171-231 | result URLs are distinct and are the union of both lists |
| Retrieval.DominanceIsRespected | internal/retrieval/retrieval.go:202-231 | in hybrid mode a page ranked no worse in each list and better in one comes first |
| Retrieval.SingleListOrderKept | internal/retrieval/retrieval.go:202-243 | with one list whose scores do not rise the results are its pages in its order |
| FusionLaws.ResultIs | internal/retrieval/retrieval.go:171-231 | a result carries its page's ranks and scores; its score is 1 / (k + p) + 1 / (k + q) over the lists that have it, in the single modes that of its list |
| FusionLaws.BothAgainstOne | internal/retrieval/retrieval.go:202-223 | in hybrid mode a page at ranks p and q comes before one in one list at rank m if (2k + p + q) (k + m) > (k + p) (k + q), and behind it if the product is smaller |
| FusionLaws.TiesByBetterRank | internal/retrieval/retrieval.go:217-243 | results with the same score are ordered by the better of their ranks |
| FusionLaws.ResultShows | internal/retrieval/retrieval.go:171-248 | named by the dense list if that has the page, with the snippet of the list that ranks it higher, the dense one on a tie |
| FusionLaws.SnippetOfStored | internal/retrieval/retrieval.go:245-248 | what is stored for a chunk shows as the chunk if and only if the page has a title or the chunk does not begin with a blank line |
| Embedding.Decode | internal/embedding/openai.go:196-221 | accepts exactly the responses whose indices are in range and differ and whose vectors are not empty, and places each |
| Embedding.EverySlotFilled | internal/embedding/openai.go:206-220 | an accepted response puts exactly one vector, not an empty one, in every position |
| Embedding.AnyOrder | internal/embedding/openai.go:194-221 | the order of the items does not matter |
| Embedding.EmbedWithRetry | internal/embedding/openai.go:125-147 | the first answered attempt counts; fatal or malformed answers are not retried, nor is anything once the request is cancelled |
| Embedding.AnswersIff | internal/embedding/openai.go:125-147 | a batch gets items if and only if some attempt within the retries gives them, they are acceptable, and every attempt before was retryable and not followed by a cancellation |
| Embedding.BatchFailsIff | internal/embedding/openai.go:104-123 | a batch fails if and only if the texts at some multiple of the batch size get no answer |
| Embedding.Embed | internal/embedding/openai.go:104-123 | vector i is that of text i for every batch size, all of equal dimensions; it fails exactly if one of the batches sent gets no answer within its retries and before the request is cancelled |
| Embedding.ConsistentDimensions | internal/embedding/openai.go:223-231 | accepts exactly lists of vectors of one dimension |

## Left out

- Network, clocks and services: Kafka, Redis, Neo4j, Milvus, HTTP, logging, tracing, configuration; each script, query or call is one atomic step with a chosen outcome.
- Expiry of the run's Redis keys is modelled as a step that removes all three keys at once.
- A crash of a node with unflushed payloads is a step `Dropped` for each of them and then the crash, which needs the node's buffer empty. What the tracker of a crashed node still holds may go on to be committed, which the code excludes.
- Two workers holding the same task: the code does not guard against it, and `ExactCondition` shows that termination needs it.
- Narrow.ExactCondition: takes for granted that workers may start on tasks that are queued and sent.
- Malformed messages and the one-shot acknowledgement of a task: easy members.
- Worker.HandlingIsAPath: is about one worker left alone with the clock standing still; other workers and the clock move in `Protocol`, where every call is a step of its own.
- Waiting for a run slot, re-queueing of runs and acknowledging run messages: a run message is a step that may occur at any time.
- Robots rules, fetching, parsing, caching and the saver channel: a page either fails or gives any list of links.
- Canonicalisation of URLs: an unknown function.
- Links.PageIdentity: uses "" for the failure of canonicalisation, because a canonical URL is never empty.
- Merging of redirects and re-canonicalising at start, which do not drop aliases first.
- PageGraph.PageStore.SavePage: does not model the found-at time of a node; a crawl stands for the other properties.
- Chunker.MakeChunks: takes a document; the nil document, for which the code returns nothing, is not a value here.
- HashLaws.SameHashIff: leaves out titles and fingerprints with a zero character, for which the code hashes the same string twice and the model does not.
- HashLaws.SameIDIff: leaves out URLs with a zero character.
- Index.VectorSink.Submit: does not model the host and the time of indexing of a row.
- Index.ChunkingSink.Submit: takes a document, and leaves out the counters and the nil check.
- Submissions that race with the shutdown of the queue, and the deadline of the shutdown.
- Submissions of different pages interleave batch by batch in the code; here each takes effect at once. They touch rows of different pages only, as `Index.VectorSink.Submit` states.
- VectorStore.Store.DeleteAll: does not check again that ids are hexadecimal, because only stored ids reach it and those were checked when written.
- Retrieval.Fuse: entries shared by a map and a list of pointers are positions in the list here, so aliasing is not modelled.
- The library's stable sort is modelled by insertion; sorting by any other stable method gives the same list.
- Embedding.EmbedWithRetry: does not model how long the pauses are.
- Means of scores over queries: an easy member.
- Floating point: rounding of scores and of the ideal gain is not modelled.
- The JavaScript link finder and removal of boilerplate: heuristics without a promise.
