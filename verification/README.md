# WorkChat Bot: a verified model

WorkChat Bot answers questions that employees send to a WeCom application. A gateway accepts the
callback and queues a request, a dispatcher asks the agent for an answer and queues its completion, and
an outbound worker sends the answer back. The agent retrieves chunks of documents, lets a language model
write an answer with numbered citations, and stores it. Documents are uploaded, split into chunks,
embedded, activated, deactivated and re-embedded by a job queue.

This project models that behaviour in Dafny and proves what it keeps:

* **The pipeline** (`Identity`, `QueryRuns`, `Fingerprints`, `Outbound`, `Pipeline`). Every SQL transaction,
  publication, acknowledgement and send is one atomic step. Any number of processes take steps in any
  order, each may stop between two of them, callbacks are repeated and race, and an entry that is not
  acknowledged may be handed out again at any time. A run is a list of steps, and a step that cannot be taken changes nothing.
  The agent's and the outbound worker's systems are proved on their own and then composed. The text of a
  callback is followed from the message that is stored for it to the run that answers it.
* **The programs of the pipeline** (`Ingress`, `QueryService`, `OutboundWorker`): the handler, store and
  worker methods statement by statement, with rollback, each proved to be a transaction or a run of these steps.
* **Documents** (`Documents`, `Ingestion`): three tables that uploads, activation and re-embedding keep
  consistent, with sources that are read in two steps and applied at any later time.
* **Re-embedding jobs** (`ReindexJobs`, `ReindexWorker`, `ReindexSystem`): a queue of leases with a clock, the
  worker, and the queue and the documents together under any interleaving.
* **The text algorithms** (`Citations`, `Chunking`, `Fusion`, `Texts`, `Utf8`, `WeComText`).
* **The callback envelope** (`Base64`, `Envelope`), with the encoder of the tests as its inverse.

Shared types are in `Wrappers.dfy` (modules `Wrappers`, `RowIds` and `Octets`). `dafny verify dfyconfig.toml`
checks everything.

Some properties that one might expect fail, and for each the project states exactly when they hold:

* **SENT is not final with two workers** (`Outbound.SentIsNotFinalWithTwoWorkers`), because neither
  `MarkOutboundFailed` nor `MarkOutboundSent` has a status guard. `Outbound.SentIsFinalExactly`: from a
  state on, a SENT row stays and nothing more is sent for it, whatever workers do, if and only if no worker
  of that event stands between its claim and its mark (one that marks the same message ID again is harmless).
* **Ended jobs, single holders and single active jobs fail for workers that outlive their lease**
  (`ReindexJobs.LapsedWorkerRevivesAJob`, `ReindexJobs.LapsedWorkerSharesAJob`). The guard that is missing
  from the updates of a worker is one on the row: IN_PROGRESS with the worker's own `attempt`.
  `ReindexJobs.FencedKeepsPromises`: with it all three hold in every run, with no premise about the clock.
  `ReindexJobs.ProgressKeepsLeasesExactly`: without it progress breaks the leases, and
  `ReindexJobs.PromisesExactly` says of whole runs which steps break what, in both directions.
* **Jobs are claimed more than `max_attempts` times when workers crash**
  (`ReindexJobs.CrashesAreNotBounded`). `ReindexJobs.PromisesExactly`: the bound holds throughout a run if
  and only if no job is claimed whose `attempt` has reached `max_attempts`.
* **Found by both channels does not always come before found by one.** The settings allow 100 results a
  channel (`agent/src/agent/settings.py:45-46`). `Fusion.BothWinsExactly` gives the exact condition on the
  two lengths; with the constant 60 it holds up to 61 each (`Fusion.SixtyOneIsTheMost`).

Two functions do less on their own than one might expect, where it does no harm:

* `_embed_in_batches` does not check the size of each batch of vectors, as the re-embedding worker does
  (`Ingestion.AlignedExactly`, `Ingestion.ReindexChecksBatches`, `Ingestion.ShiftedBatchesAreAccepted`).
  Uploads rely on the client, which checks every response (`agent/src/agent/adapters/models.py:68`):
  `Ingestion.UploadsAreAligned`.
* `truncateUTF8` cuts text that is not valid UTF-8 shorter than it need be
  (`WeComText.InvalidBytesAreLost`): the cut is the longest run of runes that fits if and only if that run
  fits with three bytes for each invalid one (`WeComText.TruncatedExactly`). Answers come from a text column
  of PostgreSQL and are valid, and then the cut is the longest (`WeComText.CutIsLongest`).

Where the code and the documentation differ, the model follows the code: long answers are cut to one
message of 2000 bytes (`internal/outbound/format.go:31-39`), while `docs/go-gateway-api-v1.0.md:1308`
describes splitting them over several messages.

## Model

| member | source | states |
|---|---|---|
| `Pipeline.NothingIsLost` | cmd/dispatcher/main.go:125-185 | In every reachable state a callback that is marked as queued has an unacknowledged request event, or an unacknowledged completion event with its stored answer, or that answer was sent to the user who asked. |
| `Pipeline.EverySendAnswersACallback` | internal/store/postgres.go:92-171 | Whatever is sent to anyone answers a callback that came in: it goes to the user with the sender's ID and is the stored answer of a run that was claimed for that user, in that user's conversation, with the text of the callback as its question. |
| `Pipeline.QuestionIsTheCallbacks` | internal/store/postgres.go:92-171 | The row of a callback ID belongs to a callback that came in with it, and at all later times its USER message has that callback's text, its sender and the sender's conversation. |
| `Pipeline.OneRequestPerCallback` | internal/store/postgres.go:83-171 | Once a callback ID has a row, the row keeps its request, message, user and conversation for ever, no other committed insert belongs to that ID, and every handler of it works with that row. |
| `Pipeline.OneDeliveryPerRequest` | cmd/dispatcher/main.go:152-171 | All completion events of a request agree on event ID, message, recipient and channel, and two delivery rows for one request are the same row. |
| `Pipeline.NothingIsDiscarded` | cmd/dispatcher/main.go:131-150 | Every event the services publish validates, no worker is ever about to discard one as poison, and the agent's answer always passes the dispatcher's identity check. |
| `Pipeline.AcknowledgedCompletionWasSent` | cmd/outbound/main.go:121-177 | An acknowledged completion means that the stored answer of its request was sent to the user who asked. |
| `Pipeline.EverySendIsTheAnswer` | cmd/outbound/main.go:146-160 | Every send there ever was carries the stored answer of its request and goes to the user who asked. |
| `Pipeline.TakenEntryIsAsked` | cmd/dispatcher/main.go:136-147 | What `LoadQuestion` reads for a gateway's event is what its callback asked: its text, user, conversation and channel; and the identity check passes. |
| `Pipeline.EntryCanBeTaken` | internal/store/postgres.go:188-215 | For every entry that is not acknowledged `LoadQuestion` finds what its callback asked, and the checks pass, so the entry can be processed. |
| `Pipeline.AnswerNamesMessage` | cmd/dispatcher/main.go:144-150 | What the agent returns for a callback's question names the stored ASSISTANT message of its run, and the run was claimed for that question. |
| `Pipeline.StepKeepsInv` | internal/queue/redis.go:63-113 | Every step of every process, and every crash and redelivery, keeps the invariant over tables, streams and processes. |
| `Pipeline.InsertKeepsInv` | internal/store/postgres.go:92-165 | The committed transaction of a new callback keeps the invariant over all tables and processes. |
| `Ingress.InboundStore.FindInbound` | internal/store/postgres.go:360-390 | In a state of the invariant a row that is found belongs to its request and message, and every handler of the callback ID that has a row works with that one; if none is found, no handler has one. |
| `Ingress.InboundStore.InsertInbound` | internal/store/postgres.go:92-170 | The transaction commits exactly when the sender is not disabled and the key is new, and then the message has the callback's text, from the active user with the sender's ID in his WeCom conversation; otherwise everything is rolled back, and a conflict means that the row is there. |
| `Ingress.InboundStore.MarkInboundQueued` | internal/store/postgres.go:173-186 | Marks the rows of a request as queued, and succeeds exactly when there is one. |
| `Ingress.MarksItsOwnRow` | internal/store/postgres.go:173-186 | In every state of the invariant, marking a callback's request affects exactly that callback's row. |
| `Ingress.Gateway.Handle` | internal/httpapi/router.go:172-221 | One pass of the callback handler, with any of its calls failing, is a run of its own steps. In reachable states: a new callback of a sender who is not disabled, or one whose row is not queued, gets its event published exactly if publishing succeeds, and success is answered exactly if marking succeeds too; otherwise nothing is published, and the answer is as the row or the sender demands. |
| `Ingress.Gateway.PublishAndMark` | internal/httpapi/router.go:193-221 | The event of the row is published exactly if publishing succeeds, the row keeps what it says, and in reachable states success is answered exactly if both calls succeed. |
| `Ingress.Dispatch.ProcessOne` | cmd/dispatcher/main.go:125-185 | One pass is a run of the dispatcher's own steps. In reachable states a completion is published exactly if the question can be loaded, the agent has answered it and publishing succeeds; it names the message of that answer; and the entry is acknowledged exactly if that and acknowledging succeed. |
| `QueryRuns.ReturnsOfOneRequestAgree` | agent/src/agent/adapters/repository.py:912-1025 | Any two successful returns for one request ID, fresh or replayed, are the same answer with the same ordered citations, to the same request. |
| `QueryRuns.FinishedRunsAreFinal` | agent/src/agent/adapters/repository.py:1087-1197 | An ASSISTANT message exists exactly when the run is completed; it belongs to the run's user and refuses exactly if the status says so; the run's result names it; and status, result, message and citations never change afterwards. |
| `QueryRuns.MessagesStayWithTheirUser` | agent/src/agent/adapters/repository.py:912-1025 | In every reachable state each message is in a conversation of its own tenant and user, and that conversation is no other user's, whoever asks for which conversation. |
| `QueryRuns.ClaimedExactly` | agent/src/agent/adapters/repository.py:926-1010 | A claim succeeds exactly for an active user who names no conversation or an active one of his own, if the request is new, or came with the same input and is answered, failed for now or silent for 30 seconds; an answered one is replayed; and what each error means. |
| `QueryRuns.FreshClaimLeaves` | agent/src/agent/adapters/repository.py:950-1024 | A claim that is not a replay leaves a run in progress, one attempt further, in the conversation asked for or the user's own of the channel, and the question as its message unless it has one; all other rows stay. |
| `QueryRuns.PersistLeaves` | agent/src/agent/adapters/repository.py:1087-1182 | What a stored answer leaves and returns: text, user, conversation, refusal, and the status of the run that goes with it. |
| `QueryRuns.PersistedAnswerReadsBack` | agent/src/agent/adapters/repository.py:1366-1417 | What `persist_answer` returns is what `_load_answer` reads back from the rows. |
| `QueryRuns.AnswerIsStable` | agent/src/agent/adapters/repository.py:1366-1417 | A stored answer reads the same after every later transaction. |
| `Fingerprints.TextIsInjective` | agent/src/agent/application/query.py:204-213 | Two requests have the same text under the digest exactly if they have the same tenant, user, conversation, question, set of knowledge bases and channel. |
| `Fingerprints.QuestionIsFree` | agent/src/agent/application/query.py:197-201 | A normalized question never contains the character that the fields are joined by. |
| `Fingerprints.NormalizedExactly` | agent/src/agent/application/query.py:197-201 | Normalizing a question keeps its words, and two questions have one normal form exactly if they have the same words. |
| `Fingerprints.SortedIsUnique` | agent/src/agent/application/query.py:210 | A set of IDs has one sorted list. |
| `QueryRuns.StepKeepsInv` | agent/src/agent/application/query.py:88-154 | Every step of every execution keeps the invariant, and takes back no message, finished run or citation. |
| `QueryRuns.AcceptedIsPersisted` | agent/src/agent/adapters/repository.py:1126-1163 | An accepted answer fails to be stored exactly if there is an answer already, and its k-th citation row is the candidate that the k-th index names. |
| `QueryRuns.MarkersNameTheirCandidates` | agent/src/agent/adapters/repository.py:1126-1163 | Every marker of the stored text names, through its citation row, the candidate that it named in the text before renumbering; all other characters are unchanged. |
| `QueryService.Repository.ClaimQuery` | agent/src/agent/adapters/repository.py:912-1025 | The transaction gives what the specification gives: replay, takeover after 30 seconds, a fresh run, or an error that rolls everything back. |
| `QueryService.Repository.LoadAnswer` | agent/src/agent/adapters/repository.py:1366-1417 | Reads the answer with its citations by index, or fails for a missing result or message. |
| `QueryService.Repository.PersistAnswer` | agent/src/agent/adapters/repository.py:1087-1182 | Stores message, citations and outcome together, or nothing. |
| `QueryService.Repository.InsertCitations` | agent/src/agent/adapters/repository.py:1126-1163 | Appends one numbered row per index and returns the same list, or fails without a row if some index has no candidate. |
| `QueryService.Repository.MarkRetryableFailure` | agent/src/agent/adapters/repository.py:1184-1197 | Only a run in progress becomes retryable. |
| `QueryService.Service.Answer` | agent/src/agent/application/query.py:88-154 | One execution is a run of its own steps. It succeeds exactly if the request may be claimed and is answered already or the model's answer is sound; then it returns the stored answer or what the model's answer says; and after a failed dependency the same request can be claimed again at once. |
| `Outbound.AcknowledgedMeansSent` | cmd/outbound/main.go:134-177 | Under any interleaving an acknowledged completion for WeCom was sent, whatever was sent is a completion for WeCom, SENT is only said of an answer that was sent, and a row's `attempt` is its number of claims. |
| `Outbound.SendsAreClaimed` | internal/store/postgres.go:268-316 | Under any interleaving, with any number of workers on an event, its successful sends are at most its claims, which is the row's `attempt`. |
| `Outbound.DuplicateSendsAreBounded` | cmd/outbound/main.go:146-170 | With one worker per event, the successful sends of an answer are at most one more than the sends whose mark did not commit. |
| `Outbound.SentIsFinal` | internal/store/postgres.go:268-358 | With one worker per event, a SENT row never changes again and nothing is sent after it. |
| `Outbound.SentIsFinalExactly` | internal/store/postgres.go:268-358 | From a reachable state with a SENT row, the row stays and nothing more is sent for its event in all runs, with any number of workers, exactly if no worker of the event is loading, posting, recording a failure or about to mark another message ID. |
| `Outbound.RunStaysExactly` | internal/store/postgres.go:268-358 | The SENT row and the number of sends are the same at every point of a run exactly if none of its steps overwrites or sends. |
| `Outbound.SentIsNotFinalWithTwoWorkers` | internal/store/postgres.go:349-353 | A run of two workers on one event in which a SENT row becomes RETRYABLE_FAILED. |
| `Outbound.StepKeepsInv` | cmd/outbound/main.go:121-194 | Every step keeps: acknowledged entries are discharged, rows come from events, and sends carry what an event of their key carries. |
| `OutboundWorker.Outlet.ClaimOutboundDelivery` | internal/store/postgres.go:268-316 | Upserts the row and claims it for one more attempt unless it is SENT. |
| `OutboundWorker.Outlet.MarkOutboundSent` | internal/store/postgres.go:318-337 | Marks an existing row SENT with the external ID, and fails for a missing one. |
| `OutboundWorker.Outlet.MarkOutboundFailed` | internal/store/postgres.go:339-358 | Marks an existing row for retry, whatever its status. |
| `OutboundWorker.Outlet.ProcessOne` | cmd/outbound/main.go:121-194 | For every combination of failing calls: the row, the history and the acknowledgement that one pass leaves, and that the pass is a run of the worker's own steps. |
| `Documents.StepKeepsInv` | agent/src/agent/adapters/repository.py:1199-1364 | Uploads, activations, re-embeddings, index changes and deletion marks keep all parts of the invariant over documents, versions and chunks. |
| `Documents.OneCurrentVersion` | agent/src/agent/adapters/repository.py:1252-1319 | In every reachable state a document has exactly one current version, the one it names, and its versions are numbered 1 to n with the current one last. |
| `Documents.SavedExactly` | agent/src/agent/adapters/repository.py:1199-1364 | An upload is saved exactly if the counts agree, the base exists and is enabled, the document is new or of that base, the version's ID is new and every vector fits; each error says which of these fails first, and leaves the tables alone. |
| `Documents.NextVersion` | agent/src/agent/adapters/repository.py:1255-1335 | A saved upload is the current version, numbered one more than the one that was current before, which is still there and no longer current; the first one of a document has number 1. |
| `Documents.SetExactly` | agent/src/agent/adapters/repository.py:375-439 | A document is activated exactly if it is not deleted and its current version has the active index of its base, and deactivated whenever it is not deleted; only its status and the flags of its chunks change. |
| `Documents.HeadReadExactly` | agent/src/agent/adapters/repository.py:682-706 | The source of a re-embedding is that of the current version, with the active index of the base, exactly for documents that are ready or disabled. |
| `Documents.RetrievalIsAllOrNone` | agent/src/agent/adapters/repository.py:87-118 | A search admits all chunks of a ready document's current version or none, never one of an old version and none of a disabled document; the chunk's own state decides it but for deletions and disabled bases. |
| `Documents.ActivationDecides` | agent/src/agent/adapters/repository.py:375-439 | After an activation a search admits exactly the chunks of the document's current version, after a deactivation none. |
| `Documents.UploadIsFound` | agent/src/agent/adapters/repository.py:1199-1364 | After an upload a search admits exactly the new chunks of the document. |
| `Documents.ReindexIsFound` | agent/src/agent/adapters/repository.py:741-811 | After a stored re-embedding all chunks of a ready document's version are admitted exactly if the index read with its source is still the active one. |
| `Documents.AppliedExactly` | agent/src/agent/adapters/repository.py:741-811 | Vectors are stored exactly if the version is still the current one of a live document and there is one vector of the right size per chunk; the final count never fails. |
| `Documents.AppliedToEach` | agent/src/agent/adapters/repository.py:765-800 | A successful application gives exactly the chunks of the version their own vectors and the source's index, and leaves all others. |
| `Documents.StaleSourcesAreRefused` | agent/src/agent/adapters/repository.py:741-811 | The same for any source read at any earlier time of a run: refused and without effect once the version changed, stored for each chunk otherwise. |
| `Documents.SupersededForGood` | agent/src/agent/adapters/repository.py:1280-1296 | A version that is no longer current never becomes so again, and its vectors are refused for ever. |
| `Documents.SavedTextIsRead` | agent/src/agent/adapters/repository.py:682-726 | Whatever happens after an upload, the source read for its version is the uploaded chunks in their order. |
| `Documents.Repository.SaveDocument` | agent/src/agent/adapters/repository.py:1199-1364 | Row by row in the order of the source; after an error in any of them all three tables are rolled back, and otherwise they and the result are the specified ones. |
| `Documents.Repository.LastNumber` | agent/src/agent/adapters/repository.py:1262-1270 | The highest version number of a document, 0 if there is none. |
| `Documents.Repository.SetDocumentActive` | agent/src/agent/adapters/repository.py:375-439 | Activates the chunks of the current version, if its index is the active one, or deactivates all. |
| `Documents.Repository.ListChunks` | agent/src/agent/adapters/repository.py:708-718 | Lists exactly the chunks of a version, each once, by ordinal. |
| `Documents.Repository.GetReindexSource` | agent/src/agent/adapters/repository.py:682-726 | The current version of a live document with all its chunks, or the error for a missing document, version or chunk. |
| `Documents.Repository.ApplyDocumentEmbeddings` | agent/src/agent/adapters/repository.py:741-811 | The loop of updates gives the specified tables, and every failure rolls them back. |
| `Ingestion.Uploader.Ingest` | agent/src/agent/application/ingestion.py:60-143 | An upload succeeds exactly if its text gives chunks and embeddings, its file is stored, and the base is open to its document; then the chunks are the current version and the file is kept; otherwise no table changes, and a file is left behind only if deleting it fails. |
| `Ingestion.ChunksOfExactly` | agent/src/agent/application/ingestion.py:85-99 | A text gives chunks exactly if it is not too long, the settings are right and some character is not white space. |
| `Ingestion.EachChunkItsOwn` | agent/src/agent/application/ingestion.py:145-151 | With a pointwise service the batches of an upload give each chunk its own vector. |
| `Ingestion.AlignedExactly` | agent/src/agent/application/ingestion.py:145-151 | For every service and every accepted upload, the chunks of each batch have the vectors that the service gave for that batch exactly if each call gave one vector per text. |
| `Ingestion.ReindexChecksBatches` | agent/src/agent/application/reindex.py:183-197 | The batched loop of the re-embedding worker makes of the same answers the same vectors if all batches are full, and fails otherwise. |
| `Ingestion.UploadsAreAligned` | agent/src/agent/adapters/models.py:58-77 | Whatever the embedding server answers from call to call: the vectors of an upload that come through the client stand at the chunks they were computed for, because the client counts them. |
| `Ingestion.ShiftedBatchesAreAccepted` | agent/src/agent/application/ingestion.py:145-151 | The loop itself does not see to it: from a service that does not count, two batches of any two wrong sizes that add up are accepted, and then the upload is not aligned. |
| `ReindexJobs.AttemptsAreClaims` | agent/src/agent/adapters/repository.py:635-680 | In every run, disciplined or not, `attempt` is the number of claims of the job. |
| `ReindexJobs.FailureLeaves` | agent/src/agent/adapters/repository.py:829-871 | A failure leaves the job to be retried exactly if the worker was stopped or an error leaves attempts, due at once or in `retry_seconds`; otherwise it has failed and is never due. |
| `ReindexJobs.RetryWaits` | agent/src/agent/adapters/repository.py:829-871 | In every fenced run a job to be retried stays as it is until its time, and can be claimed from then on. |
| `ReindexJobs.OneHolder` | agent/src/agent/adapters/repository.py:635-680 | If workers touch jobs only within their leases, at most one worker holds a job and a document has at most one active job. |
| `ReindexJobs.EndedIsFinal` | agent/src/agent/adapters/repository.py:813-871 | Under the same premise the row of a SUCCEEDED or FAILED job never changes. |
| `ReindexJobs.LapsedWorkerRevivesAJob` | agent/src/agent/adapters/repository.py:829-855 | Without it, a run in which a finished job becomes active again beside a newer one of its document. |
| `ReindexJobs.LapsedWorkerSharesAJob` | agent/src/agent/adapters/repository.py:728-739 | Without it, a run in which two workers have unexpired leases on one job, because a lapsed one reported progress. |
| `ReindexJobs.PromisesExactly` | agent/src/agent/adapters/repository.py:635-871 | In every run: ended jobs stay as they are, jobs have at most one holder, documents at most one active job, and jobs at most `max_attempts` claims, at all times, each exactly if no step is one of those that break it; the last, exactly if no job is claimed whose `attempt` has reached `max_attempts`. |
| `ReindexJobs.FencedKeepsPromises` | agent/src/agent/adapters/repository.py:728-871 | If workers report only on rows that are IN_PROGRESS with their own `attempt`, then ended jobs stay as they are, jobs have at most one holder and documents at most one active job, whatever the clock does and whichever leases run out. |
| `ReindexJobs.ProgressKeepsLeasesExactly` | agent/src/agent/adapters/repository.py:728-739 | Progress on a job in progress keeps the leases consistent (only the worker of the last claim may hold the row's lease) exactly if the row has the worker's own `attempt`. |
| `ReindexJobs.DisciplinedIsFenced` | agent/src/agent/application/reindex.py:112-170 | Workers that touch jobs only within their leases are fenced in this way throughout. |
| `ReindexJobs.OneActiveExactly` | agent/src/agent/adapters/repository.py:829-871 | One step leaves at most one active job per document exactly if it does not put an ended job back whose document has an active one. |
| `ReindexJobs.FailureKeepsOneActive` | agent/src/agent/adapters/repository.py:829-871 | Recording a failure keeps one active job per document exactly if it ends the job, or the job was active, or no other is. |
| `ReindexJobs.RetriesAreBounded` | agent/src/agent/application/reindex.py:112-170 | If each outcome is recorded within its lease and no worker is lost or stopped, a job is claimed at most `max_attempts` times and has then ended unless it is held. |
| `ReindexJobs.CrashesAreNotBounded` | agent/src/agent/adapters/repository.py:635-680 | With workers that crash, a job can be claimed any number of times, because a claim does not look at `attempt`. |
| `ReindexJobs.JobTable.EnqueueJobs` | agent/src/agent/adapters/repository.py:534-566 | Queues one job for each document without an active one; queued and already queued add up to the documents, which then all have one. |
| `ReindexJobs.JobTable.EnqueueJob` | agent/src/agent/adapters/repository.py:873-910 | A new job exactly if the document has no active one. |
| `ReindexJobs.JobTable.ClaimJob` | agent/src/agent/adapters/repository.py:635-680 | Takes some claimable job for one more attempt, and none only if there is none. |
| `ReindexJobs.JobTable.UpdateStage` | agent/src/agent/adapters/repository.py:728-739 | Extends the lease by two minutes if the job is in progress. |
| `ReindexJobs.JobTable.CompleteJob` | agent/src/agent/adapters/repository.py:813-827 | Ends the job as SUCCEEDED, without a guard. |
| `ReindexJobs.JobTable.FailJob` | agent/src/agent/adapters/repository.py:829-871 | Puts the job back with a delay or ends it as FAILED, without a guard. |
| `ReindexWorker.OneVectorEach` | agent/src/agent/application/reindex.py:172-202 | If building the embeddings succeeds there is one vector of the right size per chunk. |
| `ReindexWorker.BatchesDoNotMatter` | agent/src/agent/application/reindex.py:183-197 | With a pointwise service the result is that of embedding each chunk alone, for any batch size, and fails exactly if a vector has the wrong size. |
| `ReindexWorker.VectorsForEach` | agent/src/agent/application/reindex.py:172-202 | With a pointwise service, building succeeds exactly if the service is on, there are chunks and every vector has the right size, and gives each chunk its own. |
| `ReindexWorker.Worker.BuildEmbeddings` | agent/src/agent/application/reindex.py:172-202 | The batched loop gives the specified vectors or failure, and reports its progress while it keeps the job. |
| `ReindexWorker.Worker.RunOnce` | agent/src/agent/application/reindex.py:112-170 | A run takes a job exactly if one is due, and completes it exactly if every chunk of the document got the service's vector for it; otherwise the documents are untouched and the reason for the failure is right. |
| `ReindexSystem.SucceededMeansStored` | agent/src/agent/application/reindex.py:112-170 | Under any interleaving of workers, crashes, lapsed leases, uploads and activations: a SUCCEEDED job had vectors stored for all chunks of the version that was then its document's current one, each its own and no others. |
| `ReindexSystem.StepKeepsInv` | agent/src/agent/application/reindex.py:112-170 | Every step of queue, documents and workers keeps: what a worker has read is a genuine source of its job's document, and whoever is about to report success has stored it. |
| `Citations.AcceptedExactly` | agent/src/agent/application/query.py:232-262 | An answer is accepted exactly if it refuses, or cites something and only candidates in range; the lookup in `mapping` never misses. |
| `Citations.StructuredIndexesAreCited` | agent/src/agent/application/query.py:232-268 | An answer without markers is accepted exactly if it has structured indexes and all are in range; then each is cited once, in the order of first appearance, and the text is followed by the markers 1 to n. |
| `Citations.MarkersAreCited` | agent/src/agent/application/query.py:232-268 | An answer with markers is accepted exactly if all are in range, whatever its structured indexes are; then each value is cited once, in the order of first appearance, and nothing but the numbers changes. |
| `Citations.RefusalsCiteNothing` | agent/src/agent/application/query.py:232-243 | A refusal is accepted with its text, without citations, and with an allowed reason. |
| `Citations.MarkersAreRecognized` | agent/src/agent/application/query.py:22 | The scanner finds a marker exactly where the pattern matches: bracket, number with white space around it, bracket; and it reads that number. |
| `Citations.RewrittenAnswerRescans` | agent/src/agent/application/query.py:244-268 | Scanning the rewritten answer finds the same text between the markers, each marker names through the indexes what it named before, and the markers first appear as 1 to n. |
| `Citations.RescanRenamed` | agent/src/agent/application/query.py:259-268 | Renaming the markers of a text neither makes nor breaks a match of the citation pattern. |
| `Citations.AppendedScan` | agent/src/agent/application/query.py:244-257 | Markers appended to an answer without any are found again, and nothing else is. |
| `Citations.RenumberingIsIdempotent` | agent/src/agent/application/query.py:244-268 | A successful result with its indexes replaced by 1 to n is accepted again and returned unchanged. |
| `Chunking.SplitText` | agent/src/agent/application/ingestion.py:193-217 | The loop gives the chunks of the windows over the normalized text, and fails exactly if the overlap is not less than the size. |
| `Chunking.WindowsCover` | agent/src/agent/application/ingestion.py:200-216 | The windows start at the front, leave no gap, overlap by at most `overlap`, are no longer than the size, all but the last longer than half of it, and reach the end. |
| `Chunking.WindowsEndRight` | agent/src/agent/application/ingestion.py:200-216 | Each window ends at the end of the text if it reaches it, or behind the last separator of its second half, or has its full length; the next starts `overlap` before its end, or one further than it. |
| `Chunking.ChunksInOrder` | agent/src/agent/application/ingestion.py:193-217 | The chunks are the stripped texts of the windows in their order, without the empty ones and those that repeat the chunk before. |
| `Chunking.EveryCharacterIsInAChunk` | agent/src/agent/application/ingestion.py:193-217 | Every character that is not white space lies in a piece of the text that is among the chunks, in spite of stripping and of dropped repetitions. |
| `Chunking.EveryChunkIsAPiece` | agent/src/agent/application/ingestion.py:193-217 | Every chunk is a non-empty piece of the normalized text, no longer than the size, and differs from the one before. |
| `Chunking.ChunkCountIsLinear` | agent/src/agent/application/ingestion.py:200-216 | With an overlap of at most half the size, (windows - 1) * (size / 2 + 1 - overlap) is less than the length, and there are no more chunks than windows. |
| `Chunking.NormalizedIsClean` | agent/src/agent/application/ingestion.py:196-199 | The normalized text has no carriage return, tab, pair of blanks or three line feeds in a row. |
| `Chunking.NormalizedHasTheWords` | agent/src/agent/application/ingestion.py:196-199 | Normalization takes no word away, joins none and breaks none. |
| `Fusion.Rrf` | agent/src/agent/application/query.py:216-229 | Returns the first min(limit, size of the union) IDs by exact reciprocal-rank sum and then ID, each with its first candidate; nothing dropped precedes anything kept. |
| `Fusion.BothBeatsOne` | agent/src/agent/application/query.py:216-229 | With distinct IDs, and lengths of the channels at which two last ranks together outweigh a first one, what both channels found precedes what one found. |
| `Fusion.BothComeFirst` | agent/src/agent/application/query.py:216-229 | The same for the places in the returned list. |
| `Fusion.BothWinsExactly` | agent/src/agent/application/query.py:216-229 | For channels of m and n entries and any constant k > 0: found by both precedes found by one, whatever the channels hold, exactly if (k + 1) (2k + m + n) > (k + m) (k + n). |
| `Fusion.SixtyOneIsTheMost` | agent/src/agent/application/query.py:216-229 | With k = 60 that is so for channels of at most 61 entries each, and not for two of 62. |
| `Fusion.BeforeIsAnOrder` | agent/src/agent/application/query.py:228 | The sort key is a strict total order on the IDs. |
| `WeComText.FormatWeComText` | internal/outbound/format.go:13-40 | The builder loop and the cuts give the specified message. |
| `WeComText.FormattedFits` | internal/outbound/format.go:11-40 | The message has at most 2000 bytes for all inputs, valid or not. |
| `WeComText.FormattedIsValid` | internal/outbound/format.go:13-66 | The message is valid UTF-8 whenever the answer and the citations are. |
| `WeComText.SourcesSurvive` | internal/outbound/format.go:31-39 | For all bytes: sources of less than 1996 bytes are kept whole, behind all of the trimmed answer or a front part of it that fits and the ellipsis. |
| `WeComText.SourcesSay` | internal/outbound/format.go:15-29 | Behind the heading there is one line for each citation, in their order, with its number and the words of its title and of its locator, cut to 80 runes each. |
| `WeComText.LongSourcesAreCut` | internal/outbound/format.go:34-36 | With longer sources the message is the longest front of answer and sources that fits. |
| `WeComText.AnswerIsCutLast` | internal/outbound/format.go:31-39 | What is kept of a valid answer that is cut is its longest prefix of whole characters that fits beside the ellipsis and the sources. |
| `WeComText.CutIsLongest` | internal/outbound/format.go:50-66 | The cut of a valid text is its longest prefix of whole characters within the limit. |
| `WeComText.TruncatedExactly` | internal/outbound/format.go:50-66 | For all bytes and limits the result is the longest run of decoded runes that fits exactly if the text fits or that run fits with three bytes for each invalid byte. |
| `WeComText.FittingIsLongest` | internal/outbound/format.go:50-66 | That run is a prefix within the limit, and the next rune no longer fits. |
| `WeComText.CompactIsShort` | internal/outbound/format.go:42-48 | A compacted text has at most the allowed number of runes and stays valid. |
| `WeComText.CompactShortens` | internal/outbound/format.go:42-48 | Compacting gives the words with single blanks between them, and of more than the allowed runes the front and an ellipsis. |
| `WeComText.TrimSpaceTrims` | internal/outbound/format.go:14 | Trimming a valid text takes the white space off its ends and nothing else. |
| `WeComText.FieldsKeepTheRest` | internal/outbound/format.go:43 | The words of a valid text are not empty, have no white space, and are together all of it but the white space. |
| `Utf8.ValidExactly` | internal/outbound/format.go:50-66 | Decoding rune by rune accepts exactly the encodings of sequences of scalar values. |
| `Base64.RoundTrip` | internal/wecom/crypto.go:57-60 | The decoder undoes the encoder. |
| `Envelope.DecryptsSealed` | internal/wecom/crypto_test.go:69-95 | For every prefix and every message under 2^32 bytes, what is sealed for this receiver is read back, and what is sealed for another is refused. |
| `Envelope.DecryptsExactly` | internal/wecom/crypto.go:56-91 | Decrypting gives m exactly if the deciphered bytes are 16 bytes, the length of m, m, this receiver's ID and a pad of 1 to 32. |
| `Envelope.EncryptsDecrypted` | internal/wecom/crypto.go:69-70 | The chaining is invertible in the other direction too: no two ciphertexts have the same plain text. |
| `Envelope.DecryptText` | internal/wecom/crypto.go:56-91 | The program gives the specified message or the specified error. |
| `Envelope.CryptBlocks` | internal/wecom/crypto.go:69-70 | Filling the buffer block by block gives the chained decryption. |
| `Envelope.Unpad` | internal/wecom/crypto.go:93-107 | The loop accepts exactly pads of 1 to 32 bytes that all say their number. |

## Left out

- HTTP routing, XML and JSON, gRPC, protobuf: events and requests are datatypes, and encoding is taken to round-trip.
- The language model, the embedding service and retrieval are parameters: any answer, any vectors (or pointwise ones where a row says so), any list of candidates.
- AES is any pair of inverse functions on blocks of 16 bytes; SHA-256 and name-based UUIDs are taken to be injective; callback signatures (SHA-1) are not part of this model.
- Fingerprints.TextIsInjective: does not model the check that an ID is a UUID, because it depends on Python's parser; that IDs are not empty and hold neither separator is its premise.
- Which strings parse as a UUID is a property of the identifier; the differences between Go, Python and PostgreSQL in parsing them are not modelled.
- Permissions, the times of validity of a version, the ranking SQL and the approximate vector index: a search is its condition on chunks, and result lists are parameters.
- Tenants in `Documents`, `ReindexJobs` and `Ingestion`: the tables are one tenant's. The pipeline has tenants.
- Liveness: nothing says that an answer is ever sent; the streams have no limit on redelivery.
- ReindexJobs.JobTable.ClaimJob: does not model `ORDER BY created_at`, because locked rows are skipped and so any claimable job may be the one.
- Fusion.Rrf: does not model floating-point rounding, because the scores are exact reals; the limit is not negative.
- Chunking.SplitText: does not model negative sizes or overlaps, because the settings are natural numbers; which characters are white space is a parameter.
- Documents.Repository.SaveDocument: does not model titles, file names and digests, or the rounding of vectors to nine digits, because nothing is decided by them.
- Ingestion.Uploader.Ingest: does not model title and file checks, parsing of the file, or a commit whose confirmation is lost, because they are foreign calls.
- ReindexWorker.Worker.RunOnce: does not model other transactions between its steps, because `ReindexSystem` does, with the same steps as a step system.
- Citations.AcceptedExactly: does not model Python's limit on the digits that `int` converts, because it depends on the interpreter; the digits and spaces of Unicode are a parameter with the properties the proof needs.
- The normal form NFC of a question is a parameter, and the limits on the length of a question are not modelled: whatever the agent returns for a question, it has let it pass.
- Users keep the ID of the messaging service, and users and conversations are not removed: no code of the repository does either.
- WeComText.FormatWeComText: does not model reading the answer and its citations from the database, which is one call that may fail in `Outbound`.
- The endless loops of the workers are not programs here; single passes of gateway, dispatcher and outbound worker are, and in `Pipeline` and `Outbound` other processes run between any two of their effects.
- Ingress.Gateway.Handle: does not model reading, checking and parsing the callback before the message is accepted, because that is `Envelope` and foreign code; nor other processes between its statements, because `Pipeline` does.
- Envelope.DecryptText: does not model 32-bit `int`, on which the length could be negative.
- The admin API and its page, evaluation, access tokens, configuration, health checks and overview queries: they would only add easy members.
