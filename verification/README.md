# Delphi: a verified model of the document pipeline and the chat bus

Delphi takes uploads into tenant-owned documents and streams chat turns to clients. This project models the parts whose
correctness depends on many steps going right together, and proves what holds over every run of them.

- **Upload pipeline.** An upload moves through three stores: an object store with multiparts, a compare-and-swap record
  that expires, and an append-only log with one stream per document and dedupe on the message id. Work items are delivered
  at least once. `Worker.dfy` is the finisher as a machine whose steps are single store calls, so deliveries, `/complete`
  requests, clients, expiry and crashes interleave between any two calls, and any call may fail before or after it takes
  effect. `WorkerLog`, `WorkerUnique`, `WorkerSerial`, `WorkerOverlap`, `WorkerAnswers`, `WorkerVersions`, `WorkerReasons`,
  `WorkerProgress` and `WorkerFailures` hold its theorems.
  `EventStore`, `BlobStore` and `Transition` hold the stores as classes, with the two append paths and the status
  transition as loops that other writers interrupt.
- **Fold and projection.** `Domain.dfy` has the fold of nine event kinds into a row; `Projection.dfy` the batched, cached,
  guarded projection and its proof against one-event-at-a-time replay; `Subject.dfy` the subject scheme.
- **Chat.** `ChatLock.dfy` has the lease as the in-memory bus does it in one step, and as read-modify-swap loops that refine
  it; `Replay.dfy` the two-turn replay index, the resume planner and the live stream; `ChatCommit.dfy` the list form and the
  ordinal-table form of committing a turn.
- **Kernels.** `Geometry.dfy` (part sizes, resuming), `Cursor.dfy` and `Paging.dfy` (keyset paging), `Scanner.dfy`
  (signature scan over chunks).

`dafny verify dfyconfig.toml` checks everything.

## Assumptions

- Minted ids are fresh (`Worker.FreshIds`): one preflight per upload id, and one creating upload per document. Every delivery of
  an upload carries what its preflight fixed; the named version, the conflict policy and the patch may differ from one delivery
  to the next, as they may from one `/complete` to the next.
- Event ids are the tuples the source digests; object keys, record keys and lock keys are tuples too.
- Revisions of a record or a lock are never reused. An upload id is preflighted once.
- A listing, head or get that works and finds nothing means that the thing is absent.
- The content validator, the scanner's verdict and the digest are functions of what they are shown.
- An event's subject is built from the event's own tenant and document ids, which contain no dot.
- Document ids are non-empty UTF-8 text, unique within a tenant, and listed times lie in the calendar of the time type.
- Publishing a chat event and updating its replay index is one step, and the replayed range is still retained.
- Only terminal states are passed to the chat terminal mark (`KvLock.LegalRun`).

## What the code does not give

- A final delivery turns any transient failure into a rejection and gives the bytes back without asking the log. Serial
  deliveries therefore keep logged bytes exactly when no final delivery does that to a logged upload: `LoggedBytesSurvive`
  is proved under `SafeFinal`, `UnsafeFinalDestroys` shows that wherever it fails two more calls lose logged bytes,
  `NonFinalRunsAreSafe` that runs without final deliveries meet it, and `FinalDeliveryDestroys` is a whole run from the empty
  system in which it fails. One event per upload and the answers of serial deliveries do not need it.
- Overlapping deliveries can lose logged bytes even when none is final (`OverlapRunDestroys`). They keep them exactly as long as
  no delivery starts giving back a logged upload, and no upload becomes logged while one of its deliveries is giving it back or
  after its bytes are gone (`OverlappingBytesSurvive`, `UnsafeStepDestroys`).
- The dedupe table may forget anything but a logged upload with a delivery that can still land an event: one about to read the
  tail, holding the current tail, or with attempts left to read it again. `OneEventPerUpload` holds under exactly that
  condition (`SafeForget`), every failure of it logs the upload twice within three calls (`UnsafeForgetDuplicates`), and
  `ForgettingRunDuplicates` is a whole run. Creates, and serial replaces, are safe whatever is forgotten.
- The expired path always answers `superseded: false`. Its version is right, its flag exactly when the request behind the
  upload's event named no version or the one directly before it (`ExpiredAnswerIs`); `ExpiredFlagIsWrong` is a whole serial run
  in which it is wrong.
- A release reports nothing, and a stop ignores its purge. A success of the key-value lock is the in-memory step exactly when it
  is not a release whose read or purge was lost on its own turn's lock, or a stop whose purge was lost
  (`SuccessIsTheInMemoryStep`). A release whose read fails ends as done with its lock held (`UnreadReleaseIsLost`). Without any
  failure, a release can end as done with its turn's lock still held (`ReleaseCanBeLost`), and a stop can answer "no lock" while a
  newer live lock is held and not asked to stop (`StopCanBeLost`).
- A claim of another turn's expired lock is refused as "in flight" where the in-memory bus refuses with an error; all other
  refusals on a read are the same (`RefusalsAgree`).
- One of the user's events published after the replayed range ends and before the client subscribed, such as a late title, is
  missed on resume: `MissedExactlyWhenBetween` for every log, `LateTitleIsMissed` for one.
- Committing a turn whose message ids are already used by a kept message makes the two chat repositories differ
  (`CommitAgrees`).

## Model

| member | source | states |
|---|---|---|
| `WorkerLog.AcceptedMeansLogged` | crates/document-app/src/worker.rs:391-568 | in every reachable state under all interleavings, a record that says accepted belongs to an upload whose event is already in its document's log |
| `WorkerLog.AcceptedAnswerIsLogged` | crates/document-app/src/worker.rs:99-196 | a delivery that answers accepted, by any path including the expired one, answers for a logged event |
| `WorkerLog.StreamsAreWellFormed` | crates/document-app/src/worker.rs:391-545 | every reachable stream has rising sequences, exactly one create and only in front, versions 1, 2, 3, ...; folding it never fails and ends at the version and sequence the store reports as last |
| `WorkerLog.EventsDescribeUploads` | crates/document-app/src/worker.rs:391-533 | in every reachable log each event is of the document of the upload it names, by its owner, and carries the declared file name, content type and size |
| `WorkerLog.KeysAreApart` | crates/document-app/src/upload_state.rs:121-123 | which commands share a stream, an object, a multipart or a record |
| `WorkerLog.RunInv` | crates/document-app/src/worker.rs:99-367 | the invariant behind these holds after every run: log, program points of all deliveries, and records |
| `WorkerLog.StepCreatePc` | crates/document-app/src/worker.rs:391-445 | from the create append, accepting follows only when the upload's event is in the log, also after a conflict or a dedupe |
| `WorkerLog.StepUpdatePc` | crates/document-app/src/append.rs:44-81 | from the replace append, accepting follows only when the upload's event is in the log, also after a dedupe |
| `WorkerLog.StreamFolds` | crates/document-app/src/worker.rs:677-683 | every non-empty prefix of a well-formed stream folds to the version of its last event |
| `WorkerUnique.OneEventPerUpload` | crates/document-app/src/append.rs:20-81 | under every interleaving of any number of overlapping deliveries an upload has at most one place in the whole log, unless the dedupe table forgets it when it is logged and a delivery of it can still land |
| `WorkerUnique.OneEventPerCreate` | crates/document-app/src/worker.rs:391-445 | a creating upload has at most one place in the log whatever the dedupe table forgets, whenever |
| `WorkerUnique.UnsafeForgetDuplicates` | crates/document-app/src/worker.rs:461-475 | wherever the table forgets a logged upload that has a delivery able to land, at most three working calls of one delivery log it twice; so the condition of the uniqueness theorem is exact |
| `WorkerSerial.LoggedBytesSurvive` | crates/document-app/src/worker.rs:99-367 | with one delivery in flight per upload, any failures, crashes and expiry, and other uploads interleaving freely, the object named by a logged event is present, of the size and checksum that event states, accepted by the validator and clean |
| `WorkerSerial.UnsafeFinalDestroys` | crates/document-app/src/worker.rs:85-97 | wherever a final delivery starts to give back a logged upload, its next two working calls delete bytes a logged event names |
| `WorkerSerial.OverlapDestroys` | crates/document-app/src/worker.rs:592-607 | a delivery giving bytes back, overlapping one whose create or replace append lands, leaves a logged event without bytes |
| `WorkerSerial.RunSerial` | crates/document-app/src/worker.rs:212-350 | what each program point knows of the log and the bytes, after every serial run |
| `WorkerOverlap.OverlappingBytesSurvive` | crates/document-app/src/worker.rs:99-367 | however any number of deliveries of an upload overlap, fail and crash: as long as no delivery starts giving back a logged upload and no upload becomes logged while one of its deliveries is giving back or its bytes are gone, the object each logged event names is present, of the size and checksum that event states, accepted and clean |
| `WorkerOverlap.UnsafeStepDestroys` | crates/document-app/src/worker.rs:576-607 | wherever a step breaks that condition, at most two more working calls of one delivery leave a logged event without its bytes |
| `WorkerOverlap.SerialRunsKeepBytes` | crates/document-app/src/worker.rs:85-97 | serial runs whose final deliveries are safe meet it |
| `WorkerFailures.NonFinalRunsAreSafe` | crates/document-app/src/worker.rs:85-97 | runs whose deliveries are all non-final and one in flight per upload meet the hypothesis of the survival theorem |
| `WorkerFailures.ReachesAppend` | crates/document-app/src/worker.rs:99-298 | for every create upload whose bytes verify, eight working calls lead from preflight, one part and a delivery to the append, with the object assembled and the multipart gone |
| `WorkerFailures.FinalDeliveryDestroys` | crates/document-app/src/worker.rs:85-97 | for every such upload there is a serial run with one final delivery that ends with its event logged and its bytes deleted |
| `WorkerFailures.OverlapRunDestroys` | crates/document-app/src/worker.rs:321-350 | for every such upload there is a run of non-final, overlapping deliveries that ends the same way |
| `WorkerFailures.ForgettingRunDuplicates` | crates/document-app/src/worker.rs:461-475 | for every replace upload of a created document there is a run from the empty system in which two deliveries overlap, the table forgets the logged upload, and it is logged twice |
| `WorkerFailures.ExpiredFlagIsWrong` | crates/document-app/src/worker.rs:321-350 | for every replace upload of a created document that named a version other than 1 there is a serial run in which the answer after expiry has the wrong flag |
| `WorkerAnswers.OneEventWhenSerial` | crates/document-app/src/worker.rs:447-475 | with one delivery in flight per upload, final or not, every upload is logged at most once whatever the dedupe table forgets |
| `WorkerAnswers.AnswerIsTheEvents` | crates/document-app/src/worker.rs:536-568 | with one delivery in flight per upload, an accepted answer of a replace delivery names the version of the upload's own event, and its flag is true exactly when the request behind that event named a version and it differs from the one directly before |
| `WorkerAnswers.AnswerToOneRequest` | crates/document-app/src/worker.rs:536-568 | when all requests delivered for the upload have the same `if_match`, the flag is true exactly when it is given and differs from the version directly before |
| `WorkerAnswers.EventsEchoRequests` | crates/document-app/src/service.rs:444-483 | under every interleaving each logged event carries the patch and the named version of one request delivered for its upload |
| `WorkerAnswers.RedeliveryRepeatsAnswer` | crates/document-app/src/worker.rs:658-692 | with one delivery in flight per upload, every later accepted answer for a replace upload repeats the version and the flag of the first, however many events landed since |
| `WorkerAnswers.ExpiredAnswerIs` | crates/document-app/src/worker.rs:321-350 | an accepted answer after expiry names the upload's own version; its flag is always false, so it is right if and only if the request behind the event named no version or the one directly before |
| `WorkerVersions.AnswersNameVersions` | crates/document-app/src/worker.rs:391-445 | under every interleaving an accepted answer is about the upload's own document and names the version of one of its events; a create is never called superseded, and after expiry it is version 1 |
| `WorkerReasons.ReasonIsExact` | crates/document-app/src/worker.rs:212-350 | a delivery starts a recorded rejection with a reason if and only if what that reason names is so of what it finds: parts, object, size, validator, scanner, history, conflict policy, or a failed final delivery; it asks for a retry if and only if the trouble is transient and the delivery is not the last |
| `WorkerReasons.RejectionsAreTrue` | crates/document-app/src/worker.rs:212-350 | over every run, however deliveries overlap, a rejection is entered only with a reason that is true of the stores at that moment; a corrupt history is never found |
| `WorkerReasons.ExpiredExactly` | crates/document-app/src/worker.rs:321-350 | an expired upload is thrown away if and only if the log does not have it |
| `WorkerProgress.AnyListingClears` | crates/document-app/src/worker.rs:212-298 | any listing of distinct part numbers whose bytes, in ascending order, pass verification is assembled and cleared for the log by eight working calls, in either mode |
| `WorkerProgress.AssembledUploadClears` | crates/document-app/src/worker.rs:212-298 | an upload assembled by an earlier delivery is cleared by seven |
| `WorkerProgress.CreateIsAccepted` | crates/document-app/src/worker.rs:99-196 | a verified create of a document without events is accepted by eleven working calls as version 1, not superseded; the event field by field, the bytes, the record and the answer say so |
| `WorkerProgress.ReplaceIsAccepted` | crates/document-app/src/worker.rs:447-545 | a verified replace of a document with n events is accepted by thirteen working calls as version n + 1, superseded if and only if the request named another version than n; event, bytes, record and answer say so |
| `WorkerProgress.UnwantedIsRefused` | crates/document-app/src/worker.rs:495-512 | a replace whose request insists on another version is refused as a version conflict: its bytes are gone, nothing is logged, record and answer give the reason |
| `WorkerProgress.RejectionIsFinished` | crates/document-app/src/worker.rs:576-607 | four working calls finish any rejection: multipart and object gone, log as it was, record and answer with the reason |
| `WorkerProgress.RepeatsRecorded` | crates/document-app/src/worker.rs:658-675 | a delivery that finds a final answer in the record repeats it and touches nothing |
| `WorkerProgress.CreateAgainIsAccepted` | crates/document-app/src/worker.rs:391-445 | a create that comes back after its document was created, with no final answer recorded, is accepted without a second event, and reports the document's newest version |
| `WorkerProgress.ExpiredIsAccepted` | crates/document-app/src/worker.rs:321-350 | with no record left, a logged upload is accepted with its own version, nothing is logged and no record is made |
| `WorkerProgress.ExpiredIsGivenBack` | crates/document-app/src/worker.rs:321-350 | with no record left, an upload that is not logged is given back, unrecorded |
| `WorkerProgress.RecordingAnswers` | crates/document-app/src/worker.rs:614-646 | however the record write goes, the delivery keeps trying or gives the answer it wanted recorded |
| `WorkerProgress.DuplicateRereads` | crates/document-app/src/append.rs:86-104 | a replace that meets its own remembered event on append re-reads the tail and logs nothing |
| `WorkerProgress.RunPartsDistinct` | crates/document-app/src/service.rs:304-309 | every reachable listing has one part a number, the last one sent |
| `EventStore.MemoryEventStore.Append` | crates/document-app/src/testing.rs:149-218 | dedupe first, answering with the stored version; then the expected-sequence check; only a landed event changes the store |
| `EventStore.MemoryEventStore.ReadLast` | crates/document-app/src/testing.rs:220-234 | version and sequence of the last event of a stream, none when it is empty |
| `EventStore.MemoryEventStore.ReadStream` | crates/document-app/src/testing.rs:236-250 | the whole stream of a document |
| `EventStore.PublishOrdered` | crates/document-app/src/testing.rs:149-218 | publishing keeps sequences rising along every stream |
| `EventStore.PublishAnswers` | crates/document-app/src/testing.rs:149-218 | a publish of a remembered id is answered with the sequence and version it got before; one at the expected sequence lands behind the stream with the next sequence; any other conflicts |
| `EventStore.PublishStores` | crates/document-app/src/testing.rs:149-218 | every remembered id keeps standing for the entry it was stored as |
| `AppendPaths.ResolveDuplicate` | crates/document-app/src/append.rs:86-104 | a deduplicated append reports the current tail or the failure to read it, any other its own result |
| `AppendPaths.AppendCreate` | crates/document-app/src/append.rs:20-32 | with other writers between its calls and any call failing before or after it takes effect: a landed create is the whole stream, a conflict means the stream was not empty, a dedupe reports the tail; the stream grew by others' events and at most one of its own |
| `AppendPaths.AppendUpdate` | crates/document-app/src/append.rs:44-81 | with other writers between its calls and any call failing before or after it takes effect: a landed update is last, one version above the event right before it, which is the version the client named; each error says what the log looks like; the stream grew by others' events and at most one of its own; giving up means at least three events of others and none of its own landed during the call |
| `AppendPaths.CasAnswer` | crates/document-app/src/append.rs:54-80 | a compare-and-append on an earlier tail lands right behind it or finds the stream longer |
| `Transition.TerminalIsFinal` | crates/document-app/src/transition.rs:39-70 | from any reachable state to any later one: preflight fields never change, a terminal record never changes, an expired record never comes back |
| `Transition.GivingUpMeansThreeWrites` | crates/document-app/src/transition.rs:47-69 | in every interleaving, a call that gave up saw others write its record at least three times since it began, whether or not the record still lives |
| `Transition.StepMoves` | crates/document-app/src/testing.rs:567-588 | one step of anyone moves a record by at most one revision, never touching preflight fields or a terminal status |
| `Transition.SetStatus` | crates/document-app/src/transition.rs:39-70 | the loop itself, with other writers before each call and any call failing before or after it takes effect: every answer is what the record says on return; only the others' writes and at most one of its own moved the record; giving up means at least three writes by others and none of its own |
| `Transition.MemoryUploadStateStore.Create` | crates/document-app/src/testing.rs:536-550 | creates a record only where there is none |
| `Transition.MemoryUploadStateStore.Swap` | crates/document-app/src/testing.rs:567-588 | replaces a record only at the revision named; expired and conflicting swaps change nothing |
| `BlobStore.SortedParts` | crates/document-app/src/worker.rs:212-298 | assembly order is ascending and a permutation of the listing |
| `BlobStore.OwnListingAssembles` | crates/document-app/src/testing.rs:384-423 | completing with the store's own listing, however ordered, assembles exactly the uploaded bytes in ascending part order |
| `BlobStore.AssembledExactly` | crates/document-app/src/testing.rs:384-423 | completion succeeds if and only if every named part matches a stored one by number and tag |
| `BlobStore.MemoryBlobStore.CompleteMultipart` | crates/document-app/src/testing.rs:384-423 | consumes the multipart, and creates the object exactly when every named part is there with its tag |
| `BlobStore.MemoryBlobStore.AbortMultipart` | crates/document-app/src/testing.rs:425-430 | removes the multipart and nothing else |
| `BlobStore.MemoryBlobStore.ReadPrefix` | crates/document-app/src/testing.rs:458-469 | the first 512 bytes, fewer when the object is shorter |
| `BlobStore.MemoryBlobStore.DeleteObject` | crates/document-app/src/testing.rs:471-476 | removes the object and nothing else |
| `Fold.ApplyIsOverlay` | crates/document-domain/src/fold.rs:104-211 | on an existing row of the same document, a fold step writes a set of columns that depends on the event alone |
| `Fold.FoldIsOverlay` | crates/document-domain/src/fold.rs:104-226 | folding any run of events over a row is one such write, later events winning column by column |
| `Fold.FoldFromNothing` | crates/document-domain/src/fold.rs:118-160 | with no row, only a user's create starts one, and it is of the events' document |
| `Fold.RowKeepsItsBirth` | crates/document-domain/src/fold.rs:118-160 | a row carries the time of the first user's create, whatever came later |
| `Fold.ApplyRefuses` | crates/document-domain/src/fold.rs:104-160 | each fold error if and only if its cause |
| `Fold.RefoldSuffix` | crates/document-domain/src/fold.rs:118-226 | folding an already folded suffix again changes nothing, for every prefix and suffix |
| `Fold.IndexCurrentCoversServedBlob` | crates/document-domain/src/fold.rs:161-201 | over histories whose versions never drop, the row serves the last introduced blob, and a current index was built for a version no older than the event that introduced it |
| `Fold.FoldHistoryLoop` | crates/document-app/src/worker.rs:677-683 | the loop computes the strict fold, stopping at the first error |
| `Fold.StrictIsSkip` | crates/document-app/src/worker.rs:677-683 | where the strict fold succeeds it is the projection's skipping fold |
| `Subject.KeyRoundTrip` | crates/document-adapters/src/jetstream/mod.rs:48-51 | parsing a built subject gives back the document key, for dot-free ids |
| `Subject.SubjectTokens` | crates/document-adapters/src/jetstream/mod.rs:48-51 | a subject is four tokens, the third the partition of sixteen in two decimal digits |
| `Subject.KeyOnlyFromScheme` | crates/document-adapters/src/postgres/projection.rs:394-408 | a key is found only in a four-token subject of the scheme, and is what stands there |
| `Projection.ProjectionLoop.ApplyBatch` | crates/document-adapters/src/postgres/projection.rs:192-267 | one transaction: cached fold, guarded upserts, recorded failures and checkpoint together, or nothing |
| `Projection.ProjectionLoop.Reset` | crates/document-adapters/src/postgres/projection.rs:411-426 | a rebuild empties the table, the checkpoint and the failures |
| `Projection.WriteRows` | crates/document-adapters/src/postgres/projection.rs:296-351 | the upserts of a transaction, in any order, write each folded row unless the stored one has a newer sequence |
| `Projection.PublishedIsAddressed` | crates/document-adapters/src/jetstream/mod.rs:48-51 | an event published under its own subject is folded into its own document |
| `Projection.BatchRow` | crates/document-adapters/src/postgres/projection.rs:296-325 | key by key, a batch from any earlier point over a table replaying a prefix leaves the row that replays the longer of the two prefixes |
| `Projection.BatchIsReplay` | crates/document-adapters/src/postgres/projection.rs:192-267 | the whole table after such a batch is the one-event-at-a-time replay |
| `Projection.OutcomeInBatch` | crates/document-app/src/projection.rs:61-86 | a message met in a batch has the outcome the one-at-a-time form gives it; one that folded before folds again |
| `Projection.BatchFailures` | crates/document-adapters/src/postgres/projection.rs:353-374 | the failure table after a batch is that of the longer prefix: nothing twice, nothing missing |
| `Projection.RunIsReplay` | crates/document-adapters/src/postgres/projection.rs:192-276 | under any batching, crash, rebuild or rewind both tables replay the longest prefix projected since the last rebuild |
| `Projection.TableIsReplayOfCheckpoint` | crates/document-adapters/src/postgres/projection.rs:192-276 | without rewinds that prefix is exactly the log up to the checkpoint |
| `Projection.RowIsTheDocumentsFold` | crates/document-adapters/src/postgres/projection.rs:192-276 | under any batching, crash, rebuild or rewind, a document's row is the fold of its own events in the projected prefix |
| `Projection.FailureTableIs` | crates/document-adapters/src/postgres/projection.rs:353-374 | likewise the failure table holds exactly the messages of the prefix that do not fold, each with subject, payload and reason |
| `Projection.RewindIsHarmless` | crates/document-adapters/src/postgres/projection.rs:301-325 | after a rewind to any earlier point and any further batches and crashes no ground is lost, and until a new message is projected the tables are unchanged |
| `ChatLock.InMemoryChatBus.AcquireLock` | crates/nats/src/lib.rs:831-851 | takes a free or expired lock, refuses a live one, touches no other conversation |
| `ChatLock.InMemoryChatBus.ClaimLock` | crates/nats/src/lib.rs:853-887 | the claim's branches on turn, terminal state, expiry and worker, as one step |
| `ChatLock.InMemoryChatBus.MarkLockTerminal` | crates/nats/src/lib.rs:889-917 | marks the turn's lock terminal for its worker, whatever its state was |
| `ChatLock.InMemoryChatBus.MarkTerminalEventPublished` | crates/nats/src/lib.rs:919-934 | sets the published mark on the turn's terminal lock, and otherwise changes nothing |
| `ChatLock.InMemoryChatBus.RequestLockStop` | crates/nats/src/lib.rs:936-957 | sets the stop request, or removes an expired lock |
| `ChatLock.InMemoryChatBus.RenewLock` | crates/nats/src/lib.rs:972-992 | extends the lease of the turn's own worker only |
| `ChatLock.InMemoryChatBus.ReleaseLock` | crates/nats/src/lib.rs:994-1000 | removes the lock of the named turn only |
| `ChatLock.MemWrites` | crates/nats/src/lib.rs:831-1000 | for each operation, exactly when it takes effect, every field it then writes, that it leaves all others alone, and its answer; a lease always runs its full length from the stamp |
| `KvLock.EveryStepRefines` | crates/nats/src/lib.rs:1129-1460 | over every interleaving of any number of calls with lost replies and ageing, each step that changes the entry is the in-memory step of its operation on the entry as it is, with that step's reply, or an acquire's purge of a lock it read expired and nobody wrote since; a swap or create that changes nothing is retried or refused |
| `KvLock.SuccessIsTheInMemoryStep` | crates/nats/src/lib.rs:1129-1460 | a step that ends a call with success has the effect and the answer of the in-memory step if and only if it is not a release whose read or purge was lost on its own turn's lock, or a stop whose purge was lost |
| `KvLock.UnreadReleaseIsLost` | crates/nats/src/lib.rs:526-534 | a run in which a release whose read fails ends as done with its own turn's lock still held |
| `KvLock.ReleaseCanBeLost` | crates/nats/src/lib.rs:526-556 | a run without failures in which a release answers done with its own turn's live lock still held |
| `KvLock.StopCanBeLost` | crates/nats/src/lib.rs:1351-1394 | a run without failures in which a stop answers that there is no lock while a live one is held and not asked to stop |
| `KvLock.ReadRefines` | crates/nats/src/lib.rs:1186-1249 | a call that succeeds on its read alone answers as the in-memory step would, and that step would not write |
| `KvLock.RefusalsAgree` | crates/nats/src/lib.rs:1186-1249 | a call refused on its read is refused in memory too and neither writes; the refusals are the same if and only if it is not a claim of another turn's expired lock |
| `KvLock.LockIsKeptOrRemoved` | crates/nats/src/lib.rs:1129-1460 | from any reachable lock to any later state: turn kept, stop request never lost, worker never changed once set; or in between a lock was released by its turn, aged out, or purged by a call that read it expired with no write since |
| `KvLock.StepKeeps` | crates/nats/src/lib.rs:1251-1460 | the one-step form of it, naming the step that removes a lock |
| `KvLock.LeaseProtects` | crates/nats/src/lib.rs:1129-1460 | a successful acquire, claim, terminal mark or renewal that writes starts a lease of full length; over every interleaving, until it runs out, no other turn gets the lock, no stop is lost and no worker replaced, unless its own turn releases it or it ages out |
| `KvLock.GivingUpMeansEightChanges` | crates/nats/src/lib.rs:1186-1460 | a call gives up swapping only after others changed the entry at least eight times since it began |
| `Replay.EventBus.PublishEvent` | crates/nats/src/lib.rs:1015-1035 | numbers and logs the event, and keeps the stored index equal to the one the log implies, for every conversation |
| `Replay.IndexIsRight` | crates/nats/src/lib.rs:1561-1600 | with turns that do not interleave, a closed current turn ends at one of the conversation's events and nothing of it follows |
| `Replay.IndexHasLastTwo` | crates/nats/src/lib.rs:1561-1600 | in an orderly log the index holds the last two turns that started, the current one closed by its last end |
| `Replay.EndsAreLast` | crates/nats/src/lib.rs:1561-1610 | in any log each of the two turns ends at the last event above its start that finishes, interrupts or clears it |
| `Replay.Send` | services/realtime-service/src/main.rs:244-266 | sends the user's events above the last-sent mark, and moves the mark |
| `Replay.ReplayThenLive` | services/realtime-service/src/main.rs:382-401 | a replayed range followed by the live stream gives exactly what is owed above the resume point, if and only if nothing owed fell between the end of the range and the subscription |
| `Replay.ResumeDeliversExactly` | services/realtime-service/src/main.rs:487-640 | resuming inside the last two turns while the log grows between the reads, the plan is never a resync, and replay then live delivery is exactly the user's events after the resume point, in order, once each |
| `Replay.FreshDeliversOpenTurn` | services/realtime-service/src/main.rs:544-609 | a client without history that joins its user's open, uncommitted turn receives it from its start |
| `Replay.FreshPlanIsExact` | services/realtime-service/src/main.rs:544-609 | for every log a client without history gets a plan, which replays something if and only if the current turn is open and not committed, and then all of it so far; otherwise the client receives exactly what is published from its subscription on |
| `Replay.GarbledIsResync` | services/realtime-service/src/main.rs:487-542 | an event id that does not read is always a resync |
| `Replay.MissedExactlyWhenBetween` | services/realtime-service/src/main.rs:544-609 | for every log, turns interleaved or not: a resume is planned if and only if its point lies in one of the last two turns, and then delivery is exact if and only if none of the user's events lies between the end of the replayed range and the subscription |
| `Replay.LateTitleIsMissed` | services/realtime-service/src/main.rs:544-609 | a turn, its finish and a title: the planner's answer to a client that resumes from the start after the title loses the title |
| `Scanner.Contains` | crates/document-adapters/src/verification.rs:88-92 | finds the signature exactly when it occurs contiguously |
| `Scanner.WindowSeesAll` | crates/document-adapters/src/verification.rs:56-66 | a chunk completes an occurrence in the whole stream exactly when it does in the extended window |
| `Scanner.Scan` | crates/document-adapters/src/verification.rs:34-86 | for every stream and every cut into non-empty chunks: infected exactly when the signature occurs in the whole stream; the count is its length |
| `Geometry.GeometryHolds` | crates/document-domain/src/geometry.rs:55-101 | accepted inputs are exactly the valid ones; part size in 5 MiB..5 GiB and equal to the target exactly up to the honoured size; part count 1..10,000 and exactly 10,000 above it |
| `Geometry.GeometryRefuses` | crates/document-domain/src/geometry.rs:55-101 | each error of the two functions if and only if its cause, in the order they are checked |
| `Geometry.PartsSumToDeclared` | crates/document-app/src/service.rs:576-588 | parts 1..n and no others have an expected size; all but the last have the part size, the last is positive and at most that, and the sizes sum to the declared size |
| `Geometry.GeometrySlicesWell` | crates/document-domain/src/geometry.rs:55-101 | the geometry always hands out a slicing for which that holds |
| `Geometry.ResumableIsExact` | crates/document-app/src/service.rs:290-321 | a part may be resumed if and only if it is listed at its expected size; multiplicity and order are those of the listing |
| `Geometry.ResumeOrSendAgain` | crates/document-app/src/service.rs:290-321 | with distinct numbers, a listed number is resumable if and only if its part fits, and must be sent again otherwise |
| `Geometry.CompleteListingHasDeclaredSize` | crates/document-app/src/service.rs:290-321 | a listing that resumes to all parts 1..n holds exactly the declared number of bytes |
| `Geometry.MissingIsExact` | crates/document-app/src/service.rs:400-427 | the signed window is exactly the numbers in range and not skipped, each once, ascending |
| `Geometry.PresignWindow` | crates/document-app/src/service.rs:400-427 | the signing loop produces that window |
| `Geometry.Renew` | crates/document-app/src/service.rs:330-398 | without `from_part`, exactly the missing parts of the window that starts at the least missing part, all of them without `count`, and nothing only when none is missing; with `from_part`, exactly the named window; the two error cases |
| `Geometry.ResumeAtLeastMissing` | crates/document-app/src/service.rs:363-377 | a resume starts at the least part not stored, or at the last part exactly when all are stored |
| `Cursor.CursorRoundTrip` | crates/document-app/src/cursor.rs:30-51 | decoding undoes encoding exactly for cursors with a non-empty id, at any microsecond of the calendar |
| `Cursor.DecodedIsCanonical` | crates/document-app/src/cursor.rs:41-51 | whatever decodes is a well-typed cursor that re-encodes to a token meaning the same |
| `Cursor.EncodeInjective` | crates/document-app/src/cursor.rs:30-36 | distinct cursors have distinct tokens |
| `Cursor.FormatIsPlain` | crates/document-app/src/cursor.rs:30-36 | the time is written in plain decimal, with a minus sign only when negative |
| `Cursor.HexDecodeIs` | crates/document-app/src/cursor.rs:41-51 | a token decodes to exactly the bytes whose lower-case encoding it is, apart from case |
| `Cursor.HexValueIs` | crates/document-app/src/cursor.rs:41-51 | hexadecimal digits of either case are read, and nothing else |
| `Cursor.ParseIs` | crates/document-app/src/cursor.rs:41-51 | a number is read exactly from its decimal numeral, with leading zeros or not, after an optional sign that fits it, within 64 bits |
| `Cursor.CalendarBounds` | crates/document-app/src/cursor.rs:41-51 | the accepted times are those of the proleptic Gregorian years -262143 to 262142 |
| `Cursor.Utf8IsScalars` | crates/document-app/src/cursor.rs:41-51 | what passes as text is the encoding of a sequence of Unicode scalar values |
| `Cursor.ScalarsAreUtf8` | crates/document-app/src/cursor.rs:41-51 | every such encoding passes as text |
| `Paging.LessIsTotal` | crates/document-app/src/cursor.rs:1-11 | time and id together order the listing totally |
| `Paging.ListingIs` | crates/document-app/src/testing.rs:661-691 | the listing after a cursor holds exactly the tenant's rows below it, strictly descending |
| `Paging.ResumeIsTail` | crates/document-adapters/src/postgres/read_model.rs:45-80 | resuming below the k-th row lists exactly the rows from there on |
| `Paging.PageIs` | services/api-service/src/documents.rs:359-392 | what the endpoint answers to its own token: the next rows up to the clamped limit, and the token they leave exactly when the page is full |
| `Paging.PageSize` | crates/document-app/src/service.rs:540-559 | a page holds what was asked for, at least 1 and at most 200, or what is left; a token comes with it if and only if it is full |
| `Paging.RefusedExactlyForJunk` | services/api-service/src/documents.rs:359-392 | a request is refused if and only if its token is not the hexadecimal form of a time of the calendar, a colon and a non-empty id |
| `Paging.Crawl` | crates/document-app/src/service.rs:540-559 | following `next` through encode and decode stops, and has visited the tenant's whole listing |
| `Paging.ListingVisitsOnce` | crates/document-app/src/service.rs:540-559 | that listing holds every row of the tenant, each document once, in descending order |
| `Paging.ChangingTable` | crates/document-app/src/service.rs:540-559 | however the table changes between pages, places are visited in strictly descending order, and a row unchanged throughout a listing that ended has been visited |
| `ChatCommit.MemoryChatRepository.CommitTurn` | crates/storage/src/lib.rs:1027-1086 | truncates after the parent and appends the two messages, each field of each as the turn gives it; refuses an unknown conversation and an unknown parent, and only those, and then changes nothing |
| `ChatCommit.PgChatRepository.CommitTurn` | crates/storage/src/lib.rs:239-438 | one transaction: delete above the parent's ordinal, upsert at the next two ordinals, or refuse and change nothing |
| `ChatCommit.TableStoresTurn` | crates/storage/src/lib.rs:274-429 | read in ordinal order after a turn with fresh ids: what it kept, then its two messages, each field as the turn gives it, numbered 1..n, and the next ordinal one past them |
| `ChatCommit.ListCommitIs` | crates/storage/src/lib.rs:1049-1083 | the list form: each refusal if and only if its cause; a taken turn stores its two messages field by field and touches no other conversation |
| `ChatCommit.CollisionRewrites` | crates/storage/src/lib.rs:315-378 | an id already stored keeps its row, conversation and role, and takes the new text, parent, turn and ordinal, and for an assistant message the rest |
| `ChatCommit.UpsertRefuses` | migrations/0001_pg_cutover.sql:30-46 | an upsert is refused if and only if another row of the conversation has the ordinal |
| `ChatCommit.CommitAgrees` | crates/storage/src/lib.rs:274-429 | the two forms refuse the same turns with the same error; a turn the list form takes leaves them in agreement if and only if its two ids differ and no kept message of any conversation has either |
| `ChatCommit.HistoriesAgree` | crates/storage/src/lib.rs:239-438 | after every history of turns with fresh ids the table holds exactly the messages of the lists, each at its place counted from 1 |
| `ChatCommit.ReadIsTheList` | crates/storage/src/lib.rs:193-223 | rows of a conversation in ordinal order are the list, numbered 1..n, and no other order is |
| `ChatCommit.HistoriesAreChained` | crates/storage/src/lib.rs:1049-1083 | in every history each message's parent is its predecessor, and the stored next ordinal is one past the last |
| `ChatCommit.ListCommitTwice` | crates/storage/src/lib.rs:1049-1083 | committing a turn twice is committing it once |
| `ChatCommit.TableCommitTwice` | crates/storage/src/lib.rs:274-429 | the same for the table form, when the ids were fresh |

## Left out

- Update in place inside one delivery: the finisher and the key-value lock loops are step machines over values, so that all
  interleavings can be quantified over; the stores they act on are also given as classes with the same specification functions.
- Digests, checksums and partitions: SHA-256 and CRC-32 are parameters, ULIDs are given ids, event ids are tuples.
- JSON: a projected message arrives already decoded, as unknown, or as malformed.
- Time: chat commit timestamps, creation times of records and lease clocks are inputs or omitted; the lease SQL and
  heartbeats are not modelled.
- The cap of 10,000 events per stream read, and projection messages without metadata.
- The chat turn row and soft deletion of conversations; visibility of conversations to other users and tenants.
- The database collation: document ids are compared bytewise, as the in-memory read model does.
- Preflight and `/complete` beyond their effect on the record and the multipart; presigned URLs.
- NATS, Postgres, S3 and HTTP clients, authentication, roles, configuration, status codes.
- Chat worker turn driving, LLM providers, title generation, history splitting.
- Metadata validation, content sniffing and principal checks: single-branch rules.
