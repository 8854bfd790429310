# Chunked upload sessions of the Cloud Drive System, in Dafny

The Cloud Drive System stores a large file in S3 in chunks (a multipart
upload). Two services share the work:

- the **metadata service** keeps one `FileMetadata` row per upload session;
- the **file service** drives the upload through `ChunkUploadService`.

The metadata row holds a lifecycle status and a ledger of uploaded chunks. The status is one of
PENDING, ACTIVE, COMPLETED, FAILED or ABORTED. `ChunkUploadService` runs
three phases, and each talks to S3 before or after the metadata service:

- **initiate** opens the multipart upload and computes the chunk count;
- **upload chunk** gates on the session status, sends the part to S3 and records its ETag in the ledger;
- **complete** short-circuits a completed session, sorts the ledger into parts, has S3 assemble them and completes the session.

On the file side, `UploadSession` and `UploadSessionRepository` hold an
in-memory record per S3 upload. `FileDownloadService` hands out a presigned
download link, but only to the file's owner.

The project models this core as follows:

| module | file | models |
|---|---|---|
| `Wrappers` | wrappers.dfy | `Option`, `Result`, `Outcome` |
| `JavaLong` | java_long.dfy | Java `long`/`int`, `Long.parseLong`, `String.valueOf(long)`, `(int)` narrowing |
| `Lifecycle` | lifecycle.dfy | the status enum, `validateStateTransition`, the ledger, one pure step per metadata operation, replay lemmas |
| `FileMetadataEntity` | file_metadata.dfy | the `FileMetadata` entity: builder defaults, `@PrePersist`/`@PreUpdate` hooks |
| `MetadataStore` | metadata_service.dfy | `MetadataService` as a class over a map of entity objects, each method proved against the `Lifecycle` steps |
| `Collaborators` | collaborators.dfy | S3 (`S3MultipartService`) and the Feign `MetadataClient` as abstract objects logging to one shared call trace |
| `ChunkPlan` | chunk_plan.dfy | the chunk count, `parseFileId`, the stable sort of the ledger into S3 parts |
| `UploadProtocol` | upload_protocol.dfy | each `ChunkUploadService` operation as a run (calls in order plus result), and its properties |
| `ChunkUploadCoordinator` | chunk_upload_service.dfy | `ChunkUploadService` as a class whose methods perform exactly those runs |
| `FileDownload` | file_download.dfy | `generateDownloadUrl`, the owner gate, presign counting over request series |
| `UploadSessions` | upload_session.dfy | `UploadSession` and `UploadSessionRepository` as classes |
| `EndToEnd` | end_to_end.dfy | the ledger written by the metadata side as the file side turns it into S3 parts |

The collaborators are modelled as follows:

- Each collaborator call appends a `Call` to a shared `Trace`. The order of S3 and metadata calls is therefore part of every contract.
- What a call answers is a reply function of its position in the trace. Any behaviour of S3 or the metadata service, failures included, is one choice of those functions.
- A Feign failure carries its HTTP status.
- The metadata service answers an `IllegalStateTransitionException` with 409 and a `ResourceNotFoundException` with 404. The plain `IllegalStateException` of a failed count check becomes 500; on the file side that is `MetadataClientException`.

The model follows the code as written; in particular:

- `initiateSession` creates a PENDING session (`MetadataService.java:42`); the first new chunk makes it ACTIVE (`MetadataService.java:69-71`).
- `completeUpload` lets a PENDING session through to S3 (`ChunkUploadService.java:164`), although the metadata side then refuses PENDING→COMPLETED.
- A duplicate chunk is sent to S3 again (`ChunkUploadService.java:103-104`) before the metadata side skips it (`MetadataService.java:56-64`).
- Completion checks only the ledger count (`MetadataService.java:112-115`), not which numbers it holds.
- The S3 key is dropped on initiate. `initiateUpload` puts it into the session request (`ChunkUploadService.java:53`), but the metadata side's `InitiateSessionRequest` has no such field (`InitiateSessionRequest.java:13-18`), and `initiateSession` stores none (`MetadataService.java:35-43`). As written, `uploadPart` and `completeMultipartUpload` are then handed the metadata service's null key (`ChunkUploadService.java:103`, `:187`). The model passes that absent key on and leaves the outcome to the S3 reply functions.

These behaviours are stated as lemmas (`CompletionGateAdmitsPending`, `PendingCompletionReachesStorage`,
`DuplicateChunkReachesStorage`, `CountOnlyCompletion`).

Some places in the source do not compile, or do not fit together, as written; the model follows the evident intent:

- `ChunkMetadata` is linked to its row by `fileId`, although `MetadataService.java:75` sets a `fileMetadata` field that does not exist.
- The file side's `FileMetadataResponse.status` is a `String`, as `FileMetadataResponse.java:21` declares it.
- The metadata service's own `FileMetadataResponse` (`metadata-service/src/main/java/com/cloud/metadata/dto/FileMetadataResponse.java:13-21`) has no `status` and no `uploadId` field, although `mapToResponse` sets both (`MetadataService.java:206-207`). The model takes the file side's DTO (`file-service/src/main/java/com/cloud/file/client/dto/FileMetadataResponse.java:13-24`) as what the metadata service answers.
- No DTO of the metadata service carries `totalChunks`. On the file side `getTotalChunks()` is therefore null, and unboxing it into the `int` parameter of `buildCompleteResponse` (`ChunkUploadService.java:158`, `:246`) throws a `NullPointerException` on the COMPLETED short-circuit. The model gives the response a `totalChunks` value, so that path answers instead of throwing (see "## Left out").

## Model

| member | source | states |
|---|---|---|
| Lifecycle.ValidateStateTransition | metadata-service/src/main/java/com/cloud/metadata/service/MetadataService.java:147-167 | passes exactly for the same state or one of PENDING→ACTIVE, PENDING→ABORTED, ACTIVE→COMPLETED/FAILED/ABORTED, otherwise fails with IllegalStateTransition(current, target); a terminal state accepts only itself |
| Lifecycle.AddChunkStep | metadata-service/src/main/java/com/cloud/metadata/service/MetadataService.java:52-83 | a number already in the ledger is a no-op whatever the status; a new number on a PENDING/ACTIVE session appends exactly (fileId, number, etag, size) and leaves it ACTIVE; on a terminal session it fails; a distinct ledger stays distinct |
| Lifecycle.CompleteStep | metadata-service/src/main/java/com/cloud/metadata/service/MetadataService.java:99-119 | COMPLETED is a no-op; ACTIVE with ledger size equal to totalChunks becomes COMPLETED; a size mismatch fails with MissingChunks; PENDING, FAILED, ABORTED fail with IllegalStateTransition |
| Lifecycle.UpdateStatusStep | metadata-service/src/main/java/com/cloud/metadata/service/MetadataService.java:137-145 | succeeds exactly when the validator allows the move and then only the status changes; otherwise fails with IllegalStateTransition |
| Lifecycle.NewSession | metadata-service/src/main/java/com/cloud/metadata/service/MetadataService.java:33-45 | a new session is PENDING, has no S3 key and an empty ledger, and carries the given id, name, owner, upload id, chunk count, size and type |
| Lifecycle.Step | metadata-service/src/main/java/com/cloud/metadata/service/MetadataService.java:52-145 | a successful call keeps the session's identity and the earlier ledger entries and adds at most one entry; only addChunk touches the ledger; a call on an existing row never fails as not found |
| Lifecycle.Replay | metadata-service/src/main/java/com/cloud/metadata/service/MetadataService.java:52-145 | a sequence of calls never shrinks the ledger and grows it by at most one entry per call |
| Lifecycle.StepShape | metadata-service/src/main/java/com/cloud/metadata/service/MetadataService.java:52-145 | any one call keeps the session's identity fields, only appends to the ledger, leaves a terminal session unchanged and keeps chunk numbers distinct |
| Lifecycle.ReplayInvariants | metadata-service/src/main/java/com/cloud/metadata/service/MetadataService.java:56-82 | after any sequence of calls (failed ones rolled back): identity fields unchanged, old ledger is a prefix, chunk numbers pairwise distinct, a terminal status never left |
| Lifecycle.DuplicateAddKeepsFirst | metadata-service/src/main/java/com/cloud/metadata/service/MetadataService.java:56-64 | adding the same chunk number a second time, with any etag and size, changes nothing |
| Lifecycle.CountCheckSufficesForInRangeNumbers | metadata-service/src/main/java/com/cloud/metadata/service/MetadataService.java:112-115 | when the count check passes on a distinct ledger whose numbers lie in 1..totalChunks, the ledger holds exactly the numbers 1..totalChunks |
| Lifecycle.CountOnlyCompletion | metadata-service/src/main/java/com/cloud/metadata/service/MetadataService.java:112-117 | the count check alone lets the distinct ledger {1, 2, 5} complete a three-chunk session |
| FileMetadataEntity.FileMetadata.Build | metadata-service/src/main/java/com/cloud/metadata/entity/FileMetadata.java:45-50 | a built row has status PENDING unless given, an empty ledger, no id and no timestamps |
| FileMetadataEntity.FileMetadata.OnCreate | metadata-service/src/main/java/com/cloud/metadata/entity/FileMetadata.java:58-65 | stamps createdAt and updatedAt; a null status becomes PENDING, a set status is kept |
| FileMetadataEntity.FileMetadata.OnUpdate | metadata-service/src/main/java/com/cloud/metadata/entity/FileMetadata.java:67-70 | restamps updatedAt and may modify nothing else |
| MetadataStore.MetadataService.InitiateSession | metadata-service/src/main/java/com/cloud/metadata/service/MetadataService.java:33-45 | saves a fresh row under an unused id: PENDING, the given name/owner/uploadId/totalChunks/size/type, no S3 key, empty ledger, both timestamps set; other rows untouched; table stays valid |
| MetadataStore.MetadataService.AddChunk | metadata-service/src/main/java/com/cloud/metadata/service/MetadataService.java:52-83 | the outcome and the new table are AddChunkStep on the addressed row (unknown id: ResourceNotFound, nothing changes); createdAt kept; updatedAt restamped exactly when the status changed (a first chunk on a PENDING row), not for an append to an ACTIVE row; ids, statuses and distinct ledgers stay valid |
| MetadataStore.MetadataService.GetUploadedChunks | metadata-service/src/main/java/com/cloud/metadata/service/MetadataService.java:89-93 | succeeds exactly for a stored id with that row's ledger (distinct numbers, all pointing at the row); otherwise ResourceNotFound |
| MetadataStore.MetadataService.CompleteSession | metadata-service/src/main/java/com/cloud/metadata/service/MetadataService.java:99-119 | the outcome and the new table are CompleteStep on the addressed row; unknown id is ResourceNotFound; updatedAt restamped exactly when the status changed |
| MetadataStore.MetadataService.MarkFailed | metadata-service/src/main/java/com/cloud/metadata/service/MetadataService.java:125-127 | the outcome and the new table are UpdateStatusStep towards FAILED on the addressed row |
| MetadataStore.MetadataService.AbortSession | metadata-service/src/main/java/com/cloud/metadata/service/MetadataService.java:133-135 | the outcome and the new table are UpdateStatusStep towards ABORTED on the addressed row |
| MetadataStore.MetadataService.UpdateStatus | metadata-service/src/main/java/com/cloud/metadata/service/MetadataService.java:137-145 | validates, then sets the status; unknown id or refused move changes nothing; updatedAt restamped only when the status changed |
| JavaLong.ParseLong | file-service/src/main/java/com/cloud/file/service/ChunkUploadService.java:225-231 | succeeds exactly for an optional sign followed by one or more digits whose signed value lies in the range of long, and then yields that value; everything else (empty, lone sign, a later non-digit, overflow) is rejected |
| JavaLong.LeadingZeroIgnored | file-service/src/main/java/com/cloud/file/service/ChunkUploadService.java:225-231 | a leading zero does not change the value a digit string denotes, so "007" parses as 7 |
| JavaLong.ParseLongSamples | file-service/src/main/java/com/cloud/file/service/ChunkUploadService.java:225-231 | "", "+", "-", "12a" and "1.5" are rejected; "+7", "-7" and "007" parse as 7, -7 and 7 |
| JavaLong.LongToString | file-service/src/main/java/com/cloud/file/service/ChunkUploadService.java:64 | non-empty, starting with '-' exactly for negative values |
| JavaLong.ParseLongOfLongToString | file-service/src/main/java/com/cloud/file/service/ChunkUploadService.java:64 | every id written with String.valueOf parses back to itself with Long.parseLong |
| JavaLong.NarrowToInt | file-service/src/main/java/com/cloud/file/service/ChunkUploadService.java:68 | the (int) cast keeps values in int range and otherwise wraps modulo 2^32 |
| ChunkPlan.TotalChunks | file-service/src/main/java/com/cloud/file/service/ChunkUploadService.java:46 | at least 1; when it fits an int, n chunks hold the file and n-1 do not; otherwise saturates at Integer.MAX_VALUE |
| ChunkPlan.TotalChunksIsLeast | file-service/src/main/java/com/cloud/file/service/ChunkUploadService.java:46 | any chunk count that holds the file is at least TotalChunks (it is the least one) |
| ChunkPlan.ParseFileId | file-service/src/main/java/com/cloud/file/service/ChunkUploadService.java:225-231 | succeeds exactly when Long.parseLong does; otherwise UploadSessionNotFound |
| ChunkPlan.ParseFileIdOfIssuedId | file-service/src/main/java/com/cloud/file/service/ChunkUploadService.java:225-231 | the file id handed out by initiateUpload is accepted by parseFileId as the same id |
| ChunkPlan.ParseFileIdRejectsNonNumeric | file-service/src/main/java/com/cloud/file/service/ChunkUploadService.java:225-231 | every id that is not an optional sign followed by one or more digits is UploadSessionNotFound |
| ChunkPlan.ParseFileIdRejectsOverflow | file-service/src/main/java/com/cloud/file/service/ChunkUploadService.java:225-231 | a well-formed number outside the range of long is UploadSessionNotFound |
| ChunkPlan.PartsFor | file-service/src/main/java/com/cloud/file/service/ChunkUploadService.java:179-183 | one part per fetched chunk, in ascending part-number order |
| ChunkPlan.InsertByNumber | file-service/src/main/java/com/cloud/file/service/ChunkUploadService.java:179-180 | inserting into an ascending list gives an ascending list with that element added (multiset) |
| ChunkPlan.SortByNumber | file-service/src/main/java/com/cloud/file/service/ChunkUploadService.java:179-180 | the sorted ledger is ascending by chunk number and a permutation of the ledger |
| ChunkPlan.SortIsStrict | file-service/src/main/java/com/cloud/file/service/ChunkUploadService.java:179-180 | a ledger with distinct numbers sorts strictly ascending |
| ChunkPlan.ToPartsPermutes | file-service/src/main/java/com/cloud/file/service/ChunkUploadService.java:181-183 | mapping chunks to parts carries permutations to permutations |
| ChunkPlan.PartsAreSortedPermutation | file-service/src/main/java/com/cloud/file/service/ChunkUploadService.java:179-183 | the parts for S3 are one per fetched chunk, a permutation of the chunks' (number, etag) pairs, ascending by part number |
| ChunkPlan.FullLedgerGivesConsecutiveParts | file-service/src/main/java/com/cloud/file/service/ChunkUploadService.java:179-183 | n chunks with distinct numbers in 1..n yield exactly parts 1..n in order, part k carrying chunk k's ETag |
| UploadProtocol.StatusNameInjective | metadata-service/src/main/java/com/cloud/metadata/enums/UploadStatus.java:3-9 | status names identify statuses, so the file side's string tests are tests of the enum |
| UploadProtocol.ChunkGateAgreesWithValidator | file-service/src/main/java/com/cloud/file/service/ChunkUploadService.java:93-99 | uploadChunk's gate lets a status through exactly when the metadata validator accepts the move to ACTIVE |
| UploadProtocol.CompletionGateAdmitsPending | file-service/src/main/java/com/cloud/file/service/ChunkUploadService.java:164-167 | the completion gate admits PENDING although the validator refuses PENDING→COMPLETED; for other non-COMPLETED statuses they agree |
| UploadProtocol.SafeMetadata | file-service/src/main/java/com/cloud/file/service/ChunkUploadService.java:233-244 | succeeds exactly on a non-null body; UploadSessionNotFound exactly for a null body or 404; MetadataClientError exactly for other statuses |
| UploadProtocol.TranslateFeign | file-service/src/main/java/com/cloud/file/service/ChunkUploadService.java:127-138 | a 409 becomes InvalidUploadState and only a 409; every other status becomes MetadataClientError |
| UploadProtocol.InitiateRun | file-service/src/main/java/com/cloud/file/service/ChunkUploadService.java:35-81 | the first call is S3 initiate and a metadata call follows exactly when it succeeded; success exactly when both succeeded, answering the request's name and size and the ceiling chunk count |
| UploadProtocol.UploadChunkRun | file-service/src/main/java/com/cloud/file/service/ChunkUploadService.java:86-144 | at most three calls, none for a bad id; success exactly for a parsable id, a found session not COMPLETED/FAILED/ABORTED, an accepted part and an accepted ledger write, with all three calls made and status UPLOADED |
| UploadProtocol.AlreadyCompleted | file-service/src/main/java/com/cloud/file/service/ChunkUploadService.java:156-162 | the answer for a completed session says COMPLETED with the given chunk count, the session's name and size, and a file id that parses back to the session's id |
| UploadProtocol.CompleteRun | file-service/src/main/java/com/cloud/file/service/ChunkUploadService.java:149-223 | at most four calls, none for a bad id; success (always status COMPLETED) exactly for a found session that is COMPLETED, or ACTIVE/PENDING with the ledger fetched, assembled by S3 and completed by the metadata service |
| UploadProtocol.AssembleRun | file-service/src/main/java/com/cloud/file/service/ChunkUploadService.java:169-223 | one to three calls; success exactly when the ledger fetch, the S3 assembly and the completion all succeed, answering S3's URL, one part per ledger entry and the session's id |
| UploadProtocol.InitiateOrdersStorageFirst | file-service/src/main/java/com/cloud/file/service/ChunkUploadService.java:35-81 | the first call is S3 initiate; every metadata write follows an S3 call; an S3 failure is rethrown with no metadata write; a Feign failure is MetadataClientError |
| UploadProtocol.InitiateHandsOverUpload | file-service/src/main/java/com/cloud/file/service/ChunkUploadService.java:42-71 | the session request carries S3's upload id and key and the ceiling chunk count; the returned file id parses back to the issued id |
| UploadProtocol.UploadChunkGatesTerminalSessions | file-service/src/main/java/com/cloud/file/service/ChunkUploadService.java:93-99 | a COMPLETED/FAILED/ABORTED session gives InvalidUploadState after the lookup and before any S3 or metadata write |
| UploadProtocol.UploadChunkHandsOverEtag | file-service/src/main/java/com/cloud/file/service/ChunkUploadService.java:103-122 | the ledger request carries exactly S3's ETag and the data length; the response echoes both; any metadata write follows the S3 part upload |
| UploadProtocol.UploadChunkErrorKinds | file-service/src/main/java/com/cloud/file/service/ChunkUploadService.java:86-144 | bad id or missing session: UploadSessionNotFound; S3 failure rethrown; metadata 409: InvalidUploadState; other: MetadataClientError; otherwise success |
| UploadProtocol.CompleteIsIdempotent | file-service/src/main/java/com/cloud/file/service/ChunkUploadService.java:156-162 | a COMPLETED session answers COMPLETED with its own chunk count after one lookup, with no S3 call and no metadata write |
| UploadProtocol.CompleteGatesOtherStates | file-service/src/main/java/com/cloud/file/service/ChunkUploadService.java:164-167 | a status other than COMPLETED, ACTIVE, PENDING gives InvalidUploadState with no S3 call and no metadata write |
| UploadProtocol.AssembleShape | file-service/src/main/java/com/cloud/file/service/ChunkUploadService.java:169-191 | past the gate the calls are: ledger fetch, then (if fetched) S3 assembly of PartsFor(ledger), then (if assembled) metadata completion |
| UploadProtocol.CompleteOrdersStorageFirst | file-service/src/main/java/com/cloud/file/service/ChunkUploadService.java:187-191 | the metadata session is completed only after the S3 assembly call |
| UploadProtocol.CompleteSendsSortedLedger | file-service/src/main/java/com/cloud/file/service/ChunkUploadService.java:171-188 | the only S3 assembly call is the third call and carries PartsFor(fetched ledger) |
| UploadProtocol.CompleteCountsLedger | file-service/src/main/java/com/cloud/file/service/ChunkUploadService.java:198 | a successful completion reports one part per fetched ledger entry |
| UploadProtocol.CompleteErrorKinds | file-service/src/main/java/com/cloud/file/service/ChunkUploadService.java:203-217 | S3 failure: rethrown, no metadata write, no abort; after S3 assembled, metadata 409 is InvalidUploadState, other metadata failures MetadataClientError |
| UploadProtocol.BadIdMakesNoCalls | file-service/src/main/java/com/cloud/file/service/ChunkUploadService.java:225-231 | uploadChunk and completeUpload with a non-numeric id fail with UploadSessionNotFound before any call |
| UploadProtocol.PendingCompletionReachesStorage | file-service/src/main/java/com/cloud/file/service/ChunkUploadService.java:164-212 | a PENDING session reaches S3 assembly, then the metadata side's 409 becomes InvalidUploadState |
| UploadProtocol.DuplicateChunkReachesStorage | file-service/src/main/java/com/cloud/file/service/ChunkUploadService.java:103-104 | every admitted chunk goes to S3 uploadPart, duplicates included |
| ChunkUploadCoordinator.ChunkUploadService.constructor | file-service/src/main/java/com/cloud/file/service/ChunkUploadService.java:26-30 | the service uses the given collaborators and chunk size, 5242880 by default |
| ChunkUploadCoordinator.ChunkUploadService.InitiateUpload | file-service/src/main/java/com/cloud/file/service/ChunkUploadService.java:35-81 | appends exactly InitiateRun's calls to the trace and returns its result, given the collaborators' replies at those positions |
| ChunkUploadCoordinator.ChunkUploadService.UploadChunk | file-service/src/main/java/com/cloud/file/service/ChunkUploadService.java:86-144 | appends exactly UploadChunkRun's calls and returns its result |
| ChunkUploadCoordinator.ChunkUploadService.CompleteUpload | file-service/src/main/java/com/cloud/file/service/ChunkUploadService.java:149-223 | appends exactly CompleteRun's calls and returns its result |
| ChunkUploadCoordinator.ChunkUploadService.AssembleAndFinish | file-service/src/main/java/com/cloud/file/service/ChunkUploadService.java:169-223 | appends exactly AssembleRun's calls and returns its result |
| ChunkUploadCoordinator.ChunkUploadService.GetMetadataSafely | file-service/src/main/java/com/cloud/file/service/ChunkUploadService.java:233-244 | makes one lookup and returns SafeMetadata of its reply |
| Collaborators.ObjectStore.InitiateMultipartUpload | file-service/src/main/java/com/cloud/file/storage/S3MultipartService.java:50-72 | logs one S3 initiate call and answers the reply for that trace position |
| Collaborators.ObjectStore.UploadPart | file-service/src/main/java/com/cloud/file/storage/S3MultipartService.java:74-95 | logs one part upload with its arguments and answers the reply for that position |
| Collaborators.ObjectStore.CompleteMultipartUpload | file-service/src/main/java/com/cloud/file/storage/S3MultipartService.java:97-131 | logs one assembly call with its part list and answers the reply for that position |
| Collaborators.ObjectStore.AbortMultipartUpload | file-service/src/main/java/com/cloud/file/storage/S3MultipartService.java:160-173 | logs one abort call and never fails |
| Collaborators.ObjectStore.GeneratePresignedUrl | file-service/src/main/java/com/cloud/file/storage/S3MultipartService.java:136-158 | logs one presign call for the key and answers the reply for that position |
| Collaborators.MetadataClient.InitiateSession | file-service/src/main/java/com/cloud/file/client/MetadataClient.java:19-20 | logs one session creation with its request and answers the reply for that position |
| Collaborators.MetadataClient.GetFile | file-service/src/main/java/com/cloud/file/client/MetadataClient.java:25-26 | logs one lookup and answers the reply (a body, a null body or a Feign status) |
| Collaborators.MetadataClient.AddChunk | file-service/src/main/java/com/cloud/file/client/MetadataClient.java:22-23 | logs one ledger write with its request and answers the reply |
| Collaborators.MetadataClient.GetUploadedChunks | file-service/src/main/java/com/cloud/file/client/MetadataClient.java:28-29 | logs one ledger fetch and answers the reply |
| Collaborators.MetadataClient.CompleteSession | file-service/src/main/java/com/cloud/file/client/MetadataClient.java:31-32 | logs one completion and answers the reply |
| FileDownload.DownloadRun | file-service/src/main/java/com/cloud/file/service/FileDownloadService.java:20-39 | at most two calls; success exactly for a parsable id, a found file owned by the requester and a successful presign, whose link is returned after a presign of the file's key; presign is called only for the owner |
| FileDownload.BadIdFailsBeforeLookup | file-service/src/main/java/com/cloud/file/service/FileDownloadService.java:21-26 | a non-numeric id fails with UploadSessionNotFound and makes no call |
| FileDownload.NonOwnerIsRefused | file-service/src/main/java/com/cloud/file/service/FileDownloadService.java:31-35 | a requester other than the owner gets UnauthorizedAccess after the lookup only; presign is never called |
| FileDownload.OwnerGetsLinkForKey | file-service/src/main/java/com/cloud/file/service/FileDownloadService.java:28-38 | the owner (exact string equality) gets the presigned link for the session's own S3 key |
| FileDownload.StatusIsNotConsulted | file-service/src/main/java/com/cloud/file/service/FileDownloadService.java:28-38 | the outcome does not depend on the session's status |
| FileDownload.PresignOncePerOwnerRequest | file-service/src/test/java/com/cloud/file/service/SecurityIntegrationTest.java:130-159 | over any series of requests, presign is called exactly once per owner request with a valid id |
| FileDownload.FileDownloadService.GenerateDownloadUrl | file-service/src/main/java/com/cloud/file/service/FileDownloadService.java:20-39 | appends exactly DownloadRun's calls and returns its result: Feign failures uncaught, a null body dereferenced |
| UploadSessions.UploadSession.Build | file-service/src/main/java/com/cloud/file/entity/UploadSession.java:31-32 | a built session starts with an empty chunk list unless one is given |
| UploadSessions.UploadSession.AddChunk | file-service/src/main/java/com/cloud/file/entity/UploadSession.java:55-61 | the list becomes the old list (empty if null) with the chunk appended, earlier entries untouched; lastUpdatedAt restamped; the next chunk number grows by one |
| UploadSessions.UploadSession.IsComplete | file-service/src/main/java/com/cloud/file/entity/UploadSession.java:66-68 | a complete session has a chunk list holding exactly totalChunks entries, whatever their numbers |
| UploadSessions.UploadSession.GetNextChunkNumber | file-service/src/main/java/com/cloud/file/entity/UploadSession.java:73-75 | 1 for a null list, otherwise one past the number of entries |
| UploadSessions.UploadSession.CompleteIffNextBeyondTotal | file-service/src/main/java/com/cloud/file/entity/UploadSession.java:66-75 | complete exactly when the list exists and the next chunk number is totalChunks + 1 |
| UploadSessions.DuplicateChunkCompletesSession | file-service/src/main/java/com/cloud/file/entity/UploadSession.java:55-68 | chunk 1 added twice completes a two-chunk session that never received chunk 2 |
| UploadSessions.UploadSessionRepository.constructor | file-service/src/main/java/com/cloud/file/repository/UploadSessionRepository.java:16 | the repository starts empty |
| UploadSessions.UploadSessionRepository.Save | file-service/src/main/java/com/cloud/file/repository/UploadSessionRepository.java:18-21 | returns its argument; stores it under its upload id, replacing an earlier entry; other keys untouched |
| UploadSessions.UploadSessionRepository.FindById | file-service/src/main/java/com/cloud/file/repository/UploadSessionRepository.java:23-25 | the stored session for a present key, empty for an absent one |
| UploadSessions.UploadSessionRepository.DeleteById | file-service/src/main/java/com/cloud/file/repository/UploadSessionRepository.java:27-29 | removes the key and leaves all other entries |
| UploadSessions.SaveFindDelete | file-service/src/main/java/com/cloud/file/repository/UploadSessionRepository.java:18-29 | after save(s), findById(s.uploadId) is s; after deleteById, it is empty |
| EndToEnd.WireLedger | file-service/src/main/java/com/cloud/file/client/dto/MetadataChunkResponse.java:14-17 | the fetched ledger keeps every entry's number, ETag and size, in order |
| EndToEnd.CompletableLedgerAssemblesInOrder | file-service/src/main/java/com/cloud/file/service/ChunkUploadService.java:179-188 | a session that passes completeSession, with in-range distinct numbers, is assembled from exactly parts 1..totalChunks in order, each with its recorded ETag |
| EndToEnd.OutOfOrderUploadCompletes | metadata-service/src/main/java/com/cloud/metadata/service/MetadataService.java:52-119 | a 3072-byte file in 1024-byte chunks has 3 chunks; adding 2, 1, 3 then completing gives COMPLETED with the ledger in arrival order |
| EndToEnd.OutOfOrderLedgerAssemblesInOrder | file-service/src/main/java/com/cloud/file/service/ChunkUploadService.java:179-183 | that ledger reaches S3 as parts (1, t1), (2, t2), (3, t3) |

## Left out

- Concurrency: the `ConcurrentHashMap` of the repository and the `@Transactional` isolation. Every operation is sequential and atomic, and a metadata operation that throws leaves the table as it was.
- UploadProtocol.CompleteIsIdempotent: takes the session's `totalChunks` as present in the file-side response. Between the two services as written it is always null, so the COMPLETED short-circuit throws a `NullPointerException` rather than answering COMPLETED.
- Ledger order: `FileMetadata.chunks` is a `@OneToMany` list without `@OrderColumn` (`FileMetadata.java:48-50`), so its order after a reload in a later request is not promised. The model keeps the order in which entries were written (`MetadataStore.MetadataService.GetUploadedChunks`, and the prefix clause of `Lifecycle.ReplayInvariants`). Completion does not depend on that order, because the file side sorts the ledger before assembly (`ChunkPlan.PartsAreSortedPermutation`, `EndToEnd.OutOfOrderLedgerAssemblesInOrder`).
- ChunkPlan.TotalChunks: computes the integer ceiling, not IEEE double division. For sizes above 2^53 bytes, `Math.ceil` over doubles can round differently. The saturating `(int)` cast is modelled.
- JavaLong.ParseLong: accepts ASCII digits only; `Long.parseLong` also accepts other Unicode decimal digits.
- Nullable boxed fields are modelled only where the code checks them: the status in responses, the S3 key, the chunk lists and the timestamps. The unboxing `NullPointerException`s of `totalChunks` and `chunkNumber` are not modelled.
- Exception messages and logging.
- The metadata service's `getFileById`/`mapToResponse`, the legacy `saveMetadata` and `getFilesByOwner`: DTO mapping and queries outside the lifecycle. The file-side response is taken as given.
- The internals of `S3MultipartService` and the AWS SDK. Object keys, URLs and ETags are opaque strings chosen by the reply functions.
- `MetadataClient.abortSession` is not modelled: no operation of the core calls it. `S3MultipartService.abortMultipartUpload` is modelled as a call that no operation issues, as in the code.
- Controllers and both `GlobalExceptionHandler` classes. The HTTP status of each metadata exception is taken in the model as 404, 409 and 500.
- The auth and notification services.
- `LocalDateTime.now()` is an abstract clock value passed in as `now`. `@PreUpdate` is taken to run when one of the row's own columns changed. In the core that is always its status. Appending a chunk to the `mappedBy` collection (`FileMetadata.java:48`) of an ACTIVE row does not make the unversioned row dirty, so it does not restamp `updatedAt`.
- Generated chunk ids, `uploadedAt` and `checksum` of `ChunkMetadata`. The file side's chunk ids are parameters of `EndToEnd.WireLedger`.
- List aliasing: ledgers and chunk lists are sequence values. The repository's key does not follow a later change of a stored session's `uploadId`.
- The catch-all `FileStorageException` branches of `ChunkUploadService`: nothing the model calls throws other exceptions, so these branches are unreachable in it.
- ChunkUploadCoordinator.ChunkUploadService.constructor: requires a positive chunk size. The configuration property is not validated in the source.
- ChunkUploadCoordinator.ChunkUploadService.InitiateUpload: requires a positive file size, which the request's `@Positive` validation guarantees. Chunk numbers are not required positive; the model accepts any.
- The metadata-service integration tests: they call a different revision of the service API and are not cited.
- `UploadSessionNotFoundException` declares two identical constructors; the model uses one error kind.
