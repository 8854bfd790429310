/**
 * The specification of ChunkUploadService. Each operation is a run, as a
 * value: the calls it makes on the object store and the metadata service,
 * in order, and what it returns or throws, given what each collaborator
 * answers. The lemmas here state the properties of those runs. The class
 * ChunkUploadService in module ChunkUploadCoordinator is the
 * implementation: each of its methods is proved to perform the matching
 * run on the shared trace.
 */
module UploadProtocol {
  import opened Wrappers
  import opened JavaLong
  import opened Lifecycle
  import opened Collaborators
  import opened ChunkPlan

  /** InitiateUploadRequest. */
  datatype InitiateUploadRequest = InitiateUploadRequest(fileName: string, fileSize: Long, contentType: string, owner: string)

  /** ChunkUploadRequest; the optional checksum is not consulted. */
  datatype ChunkUploadRequest = ChunkUploadRequest(fileId: string, chunkNumber: int, chunkData: seq<byte>)

  /** CompleteUploadRequest. */
  datatype CompleteUploadRequest = CompleteUploadRequest(fileId: string)

  datatype InitiateUploadResponse = InitiateUploadResponse(
    fileId: string, uploadId: string, fileName: string, fileSize: Long, chunkSize: Int, totalChunks: int, message: string)

  datatype ChunkUploadResponse = ChunkUploadResponse(
    uploadId: string, chunkNumber: int, etag: string, chunkSize: int, status: string, message: string)

  datatype CompleteUploadResponse = CompleteUploadResponse(
    fileId: string, fileName: string, fileUrl: string, fileSize: Long, totalChunks: int, status: string, message: string)

  /** `status.name()`: how the metadata service writes a status into its responses. */
  function StatusName(s: UploadStatus): (name: string)
    ensures |name| > 0
  {
    match s
    case PENDING => "PENDING"
    case ACTIVE => "ACTIVE"
    case COMPLETED => "COMPLETED"
    case FAILED => "FAILED"
    case ABORTED => "ABORTED"
  }

  /** Distinct statuses have distinct names, so the file side's string tests identify the status. */
  lemma StatusNameInjective(a: UploadStatus, b: UploadStatus)
    ensures StatusName(a) == StatusName(b) <==> a == b
  {
  }

  /** `String.valueOf` of a possibly null reference. */
  function JavaStringOf(s: Option<string>): string {
    match s
    case Some(v) => v
    case None => "null"
  }

  /** uploadChunk's status gate: COMPLETED, FAILED and ABORTED sessions take no more chunks. */
  predicate RejectsChunks(status: Option<string>) {
    status == Some("COMPLETED") || status == Some("FAILED") || status == Some("ABORTED")
  }

  /** completeUpload's status gate after the COMPLETED short-circuit: only ACTIVE and PENDING go on. */
  predicate MayComplete(status: Option<string>) {
    status == Some("ACTIVE") || status == Some("PENDING")
  }

  /**
   * The file side's chunk gate lets a status through exactly when the
   * metadata validator accepts the move to ACTIVE.
   */
  lemma ChunkGateAgreesWithValidator(s: UploadStatus)
    ensures !RejectsChunks(Some(StatusName(s))) <==> ValidateStateTransition(s, ACTIVE).Pass?
  {
  }

  /**
   * The file side's completion gate lets PENDING through although the
   * metadata validator refuses PENDING to COMPLETED; for every other
   * status that is not yet COMPLETED the two agree.
   */
  lemma CompletionGateAdmitsPending(s: UploadStatus)
    ensures MayComplete(Some(StatusName(PENDING))) && ValidateStateTransition(PENDING, COMPLETED).Fail?
    ensures s != PENDING && s != COMPLETED ==>
              (MayComplete(Some(StatusName(s))) <==> ValidateStateTransition(s, COMPLETED).Pass?)
  {
  }

  /**
   * getMetadataSafely: a null body or a 404 means the session does not
   * exist; any other Feign failure is a MetadataClientException.
   */
  function SafeMetadata(reply: Result<Option<FileMetadataResponse>, FeignError>): (r: Result<FileMetadataResponse, FileError>)
    ensures r.Success? <==> reply.Success? && reply.value.Some?
    ensures r.Success? ==> r.value == reply.value.value
    ensures r == Failure(UploadSessionNotFound) <==> reply == Success(None) || (reply.Failure? && reply.error.status == 404)
    ensures r == Failure(MetadataClientError) <==> reply.Failure? && reply.error.status != 404
  {
    match reply
    case Success(Some(meta)) => Success(meta)
    case Success(None) => Failure(UploadSessionNotFound)
    case Failure(FeignError(status)) => Failure(if status == 404 then UploadSessionNotFound else MetadataClientError)
  }

  /** A Feign failure inside the try blocks of uploadChunk and completeUpload: 409 is a state conflict. */
  function TranslateFeign(e: FeignError): (r: FileError)
    ensures r == InvalidUploadState <==> e.status == 409
    ensures r == MetadataClientError <==> e.status != 409
  {
    if e.status == 409 then InvalidUploadState else MetadataClientError
  }

  /** initiateUpload: S3 first, then the metadata session. */
  function InitiateRun(req: InitiateUploadRequest, chunkSize: Long,
                       s3Init: Result<MultipartInitResult, S3Failure>,
                       metaInit: Result<Long, FeignError>): (r: Run<InitiateUploadResponse>)
    requires req.fileSize > 0 && chunkSize > 0
    ensures 1 <= |r.calls| <= 2 && r.calls[0] == S3Initiate(req.fileName, req.contentType)
    ensures |r.calls| == 2 <==> s3Init.Success?
    ensures r.result.Success? <==> s3Init.Success? && metaInit.Success?
    ensures r.result.Success? ==>
              && r.result.value.fileName == req.fileName && r.result.value.fileSize == req.fileSize
              && r.result.value.totalChunks == TotalChunks(req.fileSize, chunkSize)
  {
    var c0 := S3Initiate(req.fileName, req.contentType);
    match s3Init
    case Failure(_) => Run([c0], Failure(S3UploadFailed))
    case Success(init) =>
      var totalChunks := TotalChunks(req.fileSize, chunkSize);
      var request := MetadataInitiateRequest(req.fileName, req.owner, init.uploadId, init.s3Key,
                                             totalChunks, req.fileSize, req.contentType);
      var calls := [c0, MetaInitiate(request)];
      match metaInit
      case Failure(_) => Run(calls, Failure(MetadataClientError))
      case Success(fileId) =>
        Run(calls, Success(InitiateUploadResponse(LongToString(fileId), init.uploadId, req.fileName, req.fileSize,
                                                   NarrowToInt(chunkSize), totalChunks, "Upload session initiated")))
  }

  /** uploadChunk: the session is read and gated, then S3 takes the part, then the metadata ledger. */
  function UploadChunkRun(req: ChunkUploadRequest,
                          getFile: Result<Option<FileMetadataResponse>, FeignError>,
                          part: Result<string, S3Failure>,
                          add: Outcome<FeignError>): (r: Run<ChunkUploadResponse>)
    ensures |r.calls| <= 3
    ensures r.calls == [] <==> ParseFileId(req.fileId).Failure?
    ensures r.result.Success? <==>
              && ParseFileId(req.fileId).Success? && getFile.Success? && getFile.value.Some?
              && !RejectsChunks(getFile.value.value.status) && part.Success? && add.Pass?
    ensures r.result.Success? ==> |r.calls| == 3 && r.result.value.status == "UPLOADED"
  {
    match ParseFileId(req.fileId)
    case Failure(e) => Run([], Failure(e))
    case Success(fileId) =>
      var c0 := MetaGetFile(fileId);
      match SafeMetadata(getFile)
      case Failure(e) => Run([c0], Failure(e))
      case Success(meta) =>
        if RejectsChunks(meta.status) then Run([c0], Failure(InvalidUploadState))
        else
          var c1 := S3UploadPart(meta.uploadId, meta.s3Key, req.chunkNumber, req.chunkData);
          match part
          case Failure(_) => Run([c0, c1], Failure(S3UploadFailed))
          case Success(etag) =>
            var calls := [c0, c1, MetaAddChunk(fileId, MetadataAddChunkRequest(req.chunkNumber, etag, |req.chunkData|))];
            match add
            case Fail(e) => Run(calls, Failure(TranslateFeign(e)))
            case Pass =>
              Run(calls, Success(ChunkUploadResponse(meta.uploadId, req.chunkNumber, etag, |req.chunkData|,
                                                     "UPLOADED", "Chunk uploaded successfully")))
  }

  /** buildCompleteResponse: the answer for a session that is already COMPLETED. */
  function AlreadyCompleted(meta: FileMetadataResponse, totalChunks: int): (r: CompleteUploadResponse)
    ensures r.status == "COMPLETED" && r.totalChunks == totalChunks
    ensures r.fileName == meta.fileName && r.fileSize == meta.size
    ensures meta.id.Some? ==> ParseFileId(r.fileId) == Success(meta.id.value)
  {
    var fileId := match meta.id case Some(id) => (ParseFileIdOfIssuedId(id); LongToString(id)) case None => "null";
    CompleteUploadResponse(fileId, meta.fileName, "https://s3..." + JavaStringOf(meta.s3Key), meta.size, totalChunks,
                           "COMPLETED", "File already uploaded")
  }

  /**
   * completeUpload: the session is read; a COMPLETED one is answered at
   * once; otherwise the ledger is fetched, S3 assembles the sorted parts,
   * and only then is the metadata session completed.
   */
  function CompleteRun(req: CompleteUploadRequest,
                       getFile: Result<Option<FileMetadataResponse>, FeignError>,
                       chunks: Result<seq<MetadataChunkResponse>, FeignError>,
                       assemble: Result<string, S3Failure>,
                       finish: Outcome<FeignError>): (r: Run<CompleteUploadResponse>)
    ensures |r.calls| <= 4
    ensures r.calls == [] <==> ParseFileId(req.fileId).Failure?
    ensures r.result.Success? <==>
              && ParseFileId(req.fileId).Success? && getFile.Success? && getFile.value.Some?
              && (|| getFile.value.value.status == Some("COMPLETED")
                  || (MayComplete(getFile.value.value.status) && chunks.Success? && assemble.Success? && finish.Pass?))
    ensures r.result.Success? ==> r.result.value.status == "COMPLETED"
  {
    match ParseFileId(req.fileId)
    case Failure(e) => Run([], Failure(e))
    case Success(fileId) =>
      var c0 := MetaGetFile(fileId);
      match SafeMetadata(getFile)
      case Failure(e) => Run([c0], Failure(e))
      case Success(meta) =>
        if meta.status == Some("COMPLETED") then Run([c0], Success(AlreadyCompleted(meta, meta.totalChunks)))
        else if !MayComplete(meta.status) then Run([c0], Failure(InvalidUploadState))
        else
          var tail := AssembleRun(fileId, meta, chunks, assemble, finish);
          Run([c0] + tail.calls, tail.result)
  }

  /** The part of completeUpload after the gate: fetch the ledger, assemble in S3, complete the session. */
  function AssembleRun(fileId: Long, meta: FileMetadataResponse,
                       chunks: Result<seq<MetadataChunkResponse>, FeignError>,
                       assemble: Result<string, S3Failure>,
                       finish: Outcome<FeignError>): (r: Run<CompleteUploadResponse>)
    ensures 1 <= |r.calls| <= 3
    ensures r.result.Success? <==> chunks.Success? && assemble.Success? && finish.Pass?
    ensures r.result.Success? ==>
              && r.result.value.status == "COMPLETED" && r.result.value.fileUrl == assemble.value
              && r.result.value.totalChunks == |chunks.value|
              && ParseFileId(r.result.value.fileId) == Success(fileId)
  {
    var c1 := MetaGetChunks(fileId);
    match chunks
    case Failure(e) => Run([c1], Failure(TranslateFeign(e)))
    case Success(ledger) =>
      var parts := PartsFor(ledger);
      var c2 := S3Complete(meta.uploadId, meta.s3Key, parts);
      match assemble
      case Failure(_) => Run([c1, c2], Failure(S3UploadFailed))
      case Success(fileUrl) =>
        var calls := [c1, c2, MetaComplete(fileId)];
        match finish
        case Fail(e) => Run(calls, Failure(TranslateFeign(e)))
        case Pass =>
          ParseFileIdOfIssuedId(fileId);
          Run(calls, Success(CompleteUploadResponse(LongToString(fileId), meta.fileName, fileUrl, meta.size, |parts|,
                                                    "COMPLETED", "File uploaded and assembled successfully")))
  }

  /** Every metadata write in a call sequence comes after some S3 call. */
  predicate StorageBeforeMetadataWrite(calls: seq<Call>) {
    forall j :: 0 <= j < |calls| && calls[j].IsMetadataWrite() ==> exists i :: 0 <= i < j && calls[i].IsS3()
  }

  predicate NoMetadataWrite(calls: seq<Call>) {
    forall j :: 0 <= j < |calls| ==> !calls[j].IsMetadataWrite()
  }

  predicate NoStorageCall(calls: seq<Call>) {
    forall j :: 0 <= j < |calls| ==> !calls[j].IsS3()
  }

  /**
   * initiateUpload starts the multipart upload before the metadata session;
   * when S3 fails the S3 failure is rethrown and no session is created.
   */
  lemma InitiateOrdersStorageFirst(req: InitiateUploadRequest, chunkSize: Long,
                                   s3Init: Result<MultipartInitResult, S3Failure>, metaInit: Result<Long, FeignError>)
    requires req.fileSize > 0 && chunkSize > 0
    ensures var run := InitiateRun(req, chunkSize, s3Init, metaInit);
            |run.calls| > 0 && run.calls[0] == S3Initiate(req.fileName, req.contentType)
            && StorageBeforeMetadataWrite(run.calls)
            && (s3Init.Failure? ==> run.result == Failure(S3UploadFailed) && NoMetadataWrite(run.calls))
            && (s3Init.Success? && metaInit.Failure? ==> run.result == Failure(MetadataClientError))
  {
    var run := InitiateRun(req, chunkSize, s3Init, metaInit);
    if s3Init.Success? {
      assert run.calls[0].IsS3();
    }
  }

  /**
   * The metadata session is told the S3 upload id, the S3 key and the
   * ceiling chunk count; the response's file id reads back as the id the
   * metadata service issued.
   */
  lemma InitiateHandsOverUpload(req: InitiateUploadRequest, chunkSize: Long,
                                s3Init: Result<MultipartInitResult, S3Failure>, metaInit: Result<Long, FeignError>)
    requires req.fileSize > 0 && chunkSize > 0 && s3Init.Success?
    ensures var run := InitiateRun(req, chunkSize, s3Init, metaInit);
            |run.calls| == 2 && run.calls[1].MetaInitiate?
            && run.calls[1].request.uploadId == s3Init.value.uploadId
            && run.calls[1].request.s3Key == s3Init.value.s3Key
            && run.calls[1].request.totalChunks == TotalChunks(req.fileSize, chunkSize)
            && (run.result.Success? ==>
                  && metaInit.Success?
                  && ParseFileId(run.result.value.fileId) == Success(metaInit.value)
                  && run.result.value.uploadId == s3Init.value.uploadId
                  && run.result.value.totalChunks == run.calls[1].request.totalChunks >= 1)
  {
    if metaInit.Success? {
      ParseFileIdOfIssuedId(metaInit.value);
    }
  }

  /** uploadChunk on a COMPLETED, FAILED or ABORTED session throws before any S3 call or metadata write. */
  lemma UploadChunkGatesTerminalSessions(req: ChunkUploadRequest, getFile: Result<Option<FileMetadataResponse>, FeignError>,
                                         part: Result<string, S3Failure>, add: Outcome<FeignError>)
    requires ParseFileId(req.fileId).Success? && getFile.Success? && getFile.value.Some?
    requires RejectsChunks(getFile.value.value.status)
    ensures var run := UploadChunkRun(req, getFile, part, add);
            run.result == Failure(InvalidUploadState)
            && run.calls == [MetaGetFile(ParseFileId(req.fileId).value)]
  {
  }

  /**
   * The ledger entry gets exactly the ETag S3 returned for the part and the
   * chunk's length as its size, and the response echoes both; a metadata
   * call happens only after S3 took the part.
   */
  lemma UploadChunkHandsOverEtag(req: ChunkUploadRequest, getFile: Result<Option<FileMetadataResponse>, FeignError>,
                                 part: Result<string, S3Failure>, add: Outcome<FeignError>)
    ensures var run := UploadChunkRun(req, getFile, part, add);
            && StorageBeforeMetadataWrite(run.calls)
            && (part.Failure? ==> NoMetadataWrite(run.calls))
            && (forall j :: 0 <= j < |run.calls| && run.calls[j].MetaAddChunk? ==>
                  && part.Success?
                  && run.calls[j].add == MetadataAddChunkRequest(req.chunkNumber, part.value, |req.chunkData|)
                  && run.calls[j].fileId == ParseFileId(req.fileId).value)
            && (run.result.Success? ==>
                  && part.Success? && add.Pass?
                  && run.result.value.etag == part.value
                  && run.result.value.chunkSize == |req.chunkData|
                  && run.result.value.chunkNumber == req.chunkNumber
                  && |run.calls| == 3 && run.calls[1].S3UploadPart? && run.calls[2].MetaAddChunk?)
  {
    var run := UploadChunkRun(req, getFile, part, add);
    if |run.calls| == 3 {
      assert run.calls[1].IsS3();
    }
  }

  /**
   * Error kinds of uploadChunk: a bad id and a missing session are
   * UploadSessionNotFound, an S3 failure is rethrown, and a metadata
   * rejection is InvalidUploadState for 409 and MetadataClientException
   * otherwise.
   */
  lemma UploadChunkErrorKinds(req: ChunkUploadRequest, getFile: Result<Option<FileMetadataResponse>, FeignError>,
                              part: Result<string, S3Failure>, add: Outcome<FeignError>)
    ensures var r := UploadChunkRun(req, getFile, part, add).result;
            && (ParseLong(req.fileId).None? ==> r == Failure(UploadSessionNotFound))
            && (ParseLong(req.fileId).Some? && getFile == Success(None) ==> r == Failure(UploadSessionNotFound))
            && (ParseLong(req.fileId).Some? && SafeMetadata(getFile).Success?
                && !RejectsChunks(getFile.value.value.status) ==>
                  && (part.Failure? ==> r == Failure(S3UploadFailed))
                  && (part.Success? && add.Fail? ==> r == Failure(TranslateFeign(add.error)))
                  && (part.Success? && add.Pass? ==> r.Success?))
  {
  }

  /**
   * completeUpload on a COMPLETED session answers COMPLETED with the
   * session's own chunk count, and neither S3 nor the metadata service is
   * asked to complete anything.
   */
  lemma CompleteIsIdempotent(req: CompleteUploadRequest, getFile: Result<Option<FileMetadataResponse>, FeignError>,
                             chunks: Result<seq<MetadataChunkResponse>, FeignError>,
                             assemble: Result<string, S3Failure>, finish: Outcome<FeignError>)
    requires ParseFileId(req.fileId).Success? && getFile.Success? && getFile.value.Some?
    requires getFile.value.value.status == Some("COMPLETED")
    ensures var run := CompleteRun(req, getFile, chunks, assemble, finish);
            && run.calls == [MetaGetFile(ParseFileId(req.fileId).value)]
            && run.result.Success? && run.result.value.status == "COMPLETED"
            && run.result.value.totalChunks == getFile.value.value.totalChunks
            && NoStorageCall(run.calls) && NoMetadataWrite(run.calls)
  {
  }

  /** completeUpload on a session neither COMPLETED, ACTIVE nor PENDING throws InvalidUploadState with no S3 call. */
  lemma CompleteGatesOtherStates(req: CompleteUploadRequest, getFile: Result<Option<FileMetadataResponse>, FeignError>,
                                 chunks: Result<seq<MetadataChunkResponse>, FeignError>,
                                 assemble: Result<string, S3Failure>, finish: Outcome<FeignError>)
    requires ParseFileId(req.fileId).Success? && getFile.Success? && getFile.value.Some?
    requires getFile.value.value.status != Some("COMPLETED") && !MayComplete(getFile.value.value.status)
    ensures var run := CompleteRun(req, getFile, chunks, assemble, finish);
            run.result == Failure(InvalidUploadState) && NoStorageCall(run.calls) && NoMetadataWrite(run.calls)
  {
  }

  /** The calls past completeUpload's gate: the ledger fetch, then the assembly, then the completion. */
  lemma AssembleShape(fileId: Long, meta: FileMetadataResponse, chunks: Result<seq<MetadataChunkResponse>, FeignError>,
                      assemble: Result<string, S3Failure>, finish: Outcome<FeignError>)
    ensures var calls := AssembleRun(fileId, meta, chunks, assemble, finish).calls;
            && 1 <= |calls| <= 3 && calls[0] == MetaGetChunks(fileId)
            && (|calls| >= 2 <==> chunks.Success?)
            && (|calls| >= 2 ==> calls[1] == S3Complete(meta.uploadId, meta.s3Key, PartsFor(chunks.value)))
            && (|calls| == 3 <==> chunks.Success? && assemble.Success?)
            && (|calls| == 3 ==> calls[2] == MetaComplete(fileId))
  {
  }

  /** completeUpload completes the metadata session only after S3 took part in the run. */
  lemma CompleteOrdersStorageFirst(req: CompleteUploadRequest, getFile: Result<Option<FileMetadataResponse>, FeignError>,
                                   chunks: Result<seq<MetadataChunkResponse>, FeignError>,
                                   assemble: Result<string, S3Failure>, finish: Outcome<FeignError>)
    ensures StorageBeforeMetadataWrite(CompleteRun(req, getFile, chunks, assemble, finish).calls)
  {
    var run := CompleteRun(req, getFile, chunks, assemble, finish);
    if ParseFileId(req.fileId).Success? && SafeMetadata(getFile).Success? {
      var fileId, meta := ParseFileId(req.fileId).value, SafeMetadata(getFile).value;
      if meta.status != Some("COMPLETED") && MayComplete(meta.status) {
        AssembleShape(fileId, meta, chunks, assemble, finish);
        var tail := AssembleRun(fileId, meta, chunks, assemble, finish);
        assert run.calls == [MetaGetFile(fileId)] + tail.calls;
        if |tail.calls| == 3 {
          assert run.calls[2].IsS3();
        }
      }
    }
  }

  /**
   * The only assembly request is the third call, and the parts it carries
   * are the fetched ledger sorted by chunk number (PartsAreSortedPermutation
   * says what that list is).
   */
  lemma CompleteSendsSortedLedger(req: CompleteUploadRequest, getFile: Result<Option<FileMetadataResponse>, FeignError>,
                                  chunks: Result<seq<MetadataChunkResponse>, FeignError>,
                                  assemble: Result<string, S3Failure>, finish: Outcome<FeignError>)
    ensures var run := CompleteRun(req, getFile, chunks, assemble, finish);
            forall j :: 0 <= j < |run.calls| && run.calls[j].S3Complete? ==>
              j == 2 && chunks.Success? && run.calls[j].parts == PartsFor(chunks.value)
  {
    if ParseFileId(req.fileId).Success? && SafeMetadata(getFile).Success? {
      var fileId, meta := ParseFileId(req.fileId).value, SafeMetadata(getFile).value;
      AssembleShape(fileId, meta, chunks, assemble, finish);
    }
  }

  /** A successful assembly reports one part per ledger entry. */
  lemma CompleteCountsLedger(req: CompleteUploadRequest, getFile: Result<Option<FileMetadataResponse>, FeignError>,
                             chunks: Result<seq<MetadataChunkResponse>, FeignError>,
                             assemble: Result<string, S3Failure>, finish: Outcome<FeignError>)
    ensures var run := CompleteRun(req, getFile, chunks, assemble, finish);
            run.result.Success? && |run.calls| == 4 ==> chunks.Success? && run.result.value.totalChunks == |chunks.value|
  {
    if chunks.Success? {
      PartsAreSortedPermutation(chunks.value);
    }
  }

  /**
   * Error kinds of completeUpload once the session passed the gate: an S3
   * failure is rethrown and the metadata session is not completed (and the
   * S3 upload is not aborted); after S3 assembled the object a metadata 409
   * is InvalidUploadState and any other metadata failure is
   * MetadataClientException.
   */
  lemma CompleteErrorKinds(req: CompleteUploadRequest, getFile: Result<Option<FileMetadataResponse>, FeignError>,
                           chunks: Result<seq<MetadataChunkResponse>, FeignError>,
                           assemble: Result<string, S3Failure>, finish: Outcome<FeignError>)
    requires ParseFileId(req.fileId).Success? && getFile.Success? && getFile.value.Some?
    requires MayComplete(getFile.value.value.status) && chunks.Success?
    ensures var run := CompleteRun(req, getFile, chunks, assemble, finish);
            && (assemble.Failure? ==>
                  run.result == Failure(S3UploadFailed) && NoMetadataWrite(run.calls)
                  && forall j :: 0 <= j < |run.calls| ==> !run.calls[j].S3Abort?)
            && (assemble.Success? && finish.Fail? && finish.error.status == 409 ==>
                  run.result == Failure(InvalidUploadState))
            && (assemble.Success? && finish.Fail? && finish.error.status != 409 ==>
                  run.result == Failure(MetadataClientError) && run.calls[2].S3Complete?)
  {
    var fileId, meta := ParseFileId(req.fileId).value, getFile.value.value;
    AssembleShape(fileId, meta, chunks, assemble, finish);
  }

  /** A file id that is not a number is UploadSessionNotFound before any call. */
  lemma BadIdMakesNoCalls(req: CompleteUploadRequest, chunkReq: ChunkUploadRequest,
                          getFile: Result<Option<FileMetadataResponse>, FeignError>,
                          chunks: Result<seq<MetadataChunkResponse>, FeignError>,
                          assemble: Result<string, S3Failure>, finish: Outcome<FeignError>,
                          part: Result<string, S3Failure>, add: Outcome<FeignError>)
    requires ParseLong(req.fileId).None? && ParseLong(chunkReq.fileId).None?
    ensures CompleteRun(req, getFile, chunks, assemble, finish) == Run([], Failure(UploadSessionNotFound))
    ensures UploadChunkRun(chunkReq, getFile, part, add) == Run([], Failure(UploadSessionNotFound))
  {
  }

  /**
   * completeUpload lets a PENDING session through to S3, which assembles
   * the object before the metadata service refuses PENDING to COMPLETED.
   */
  lemma PendingCompletionReachesStorage(req: CompleteUploadRequest, meta: FileMetadataResponse,
                                        ledger: seq<MetadataChunkResponse>, fileUrl: string)
    requires ParseFileId(req.fileId).Success? && meta.status == Some(StatusName(PENDING))
    ensures var run := CompleteRun(req, Success(Some(meta)), Success(ledger), Success(fileUrl), Fail(FeignError(409)));
            && |run.calls| == 4 && run.calls[2] == S3Complete(meta.uploadId, meta.s3Key, PartsFor(ledger))
            && run.result == Failure(InvalidUploadState)
    ensures ValidateStateTransition(PENDING, COMPLETED) == Fail(IllegalStateTransition(PENDING, COMPLETED))
  {
  }

  /** A duplicate chunk still goes to S3 again before the metadata service skips it. */
  lemma DuplicateChunkReachesStorage(req: ChunkUploadRequest, meta: FileMetadataResponse, etag: string)
    requires ParseFileId(req.fileId).Success? && !RejectsChunks(meta.status)
    ensures var run := UploadChunkRun(req, Success(Some(meta)), Success(etag), Pass);
            run.calls[1] == S3UploadPart(meta.uploadId, meta.s3Key, req.chunkNumber, req.chunkData)
  {
  }
}
