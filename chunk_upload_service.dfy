/**
 * ChunkUploadService of the file service: the coordinator that drives the
 * object store and the metadata service. This class is the implementation;
 * the run functions in UploadProtocol are its specification. Each method
 * makes its calls on the shared trace and does exactly what the run of
 * the same name describes, given what the collaborators answer at those
 * trace positions.
 */
module ChunkUploadCoordinator {
  import opened Wrappers
  import opened JavaLong
  import opened Collaborators
  import opened ChunkPlan
  import opened UploadProtocol

  class ChunkUploadService {
    const s3: ObjectStore
    const metadataClient: MetadataClient
    const defaultChunkSize: Long

    /** Both collaborators log to one trace; the configured chunk size is positive. */
    ghost predicate Valid() {
      s3.trace == metadataClient.trace && defaultChunkSize > 0
    }

    constructor (s3: ObjectStore, metadataClient: MetadataClient, defaultChunkSize: Long := DEFAULT_CHUNK_SIZE)
      requires s3.trace == metadataClient.trace && defaultChunkSize > 0
      ensures Valid()
      ensures this.s3 == s3 && this.metadataClient == metadataClient && this.defaultChunkSize == defaultChunkSize
    {
      this.s3 := s3;
      this.metadataClient := metadataClient;
      this.defaultChunkSize := defaultChunkSize;
    }

    method InitiateUpload(request: InitiateUploadRequest) returns (r: Result<InitiateUploadResponse, FileError>)
      requires Valid() && request.fileSize > 0
      modifies s3.trace
      ensures var n := |old(s3.trace.calls)|;
              var run := InitiateRun(request, defaultChunkSize, s3.initiateReply(n), metadataClient.initiateReply(n + 1));
              s3.trace.calls == old(s3.trace.calls) + run.calls && r == run.result
    {
      var initResult := s3.InitiateMultipartUpload(request.fileName, request.contentType);
      if initResult.Failure? {
        return Failure(S3UploadFailed);
      }
      var s3UploadId := initResult.value.uploadId;
      var totalChunks := TotalChunks(request.fileSize, defaultChunkSize);
      var metadataRequest := MetadataInitiateRequest(request.fileName, request.owner, s3UploadId, initResult.value.s3Key,
                                                     totalChunks, request.fileSize, request.contentType);
      var fileId := metadataClient.InitiateSession(metadataRequest);
      if fileId.Failure? {
        return Failure(MetadataClientError);
      }
      r := Success(InitiateUploadResponse(LongToString(fileId.value), s3UploadId, request.fileName, request.fileSize,
                                          NarrowToInt(defaultChunkSize), totalChunks, "Upload session initiated"));
    }

    method UploadChunk(request: ChunkUploadRequest) returns (r: Result<ChunkUploadResponse, FileError>)
      requires Valid()
      modifies s3.trace
      ensures var n := |old(s3.trace.calls)|;
              var run := UploadChunkRun(request, metadataClient.getFileReply(n), s3.partReply(n + 1),
                                        metadataClient.addChunkReply(n + 2));
              s3.trace.calls == old(s3.trace.calls) + run.calls && r == run.result
    {
      var parsed := ParseFileId(request.fileId);
      if parsed.Failure? {
        return Failure(parsed.error);
      }
      var fileId := parsed.value;
      var fileMetadata := GetMetadataSafely(fileId);
      if fileMetadata.Failure? {
        return Failure(fileMetadata.error);
      }
      var meta := fileMetadata.value;
      if RejectsChunks(meta.status) {
        return Failure(InvalidUploadState);
      }
      var etag := s3.UploadPart(meta.uploadId, meta.s3Key, request.chunkNumber, request.chunkData);
      if etag.Failure? {
        return Failure(S3UploadFailed);
      }
      var chunkRequest := MetadataAddChunkRequest(request.chunkNumber, etag.value, |request.chunkData|);
      var added := metadataClient.AddChunk(fileId, chunkRequest);
      if added.Fail? {
        return Failure(TranslateFeign(added.error));
      }
      r := Success(ChunkUploadResponse(meta.uploadId, request.chunkNumber, etag.value, |request.chunkData|,
                                       "UPLOADED", "Chunk uploaded successfully"));
    }

    method CompleteUpload(request: CompleteUploadRequest) returns (r: Result<CompleteUploadResponse, FileError>)
      requires Valid()
      modifies s3.trace
      ensures var n := |old(s3.trace.calls)|;
              var run := CompleteRun(request, metadataClient.getFileReply(n), metadataClient.chunksReply(n + 1),
                                     s3.completeReply(n + 2), metadataClient.completeReply(n + 3));
              s3.trace.calls == old(s3.trace.calls) + run.calls && r == run.result
    {
      var parsed := ParseFileId(request.fileId);
      if parsed.Failure? {
        return Failure(parsed.error);
      }
      var fileId := parsed.value;
      var fileMetadata := GetMetadataSafely(fileId);
      if fileMetadata.Failure? {
        return Failure(fileMetadata.error);
      }
      var meta := fileMetadata.value;
      if meta.status == Some("COMPLETED") {
        return Success(AlreadyCompleted(meta, meta.totalChunks));
      }
      if !MayComplete(meta.status) {
        return Failure(InvalidUploadState);
      }
      r := AssembleAndFinish(fileId, meta);
    }

    /** completeUpload past the gate: ledger, S3 assembly, metadata completion. */
    method AssembleAndFinish(fileId: Long, meta: FileMetadataResponse) returns (r: Result<CompleteUploadResponse, FileError>)
      requires Valid()
      modifies s3.trace
      ensures var n := |old(s3.trace.calls)|;
              var run := AssembleRun(fileId, meta, metadataClient.chunksReply(n), s3.completeReply(n + 1),
                                     metadataClient.completeReply(n + 2));
              s3.trace.calls == old(s3.trace.calls) + run.calls && r == run.result
    {
      ghost var start := s3.trace.calls;
      var chunks := metadataClient.GetUploadedChunks(fileId);
      if chunks.Failure? {
        return Failure(TranslateFeign(chunks.error));
      }
      var s3Parts := PartsFor(chunks.value);
      var fileUrl := s3.CompleteMultipartUpload(meta.uploadId, meta.s3Key, s3Parts);
      ghost var c12 := [MetaGetChunks(fileId), S3Complete(meta.uploadId, meta.s3Key, s3Parts)];
      assert s3.trace.calls == start + c12;
      if fileUrl.Failure? {
        return Failure(S3UploadFailed);
      }
      var finished := metadataClient.CompleteSession(fileId);
      assert s3.trace.calls == start + (c12 + [MetaComplete(fileId)]);
      if finished.Fail? {
        return Failure(TranslateFeign(finished.error));
      }
      r := Success(CompleteUploadResponse(LongToString(fileId), meta.fileName, fileUrl.value, meta.size, |s3Parts|,
                                          "COMPLETED", "File uploaded and assembled successfully"));
    }

    /** getMetadataSafely: one lookup, its failures translated by SafeMetadata. */
    method GetMetadataSafely(fileId: Long) returns (r: Result<FileMetadataResponse, FileError>)
      requires Valid()
      modifies s3.trace
      ensures s3.trace.calls == old(s3.trace.calls) + [MetaGetFile(fileId)]
      ensures r == SafeMetadata(metadataClient.getFileReply(|old(s3.trace.calls)|))
    {
      var response := metadataClient.GetFile(fileId);
      r := SafeMetadata(response);
    }
  }
}
