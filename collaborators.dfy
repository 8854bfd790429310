/**
 * What the file service sees of the two systems it coordinates: the object
 * store (S3 multipart uploads, through S3MultipartService) and the metadata
 * service (through the Feign interface MetadataClient). Both are abstract
 * objects that record every call, in order, on one shared Trace; what a
 * call answers (a value or a failure) is fixed by a reply function of the
 * call's position in that trace, so every behaviour of the real systems,
 * failures included, is one choice of reply functions.
 */
module Collaborators {
  import opened Wrappers
  import opened JavaLong

  /** A byte of a chunk's payload. */
  type byte = bv8

  /** FileMetadataResponse of the file service; the nullable references that matter are Options. */
  datatype FileMetadataResponse = FileMetadataResponse(
    id: Option<Long>,
    fileName: string,
    fileType: string,
    size: Long,
    s3Key: Option<string>,
    owner: string,
    uploadId: string,
    status: Option<string>,
    totalChunks: int)

  /** One entry of the list getUploadedChunks answers. */
  datatype MetadataChunkResponse = MetadataChunkResponse(id: Long, chunkNumber: int, etag: string, size: int)

  /** The body of POST /metadata/initiate. */
  datatype MetadataInitiateRequest = MetadataInitiateRequest(
    fileName: string,
    userId: string,
    uploadId: string,
    s3Key: string,
    totalChunks: int,
    size: Long,
    contentType: string)

  /** The body of POST /metadata/{fileId}/chunk. */
  datatype MetadataAddChunkRequest = MetadataAddChunkRequest(chunkNumber: int, etag: string, size: int)

  /** S3MultipartService.CompletedPartInfo: a part number and the ETag S3 gave that part. */
  datatype CompletedPartInfo = CompletedPartInfo(partNumber: int, eTag: string)

  /** S3MultipartService.MultipartInitResult. */
  datatype MultipartInitResult = MultipartInitResult(uploadId: string, s3Key: string)

  /** A FeignException: the HTTP status the metadata service answered with. */
  datatype FeignError = FeignError(status: int)

  /** An S3UploadFailedException thrown by S3MultipartService. */
  datatype S3Failure = S3Failure

  /** One call to a collaborator, with its arguments. */
  datatype Call =
    | S3Initiate(fileName: string, contentType: string)
    | S3UploadPart(uploadId: string, s3Key: Option<string>, partNumber: int, data: seq<byte>)
    | S3Complete(uploadId: string, s3Key: Option<string>, parts: seq<CompletedPartInfo>)
    | S3Abort(uploadId: string, s3Key: Option<string>)
    | S3Presign(s3Key: Option<string>)
    | MetaInitiate(request: MetadataInitiateRequest)
    | MetaGetFile(fileId: Long)
    | MetaAddChunk(fileId: Long, add: MetadataAddChunkRequest)
    | MetaGetChunks(fileId: Long)
    | MetaComplete(fileId: Long)
  {
    predicate IsS3() {
      S3Initiate? || S3UploadPart? || S3Complete? || S3Abort? || S3Presign?
    }

    /** A call that changes what the metadata service has stored. */
    predicate IsMetadataWrite() {
      MetaInitiate? || MetaAddChunk? || MetaComplete?
    }
  }

  /** The exceptions the file service's upload and download operations throw. */
  datatype FileError =
    | UploadSessionNotFound
    | InvalidUploadState
    | S3UploadFailed
    | MetadataClientError
    | UnauthorizedAccess
    /** a FeignException the operation does not catch, with its HTTP status */
    | MetadataCallFailed(status: int)
    /** a NullPointerException on an absent metadata response */
    | NullDereference

  /** The calls one operation makes, in order, and what it returns or throws. */
  datatype Run<+T> = Run(calls: seq<Call>, result: Result<T, FileError>)

  /** The log of collaborator calls, shared by both collaborators. */
  class Trace {
    var calls: seq<Call>

    constructor ()
      ensures calls == []
    {
      calls := [];
    }

    method Record(c: Call)
      modifies this
      ensures calls == old(calls) + [c]
    {
      calls := calls + [c];
    }
  }

  /** The object store, as S3MultipartService offers it. */
  class ObjectStore {
    const trace: Trace
    const initiateReply: nat -> Result<MultipartInitResult, S3Failure>
    const partReply: nat -> Result<string, S3Failure>
    const completeReply: nat -> Result<string, S3Failure>
    const presignReply: nat -> Result<string, S3Failure>

    constructor (trace: Trace, initiateReply: nat -> Result<MultipartInitResult, S3Failure>,
                 partReply: nat -> Result<string, S3Failure>, completeReply: nat -> Result<string, S3Failure>,
                 presignReply: nat -> Result<string, S3Failure>)
      ensures this.trace == trace && this.initiateReply == initiateReply && this.partReply == partReply
      ensures this.completeReply == completeReply && this.presignReply == presignReply
    {
      this.trace := trace;
      this.initiateReply := initiateReply;
      this.partReply := partReply;
      this.completeReply := completeReply;
      this.presignReply := presignReply;
    }

    /** initiateMultipartUpload: an upload id and a generated object key. */
    method InitiateMultipartUpload(fileName: string, contentType: string) returns (r: Result<MultipartInitResult, S3Failure>)
      modifies trace
      ensures trace.calls == old(trace.calls) + [S3Initiate(fileName, contentType)]
      ensures r == initiateReply(|old(trace.calls)|)
    {
      r := initiateReply(|trace.calls|);
      trace.Record(S3Initiate(fileName, contentType));
    }

    /** uploadPart: the ETag S3 assigns the part. */
    method UploadPart(uploadId: string, s3Key: Option<string>, partNumber: int, data: seq<byte>) returns (r: Result<string, S3Failure>)
      modifies trace
      ensures trace.calls == old(trace.calls) + [S3UploadPart(uploadId, s3Key, partNumber, data)]
      ensures r == partReply(|old(trace.calls)|)
    {
      r := partReply(|trace.calls|);
      trace.Record(S3UploadPart(uploadId, s3Key, partNumber, data));
    }

    /** completeMultipartUpload: assembles the parts and answers the object's location. */
    method CompleteMultipartUpload(uploadId: string, s3Key: Option<string>, parts: seq<CompletedPartInfo>)
      returns (r: Result<string, S3Failure>)
      modifies trace
      ensures trace.calls == old(trace.calls) + [S3Complete(uploadId, s3Key, parts)]
      ensures r == completeReply(|old(trace.calls)|)
    {
      r := completeReply(|trace.calls|);
      trace.Record(S3Complete(uploadId, s3Key, parts));
    }

    /** abortMultipartUpload: discards the parts; its own failures are swallowed. */
    method AbortMultipartUpload(uploadId: string, s3Key: Option<string>)
      modifies trace
      ensures trace.calls == old(trace.calls) + [S3Abort(uploadId, s3Key)]
    {
      trace.Record(S3Abort(uploadId, s3Key));
    }

    /** generatePresignedUrl: a time-limited download link for the key. */
    method GeneratePresignedUrl(s3Key: Option<string>) returns (r: Result<string, S3Failure>)
      modifies trace
      ensures trace.calls == old(trace.calls) + [S3Presign(s3Key)]
      ensures r == presignReply(|old(trace.calls)|)
    {
      r := presignReply(|trace.calls|);
      trace.Record(S3Presign(s3Key));
    }
  }

  /** The metadata service, as the Feign interface MetadataClient offers it. */
  class MetadataClient {
    const trace: Trace
    const initiateReply: nat -> Result<Long, FeignError>
    const getFileReply: nat -> Result<Option<FileMetadataResponse>, FeignError>
    const addChunkReply: nat -> Outcome<FeignError>
    const chunksReply: nat -> Result<seq<MetadataChunkResponse>, FeignError>
    const completeReply: nat -> Outcome<FeignError>

    constructor (trace: Trace, initiateReply: nat -> Result<Long, FeignError>,
                 getFileReply: nat -> Result<Option<FileMetadataResponse>, FeignError>,
                 addChunkReply: nat -> Outcome<FeignError>,
                 chunksReply: nat -> Result<seq<MetadataChunkResponse>, FeignError>,
                 completeReply: nat -> Outcome<FeignError>)
      ensures this.trace == trace && this.initiateReply == initiateReply && this.getFileReply == getFileReply
      ensures this.addChunkReply == addChunkReply && this.chunksReply == chunksReply
      ensures this.completeReply == completeReply
    {
      this.trace := trace;
      this.initiateReply := initiateReply;
      this.getFileReply := getFileReply;
      this.addChunkReply := addChunkReply;
      this.chunksReply := chunksReply;
      this.completeReply := completeReply;
    }

    method InitiateSession(request: MetadataInitiateRequest) returns (r: Result<Long, FeignError>)
      modifies trace
      ensures trace.calls == old(trace.calls) + [MetaInitiate(request)]
      ensures r == initiateReply(|old(trace.calls)|)
    {
      r := initiateReply(|trace.calls|);
      trace.Record(MetaInitiate(request));
    }

    method GetFile(fileId: Long) returns (r: Result<Option<FileMetadataResponse>, FeignError>)
      modifies trace
      ensures trace.calls == old(trace.calls) + [MetaGetFile(fileId)]
      ensures r == getFileReply(|old(trace.calls)|)
    {
      r := getFileReply(|trace.calls|);
      trace.Record(MetaGetFile(fileId));
    }

    method AddChunk(fileId: Long, request: MetadataAddChunkRequest) returns (r: Outcome<FeignError>)
      modifies trace
      ensures trace.calls == old(trace.calls) + [MetaAddChunk(fileId, request)]
      ensures r == addChunkReply(|old(trace.calls)|)
    {
      r := addChunkReply(|trace.calls|);
      trace.Record(MetaAddChunk(fileId, request));
    }

    method GetUploadedChunks(fileId: Long) returns (r: Result<seq<MetadataChunkResponse>, FeignError>)
      modifies trace
      ensures trace.calls == old(trace.calls) + [MetaGetChunks(fileId)]
      ensures r == chunksReply(|old(trace.calls)|)
    {
      r := chunksReply(|trace.calls|);
      trace.Record(MetaGetChunks(fileId));
    }

    method CompleteSession(fileId: Long) returns (r: Outcome<FeignError>)
      modifies trace
      ensures trace.calls == old(trace.calls) + [MetaComplete(fileId)]
      ensures r == completeReply(|old(trace.calls)|)
    {
      r := completeReply(|trace.calls|);
      trace.Record(MetaComplete(fileId));
    }
  }
}
