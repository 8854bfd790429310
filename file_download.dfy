/**
 * FileDownloadService: a download link is handed out only to the owner of
 * the file, and only the owner's requests reach the presigner. DownloadRun
 * is the specification of generateDownloadUrl; the class
 * FileDownloadService is the implementation proved to perform that run.
 */
module FileDownload {
  import opened Wrappers
  import opened JavaLong
  import opened Collaborators
  import opened ChunkPlan

  /**
   * generateDownloadUrl: parse the id, look the file up (a Feign failure is
   * not caught, an absent body is dereferenced), compare the owner with the
   * requester by string equality, then presign the file's key.
   */
  function DownloadRun(fileIdStr: string, userId: string,
                       getFile: Result<Option<FileMetadataResponse>, FeignError>,
                       presign: Result<string, S3Failure>): (r: Run<string>)
    ensures |r.calls| <= 2
    ensures r.result.Success? <==>
              && ParseFileId(fileIdStr).Success? && getFile.Success? && getFile.value.Some?
              && getFile.value.value.owner == userId && presign.Success?
    ensures r.result.Success? ==>
              r.result.value == presign.value && |r.calls| == 2 && r.calls[1] == S3Presign(getFile.value.value.s3Key)
    ensures (exists j :: 0 <= j < |r.calls| && r.calls[j].S3Presign?) ==>
              getFile.Success? && getFile.value.Some? && getFile.value.value.owner == userId
  {
    match ParseFileId(fileIdStr)
    case Failure(e) => Run([], Failure(e))
    case Success(fileId) =>
      var c0 := MetaGetFile(fileId);
      match getFile
      case Failure(FeignError(status)) => Run([c0], Failure(MetadataCallFailed(status)))
      case Success(None) => Run([c0], Failure(NullDereference))
      case Success(Some(metadata)) =>
        if metadata.owner != userId then Run([c0], Failure(UnauthorizedAccess))
        else
          var c1 := S3Presign(metadata.s3Key);
          match presign
          case Failure(_) => Run([c0, c1], Failure(S3UploadFailed))
          case Success(url) => Run([c0, c1], Success(url))
  }

  /** A file id that is not a number fails with UploadSessionNotFound before any lookup. */
  lemma BadIdFailsBeforeLookup(fileIdStr: string, userId: string,
                               getFile: Result<Option<FileMetadataResponse>, FeignError>, presign: Result<string, S3Failure>)
    requires ParseLong(fileIdStr).None?
    ensures DownloadRun(fileIdStr, userId, getFile, presign) == Run([], Failure(UploadSessionNotFound))
  {
  }

  /** A requester other than the owner gets UnauthorizedAccess, and nothing is presigned. */
  lemma NonOwnerIsRefused(fileIdStr: string, userId: string, metadata: FileMetadataResponse, presign: Result<string, S3Failure>)
    requires ParseLong(fileIdStr).Some? && metadata.owner != userId
    ensures var run := DownloadRun(fileIdStr, userId, Success(Some(metadata)), presign);
            run.result == Failure(UnauthorizedAccess)
            && run.calls == [MetaGetFile(ParseLong(fileIdStr).value)]
  {
  }

  /** The owner gets the presigned link for the file's own key. */
  lemma OwnerGetsLinkForKey(fileIdStr: string, metadata: FileMetadataResponse, url: string)
    requires ParseLong(fileIdStr).Some?
    ensures var run := DownloadRun(fileIdStr, metadata.owner, Success(Some(metadata)), Success(url));
            run.result == Success(url)
            && run.calls == [MetaGetFile(ParseLong(fileIdStr).value), S3Presign(metadata.s3Key)]
  {
  }

  /** Authorization looks at the owner only: the session's status changes nothing. */
  lemma StatusIsNotConsulted(fileIdStr: string, userId: string, metadata: FileMetadataResponse, status: Option<string>,
                             presign: Result<string, S3Failure>)
    ensures DownloadRun(fileIdStr, userId, Success(Some(metadata)), presign)
         == DownloadRun(fileIdStr, userId, Success(Some(metadata.(status := status))), presign)
  {
  }

  datatype DownloadRequest = DownloadRequest(fileId: string, userId: string)

  function PresignCount(calls: seq<Call>): nat {
    if calls == [] then 0 else (if calls[0].S3Presign? then 1 else 0) + PresignCount(calls[1..])
  }

  lemma {:induction false} PresignCountAppend(a: seq<Call>, b: seq<Call>)
    ensures PresignCount(a + b) == PresignCount(a) + PresignCount(b)
    decreases |a|
  {
    if a != [] {
      assert (a + b)[1..] == a[1..] + b;
      PresignCountAppend(a[1..], b);
    } else {
      assert a + b == b;
    }
  }

  /** The calls of a series of download requests for one file whose lookups and presigns succeed. */
  function SeriesCalls(reqs: seq<DownloadRequest>, metadata: FileMetadataResponse, url: string): seq<Call>
    decreases |reqs|
  {
    if reqs == [] then []
    else DownloadRun(reqs[0].fileId, reqs[0].userId, Success(Some(metadata)), Success(url)).calls
         + SeriesCalls(reqs[1..], metadata, url)
  }

  /** How many requests in the series name a valid id and come from the owner. */
  function OwnerRequests(reqs: seq<DownloadRequest>, owner: string): nat
    decreases |reqs|
  {
    if reqs == [] then 0
    else (if ParseLong(reqs[0].fileId).Some? && reqs[0].userId == owner then 1 else 0) + OwnerRequests(reqs[1..], owner)
  }

  /** Over any mix of requests, the presigner is called exactly once per owner request. */
  lemma {:induction false} PresignOncePerOwnerRequest(reqs: seq<DownloadRequest>, metadata: FileMetadataResponse, url: string)
    ensures PresignCount(SeriesCalls(reqs, metadata, url)) == OwnerRequests(reqs, metadata.owner)
    decreases |reqs|
  {
    if reqs != [] {
      var first := DownloadRun(reqs[0].fileId, reqs[0].userId, Success(Some(metadata)), Success(url)).calls;
      PresignCountAppend(first, SeriesCalls(reqs[1..], metadata, url));
      PresignOncePerOwnerRequest(reqs[1..], metadata, url);
      if ParseLong(reqs[0].fileId).Some? && reqs[0].userId == metadata.owner {
        assert first == [MetaGetFile(ParseLong(reqs[0].fileId).value), S3Presign(metadata.s3Key)];
        assert PresignCount(first) == 1;
      } else if ParseLong(reqs[0].fileId).Some? {
        assert first == [MetaGetFile(ParseLong(reqs[0].fileId).value)];
        assert PresignCount(first) == 0;
      } else {
        assert first == [];
      }
    }
  }

  class FileDownloadService {
    const metadataClient: MetadataClient
    const s3: ObjectStore

    ghost predicate Valid() {
      s3.trace == metadataClient.trace
    }

    constructor (metadataClient: MetadataClient, s3: ObjectStore)
      requires s3.trace == metadataClient.trace
      ensures Valid() && this.metadataClient == metadataClient && this.s3 == s3
    {
      this.metadataClient := metadataClient;
      this.s3 := s3;
    }

    method GenerateDownloadUrl(fileIdStr: string, userId: string) returns (r: Result<string, FileError>)
      requires Valid()
      modifies s3.trace
      ensures var n := |old(s3.trace.calls)|;
              var run := DownloadRun(fileIdStr, userId, metadataClient.getFileReply(n), s3.presignReply(n + 1));
              s3.trace.calls == old(s3.trace.calls) + run.calls && r == run.result
    {
      var parsed := ParseFileId(fileIdStr);
      if parsed.Failure? {
        return Failure(parsed.error);
      }
      var response := metadataClient.GetFile(parsed.value);
      if response.Failure? {
        return Failure(MetadataCallFailed(response.error.status));
      }
      if response.value.None? {
        return Failure(NullDereference);
      }
      var metadata := response.value.value;
      if metadata.owner != userId {
        return Failure(UnauthorizedAccess);
      }
      var url := s3.GeneratePresignedUrl(metadata.s3Key);
      if url.Failure? {
        return Failure(S3UploadFailed);
      }
      r := Success(url.value);
    }
  }
}
