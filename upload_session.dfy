/**
 * The file service's in-memory record of a multipart upload (UploadSession)
 * and the repository that keeps those records by S3 upload id.
 * Timestamps are values of an abstract clock passed in as `now`.
 */
module UploadSessions {
  import opened Wrappers

  /** UploadSession.ChunkInfo. */
  datatype ChunkInfo = ChunkInfo(chunkNumber: int, etag: string, size: int, uploadedAt: Option<int>)

  class UploadSession {
    var uploadId: string
    var fileName: string
    var fileSize: int
    var contentType: string
    var owner: string
    var s3Key: string
    var chunkSize: int
    var totalChunks: int
    /** a list that a setter or the all-arguments constructor may leave null */
    var uploadedChunks: Option<seq<ChunkInfo>>
    var initiatedAt: Option<int>
    var lastUpdatedAt: Option<int>
    var status: Option<string>

    /** UploadSession.builder()...build(): the chunk list starts empty unless the builder sets one. */
    constructor Build(uploadId: string, fileName: string, fileSize: int, contentType: string, owner: string,
                      s3Key: string, chunkSize: int, totalChunks: int,
                      uploadedChunks: Option<seq<ChunkInfo>> := Some([]), status: Option<string> := None)
      ensures this.uploadId == uploadId && this.fileName == fileName && this.fileSize == fileSize
      ensures this.contentType == contentType && this.owner == owner && this.s3Key == s3Key
      ensures this.chunkSize == chunkSize && this.totalChunks == totalChunks
      ensures this.uploadedChunks == uploadedChunks && this.status == status
      ensures initiatedAt == None && lastUpdatedAt == None
    {
      this.uploadId := uploadId;
      this.fileName := fileName;
      this.fileSize := fileSize;
      this.contentType := contentType;
      this.owner := owner;
      this.s3Key := s3Key;
      this.chunkSize := chunkSize;
      this.totalChunks := totalChunks;
      this.uploadedChunks := uploadedChunks;
      this.status := status;
      initiatedAt := None;
      lastUpdatedAt := None;
    }

    /**
     * addChunk: a null list is first replaced by an empty one; the chunk is
     * appended at the end, without looking for an entry with the same
     * number, and the session is restamped.
     */
    method AddChunk(chunkInfo: ChunkInfo, now: int)
      modifies this`uploadedChunks, this`lastUpdatedAt
      ensures uploadedChunks == Some(old(uploadedChunks).GetOr([]) + [chunkInfo])
      ensures lastUpdatedAt == Some(now)
      ensures GetNextChunkNumber() == old(GetNextChunkNumber()) + 1
    {
      if uploadedChunks.None? {
        uploadedChunks := Some([]);
      }
      uploadedChunks := Some(uploadedChunks.value + [chunkInfo]);
      lastUpdatedAt := Some(now);
    }

    /** isComplete: the list exists and holds totalChunks entries, whatever their numbers. */
    function IsComplete(): (r: bool)
      reads this
      ensures r ==> uploadedChunks.Some? && |uploadedChunks.value| == totalChunks
    {
      uploadedChunks != None && |uploadedChunks.value| == totalChunks
    }

    /** getNextChunkNumber: one past the number of entries, 1 for a null list. */
    function GetNextChunkNumber(): (n: int)
      reads this
      ensures n >= 1
      ensures uploadedChunks.None? ==> n == 1
      ensures uploadedChunks.Some? ==> n == |uploadedChunks.value| + 1
    {
      if uploadedChunks != None then |uploadedChunks.value| + 1 else 1
    }

    /** A session is complete exactly when its list exists and the next expected chunk is past the last one. */
    lemma CompleteIffNextBeyondTotal()
      ensures IsComplete() <==> uploadedChunks.Some? && GetNextChunkNumber() == totalChunks + 1
    {
    }
  }

  /**
   * isComplete counts entries only: a two-chunk session that received
   * chunk 1 twice is complete although chunk 2 never arrived.
   */
  method DuplicateChunkCompletesSession(now: int) returns (session: UploadSession)
    ensures fresh(session)
    ensures session.IsComplete()
    ensures session.uploadedChunks == Some([ChunkInfo(1, "e1", 5, None), ChunkInfo(1, "e1", 5, None)])
    ensures forall i :: 0 <= i < |session.uploadedChunks.value| ==> session.uploadedChunks.value[i].chunkNumber != 2
  {
    session := new UploadSession.Build("upload-1", "a.bin", 10, "application/octet-stream", "owner", "key", 5, 2);
    var chunk := ChunkInfo(1, "e1", 5, None);
    session.AddChunk(chunk, now);
    assert session.uploadedChunks.value == [] + [chunk] == [chunk];
    session.AddChunk(chunk, now);
    assert session.uploadedChunks.value == [chunk] + [chunk] == [chunk, chunk];
  }

  /** UploadSessionRepository: sessions by S3 upload id. */
  class UploadSessionRepository {
    var sessions: map<string, UploadSession>

    constructor ()
      ensures sessions == map[]
    {
      sessions := map[];
    }

    /** save: stores the session under its upload id, replacing any earlier one, and returns it. */
    method Save(session: UploadSession) returns (r: UploadSession)
      modifies this
      ensures r == session
      ensures sessions == old(sessions)[session.uploadId := session]
      ensures forall k | k in old(sessions) && k != session.uploadId :: k in sessions && sessions[k] == old(sessions)[k]
    {
      sessions := sessions[session.uploadId := session];
      r := session;
    }

    /** findById: the session stored under the key, or empty. */
    method FindById(uploadId: string) returns (r: Option<UploadSession>)
      ensures uploadId in sessions ==> r == Some(sessions[uploadId])
      ensures uploadId !in sessions ==> r == None
    {
      if uploadId in sessions {
        r := Some(sessions[uploadId]);
      } else {
        r := None;
      }
    }

    /** deleteById: removes the key and nothing else. */
    method DeleteById(uploadId: string)
      modifies this
      ensures sessions == old(sessions) - {uploadId}
      ensures uploadId !in sessions
      ensures forall k | k in old(sessions) && k != uploadId :: k in sessions && sessions[k] == old(sessions)[k]
    {
      sessions := sessions - {uploadId};
    }
  }

  /** After save(s), findById(s.uploadId) answers s; after deleteById of that key it answers empty. */
  method SaveFindDelete(repository: UploadSessionRepository, session: UploadSession)
    returns (found: Option<UploadSession>, afterDelete: Option<UploadSession>)
    modifies repository
    ensures found == Some(session)
    ensures afterDelete == None
  {
    var saved := repository.Save(session);
    found := repository.FindById(saved.uploadId);
    repository.DeleteById(session.uploadId);
    afterDelete := repository.FindById(session.uploadId);
  }
}
