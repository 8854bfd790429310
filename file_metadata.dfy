/**
 * The FileMetadata entity of the metadata service: a mutable row object
 * with Lombok builder defaults and the JPA lifecycle hooks. Timestamps are
 * values of an abstract clock passed in as `now`.
 */
module FileMetadataEntity {
  import opened Wrappers
  import opened Lifecycle

  class FileMetadata {
    var id: Option<int>
    var fileName: string
    var fileType: string
    var size: int
    var s3Key: Option<string>
    var owner: string
    var uploadId: string
    var totalChunks: int
    var status: Option<UploadStatus>
    var chunks: seq<ChunkMetadata>
    var createdAt: Option<int>
    var updatedAt: Option<int>

    /**
     * FileMetadata.builder()...build(): the id and the timestamps are unset,
     * the ledger starts empty, and the status is PENDING unless the builder
     * sets another.
     */
    constructor Build(fileName: string, fileType: string, size: int, s3Key: Option<string>, owner: string,
                      uploadId: string, totalChunks: int, status: Option<UploadStatus> := Some(PENDING))
      ensures this.fileName == fileName && this.fileType == fileType && this.size == size
      ensures this.s3Key == s3Key && this.owner == owner && this.uploadId == uploadId
      ensures this.totalChunks == totalChunks && this.status == status
      ensures id == None && chunks == [] && createdAt == None && updatedAt == None
    {
      id := None;
      this.fileName := fileName;
      this.fileType := fileType;
      this.size := size;
      this.s3Key := s3Key;
      this.owner := owner;
      this.uploadId := uploadId;
      this.totalChunks := totalChunks;
      this.status := status;
      chunks := [];
      createdAt := None;
      updatedAt := None;
    }

    /** @PrePersist onCreate: stamps both timestamps and fills in a missing status with PENDING. */
    method OnCreate(now: int)
      modifies this`createdAt, this`updatedAt, this`status
      ensures createdAt == Some(now) && updatedAt == Some(now)
      ensures status == if old(status).None? then Some(PENDING) else old(status)
    {
      createdAt := Some(now);
      updatedAt := Some(now);
      if status.None? {
        status := Some(PENDING);
      }
    }

    /** @PreUpdate onUpdate: restamps updatedAt and touches nothing else. */
    method OnUpdate(now: int)
      modifies this`updatedAt
      ensures updatedAt == Some(now)
    {
      updatedAt := Some(now);
    }

    /** The persistent fields of a saved row, as a value. */
    function Snapshot(): FileRecord
      reads this
      requires id.Some? && status.Some?
    {
      FileRecord(id.value, fileName, fileType, size, s3Key, owner, uploadId, totalChunks, status.value, chunks)
    }
  }
}
