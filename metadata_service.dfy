/**
 * MetadataService: the system of record for upload sessions. The table of
 * FileMetadata rows is a map from id to entity object; each operation
 * finds one row, validates the move, and updates that row in place.
 * Every operation runs in its own transaction: one that throws leaves all
 * rows as they were. The JPA @PreUpdate hook runs when one of the row's
 * own columns changed, which in every operation here means its status; the
 * chunk list is the inverse side of a mapped-by association, so appending
 * to it does not make the row dirty and does not restamp updatedAt.
 */
module MetadataStore {
  import opened Wrappers
  import opened Lifecycle
  import opened FileMetadataEntity

  /** A lifecycle call against the whole table: an unknown id is ResourceNotFound. */
  function StoreStep(recs: map<int, FileRecord>, fileId: int, op: Op): Result<map<int, FileRecord>, MetadataError> {
    if fileId !in recs then Failure(ResourceNotFound(fileId))
    else
      match Step(recs[fileId], op)
      case Success(g) => Success(recs[fileId := g])
      case Failure(e) => Failure(e)
  }

  /** The call's outcome and the table afterwards agree with StoreStep on the table before. */
  ghost predicate Commits(before: map<int, FileRecord>, after: map<int, FileRecord>, fileId: int, op: Op,
                          r: Outcome<MetadataError>)
  {
    match StoreStep(before, fileId, op)
    case Success(recs) => r == Pass && after == recs
    case Failure(e) => r == Fail(e) && after == before
  }

  class MetadataService {
    var files: map<int, FileMetadata>
    var nextId: int

    /**
     * Every saved row carries its own id and a status (set by onCreate),
     * ids below nextId (IDENTITY generation), and a ledger whose entries
     * point back at the row and have distinct chunk numbers.
     */
    ghost predicate Valid()
      reads this, files.Values
    {
      && nextId >= 1
      && forall id | id in files ::
           && files[id].id == Some(id) && id < nextId
           && files[id].status.Some?
           && DistinctNumbers(files[id].chunks)
           && OwnedBy(files[id].chunks, id)
    }

    /** The table as values. */
    ghost function Records(): map<int, FileRecord>
      reads this, files.Values
      requires Valid()
    {
      map id | id in files :: files[id].Snapshot()
    }

    constructor ()
      ensures Valid() && files == map[] && nextId == 1
    {
      files := map[];
      nextId := 1;
    }

    /**
     * initiateSession: builds a PENDING row with an empty ledger, runs
     * onCreate and saves it under a fresh id. No S3 key is stored.
     */
    method InitiateSession(fileName: string, userId: string, uploadId: string, totalChunks: int, size: int,
                           contentType: string, now: int) returns (fileId: int)
      requires Valid()
      modifies this
      ensures Valid()
      ensures fileId !in old(files) && files.Keys == old(files.Keys) + {fileId} && fresh(files[fileId])
      ensures forall k | k in old(files) :: files[k] == old(files[k])
      ensures Records() == old(Records())[fileId := NewSession(fileId, fileName, userId, uploadId, totalChunks, size, contentType)]
      ensures files[fileId].createdAt == Some(now) && files[fileId].updatedAt == Some(now)
    {
      var metadata := new FileMetadata.Build(fileName, contentType, size, None, userId, uploadId, totalChunks, Some(PENDING));
      metadata.OnCreate(now);
      fileId := nextId;
      nextId := nextId + 1;
      metadata.id := Some(fileId);
      files := files[fileId := metadata];
      RowAdded(fileId);
    }

    /**
     * addChunk: a chunk number already in the ledger returns at once (also
     * on a terminal session); otherwise the move to ACTIVE is validated, a
     * PENDING session becomes ACTIVE and one entry is appended. Only the
     * status change restamps the row: appending to the mapped-by chunk
     * collection of an ACTIVE row leaves the row itself clean.
     */
    method AddChunk(fileId: int, chunkNumber: int, etag: string, size: int, now: int) returns (r: Outcome<MetadataError>)
      requires Valid()
      modifies files.Values
      ensures Valid()
      ensures Commits(old(Records()), Records(), fileId, Op.AddChunk(chunkNumber, etag, size), r)
      ensures forall k | k in files :: files[k].createdAt == old(files[k].createdAt)
      ensures forall k | k in files ::
                files[k].updatedAt == if k == fileId && Records()[k].status != old(Records())[k].status then Some(now) else old(files[k].updatedAt)
    {
      if fileId !in files {
        return Fail(ResourceNotFound(fileId));
      }
      var file := files[fileId];
      ghost var before := Records();
      OthersAreOtherObjects(fileId);
      ghost var step := AddChunkStep(before[fileId], chunkNumber, etag, size);
      if HasChunk(file.chunks, chunkNumber) {
        return Pass;
      }
      var check := ValidateStateTransition(file.status.value, ACTIVE);
      if check.Fail? {
        return Fail(check.error);
      }
      assert step.Success? && step.value.chunks == file.chunks + [ChunkMetadata(fileId, chunkNumber, etag, size)];
      if file.status == Some(PENDING) {
        file.status := Some(ACTIVE);
        file.OnUpdate(now);
      }
      file.chunks := file.chunks + [ChunkMetadata(fileId, chunkNumber, etag, size)];
      r := Pass;
      assert file.Snapshot() == step.value;
      RowUpdated(fileId);
    }

    /**
     * getUploadedChunks: the row's ledger. The model keeps entries in the
     * order they were written; the entity's unordered @OneToMany list does
     * not promise that order after a reload, and completion sorts the
     * ledger anyway.
     */
    method GetUploadedChunks(fileId: int) returns (r: Result<seq<ChunkMetadata>, MetadataError>)
      requires Valid()
      ensures fileId in Records() <==> r.Success?
      ensures r.Success? ==> r.value == Records()[fileId].chunks
      ensures r.Success? ==> DistinctNumbers(r.value) && OwnedBy(r.value, fileId)
      ensures r.Failure? ==> r.error == ResourceNotFound(fileId)
    {
      if fileId !in files {
        return Failure(ResourceNotFound(fileId));
      }
      r := Success(files[fileId].chunks);
    }

    /**
     * completeSession: returns at once on a COMPLETED session; otherwise the
     * move to COMPLETED is validated and the ledger size must equal
     * totalChunks.
     */
    method CompleteSession(fileId: int, now: int) returns (r: Outcome<MetadataError>)
      requires Valid()
      modifies files.Values
      ensures Valid()
      ensures Commits(old(Records()), Records(), fileId, Op.Complete, r)
      ensures forall k | k in files :: files[k].createdAt == old(files[k].createdAt)
      ensures forall k | k in files ::
                files[k].updatedAt == if k == fileId && Records()[k].status != old(Records())[k].status then Some(now) else old(files[k].updatedAt)
    {
      if fileId !in files {
        return Fail(ResourceNotFound(fileId));
      }
      var file := files[fileId];
      ghost var before := Records();
      OthersAreOtherObjects(fileId);
      if file.status == Some(COMPLETED) {
        return Pass;
      }
      var check := ValidateStateTransition(file.status.value, COMPLETED);
      if check.Fail? {
        return Fail(check.error);
      }
      if |file.chunks| != file.totalChunks {
        return Fail(MissingChunks(file.totalChunks, |file.chunks|));
      }
      file.status := Some(COMPLETED);
      file.OnUpdate(now);
      r := Pass;
      RowUpdated(fileId);
    }

    /** markFailed: updateStatus towards FAILED. */
    method MarkFailed(fileId: int, now: int) returns (r: Outcome<MetadataError>)
      requires Valid()
      modifies files.Values
      ensures Valid()
      ensures Commits(old(Records()), Records(), fileId, Op.MarkFailed, r)
      ensures forall k | k in files :: files[k].createdAt == old(files[k].createdAt)
      ensures forall k | k in files ::
                files[k].updatedAt == if k == fileId && Records()[k].status != old(Records())[k].status then Some(now) else old(files[k].updatedAt)
    {
      r := UpdateStatus(fileId, FAILED, now);
    }

    /** abortSession: updateStatus towards ABORTED. */
    method AbortSession(fileId: int, now: int) returns (r: Outcome<MetadataError>)
      requires Valid()
      modifies files.Values
      ensures Valid()
      ensures Commits(old(Records()), Records(), fileId, Op.Abort, r)
      ensures forall k | k in files :: files[k].createdAt == old(files[k].createdAt)
      ensures forall k | k in files ::
                files[k].updatedAt == if k == fileId && Records()[k].status != old(Records())[k].status then Some(now) else old(files[k].updatedAt)
    {
      r := UpdateStatus(fileId, ABORTED, now);
    }

    /** updateStatus: validates the move, then sets the status. */
    method UpdateStatus(fileId: int, target: UploadStatus, now: int) returns (r: Outcome<MetadataError>)
      requires Valid()
      requires target == FAILED || target == ABORTED
      modifies files.Values
      ensures Valid()
      ensures Commits(old(Records()), Records(), fileId, if target == FAILED then Op.MarkFailed else Op.Abort, r)
      ensures forall k | k in files :: files[k].createdAt == old(files[k].createdAt)
      ensures forall k | k in files ::
                files[k].updatedAt == if k == fileId && Records()[k].status != old(Records())[k].status then Some(now) else old(files[k].updatedAt)
    {
      if fileId !in files {
        return Fail(ResourceNotFound(fileId));
      }
      var file := files[fileId];
      ghost var before := Records();
      OthersAreOtherObjects(fileId);
      var check := ValidateStateTransition(file.status.value, target);
      if check.Fail? {
        return Fail(check.error);
      }
      var changed := file.status != Some(target);
      file.status := Some(target);
      if changed {
        file.OnUpdate(now);
      }
      r := Pass;
      RowUpdated(fileId);
    }

    /**
     * Updating one saved row in place, keeping its id, a status and a
     * well-formed ledger, keeps the table valid and changes its value at
     * that id only.
     */
    twostate lemma RowUpdated(fileId: int)
      requires old(Valid())
      requires files == old(files) && nextId == old(nextId) && fileId in files
      requires forall k | k in files && k != fileId :: unchanged(files[k])
      requires files[fileId].id == Some(fileId) && files[fileId].status.Some?
      requires DistinctNumbers(files[fileId].chunks) && OwnedBy(files[fileId].chunks, fileId)
      ensures Valid()
      ensures Records() == old(Records())[fileId := files[fileId].Snapshot()]
    {
      forall k | k in files && k != fileId
        ensures Records()[k] == old(Records())[k]
      {
      }
    }

    /** Saving a new row under an unused id below nextId keeps the table valid and adds that id only. */
    twostate lemma RowAdded(fileId: int)
      requires old(Valid())
      requires fileId !in old(files) && fileId < nextId && old(nextId) <= nextId
      requires fileId in files && files == old(files)[fileId := files[fileId]]
      requires forall k | k in old(files) :: unchanged(old(files)[k])
      requires files[fileId].id == Some(fileId) && files[fileId].status.Some? && files[fileId].chunks == []
      ensures Valid()
      ensures Records() == old(Records())[fileId := files[fileId].Snapshot()]
    {
      forall k | k in old(files)
        ensures Records()[k] == old(Records())[k]
      {
      }
    }

    /** Distinct ids are distinct row objects, so updating one row leaves the others alone. */
    lemma OthersAreOtherObjects(fileId: int)
      requires Valid() && fileId in files
      ensures forall k | k in files && k != fileId :: files[k] != files[fileId]
    {
    }
  }
}
