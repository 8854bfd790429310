/**
 * The metadata service's view of an upload session, as values: the status
 * enum, the transition validator, the chunk ledger, and one pure step per
 * service operation. The imperative service in module MetadataStore is
 * proved against these steps; the lemmas here say what any run of the
 * steps keeps.
 */
module Lifecycle {
  import opened Wrappers

  /** The states of a session (UploadStatus.java). */
  datatype UploadStatus = PENDING | ACTIVE | COMPLETED | FAILED | ABORTED

  predicate IsTerminal(s: UploadStatus) {
    s == COMPLETED || s == FAILED || s == ABORTED
  }

  /** The exceptions MetadataService throws. */
  datatype MetadataError =
    | ResourceNotFound(fileId: int)
      /** IllegalStateTransitionException, answered with HTTP 409. */
    | IllegalStateTransition(current: UploadStatus, target: UploadStatus)
      /** The plain IllegalStateException of completeSession, answered with HTTP 500. */
    | MissingChunks(expected: int, found: int)

  /** The moves between different states that the lifecycle allows. */
  const LegalMoves: set<(UploadStatus, UploadStatus)> :=
    {(PENDING, ACTIVE), (PENDING, ABORTED), (ACTIVE, COMPLETED), (ACTIVE, FAILED), (ACTIVE, ABORTED)}

  /**
   * validateStateTransition: staying in the same state is always allowed,
   * otherwise only the moves in LegalMoves; a terminal state accepts no
   * target but itself.
   */
  function ValidateStateTransition(current: UploadStatus, target: UploadStatus): (r: Outcome<MetadataError>)
    ensures r.Pass? <==> current == target || (current, target) in LegalMoves
    ensures r.Fail? ==> r.error == IllegalStateTransition(current, target)
    ensures IsTerminal(current) ==> (r.Pass? <==> target == current)
  {
    if current == target then Pass
    else if current == PENDING && target == ACTIVE then Pass
    else if current == ACTIVE && (target == COMPLETED || target == FAILED || target == ABORTED) then Pass
    else if current == PENDING && target == ABORTED then Pass
    else Fail(IllegalStateTransition(current, target))
  }

  /** One ledger entry (ChunkMetadata): the file it belongs to, its number, the ETag and size reported for it. */
  datatype ChunkMetadata = ChunkMetadata(fileId: int, chunkNumber: int, etag: string, size: int)

  /** The persistent fields of a FileMetadata row. */
  datatype FileRecord = FileRecord(
    id: int,
    fileName: string,
    fileType: string,
    size: int,
    s3Key: Option<string>,
    owner: string,
    uploadId: string,
    totalChunks: int,
    status: UploadStatus,
    chunks: seq<ChunkMetadata>)

  /** The record initiateSession creates: PENDING, no S3 key, an empty ledger. */
  function NewSession(id: int, fileName: string, userId: string, uploadId: string, totalChunks: int,
                      size: int, contentType: string): (r: FileRecord)
    ensures r.status == PENDING && r.chunks == [] && r.s3Key == None
    ensures r.id == id && r.owner == userId && r.uploadId == uploadId && r.totalChunks == totalChunks
    ensures r.fileName == fileName && r.fileType == contentType && r.size == size
  {
    FileRecord(id, fileName, contentType, size, None, userId, uploadId, totalChunks, PENDING, [])
  }

  /** The idempotency check of addChunk: some ledger entry already has this number. */
  predicate HasChunk(chunks: seq<ChunkMetadata>, chunkNumber: int) {
    exists i :: 0 <= i < |chunks| && chunks[i].chunkNumber == chunkNumber
  }

  /** No chunk number occurs twice in the ledger. */
  predicate DistinctNumbers(chunks: seq<ChunkMetadata>) {
    forall i, j :: 0 <= i < j < |chunks| ==> chunks[i].chunkNumber != chunks[j].chunkNumber
  }

  /** Every ledger entry points back at the session with this id. */
  predicate OwnedBy(chunks: seq<ChunkMetadata>, id: int) {
    forall i :: 0 <= i < |chunks| ==> chunks[i].fileId == id
  }

  /** The fields no lifecycle operation touches. */
  predicate SameSession(f: FileRecord, g: FileRecord) {
    && f.id == g.id && f.fileName == g.fileName && f.fileType == g.fileType && f.size == g.size
    && f.s3Key == g.s3Key && f.owner == g.owner && f.uploadId == g.uploadId && f.totalChunks == g.totalChunks
  }

  /** addChunk on one record. */
  function AddChunkStep(f: FileRecord, chunkNumber: int, etag: string, size: int): (r: Result<FileRecord, MetadataError>)
    // a number already in the ledger is a no-op, whatever the status
    ensures HasChunk(f.chunks, chunkNumber) ==> r == Success(f)
    // a new number on a live session appends exactly one record and leaves it ACTIVE
    ensures !HasChunk(f.chunks, chunkNumber) && !IsTerminal(f.status) ==>
              r == Success(f.(status := ACTIVE, chunks := f.chunks + [ChunkMetadata(f.id, chunkNumber, etag, size)]))
    // a new number on a terminal session is refused
    ensures !HasChunk(f.chunks, chunkNumber) && IsTerminal(f.status) ==>
              r == Failure(IllegalStateTransition(f.status, ACTIVE))
    ensures r.Success? && DistinctNumbers(f.chunks) ==> DistinctNumbers(r.value.chunks)
  {
    if HasChunk(f.chunks, chunkNumber) then Success(f)
    else
      match ValidateStateTransition(f.status, ACTIVE)
      case Fail(e) => Failure(e)
      case Pass =>
        var status := if f.status == PENDING then ACTIVE else f.status;
        Success(f.(status := status, chunks := f.chunks + [ChunkMetadata(f.id, chunkNumber, etag, size)]))
  }

  /** completeSession on one record: idempotent once COMPLETED, otherwise validated and then count-checked. */
  function CompleteStep(f: FileRecord): (r: Result<FileRecord, MetadataError>)
    ensures f.status == COMPLETED ==> r == Success(f)
    ensures f.status == ACTIVE && |f.chunks| == f.totalChunks ==> r == Success(f.(status := COMPLETED))
    ensures f.status == ACTIVE && |f.chunks| != f.totalChunks ==> r == Failure(MissingChunks(f.totalChunks, |f.chunks|))
    ensures f.status in {PENDING, FAILED, ABORTED} ==> r == Failure(IllegalStateTransition(f.status, COMPLETED))
  {
    if f.status == COMPLETED then Success(f)
    else
      match ValidateStateTransition(f.status, COMPLETED)
      case Fail(e) => Failure(e)
      case Pass =>
        if |f.chunks| != f.totalChunks then Failure(MissingChunks(f.totalChunks, |f.chunks|))
        else Success(f.(status := COMPLETED))
  }

  /** updateStatus (behind markFailed and abortSession) on one record. */
  function UpdateStatusStep(f: FileRecord, target: UploadStatus): (r: Result<FileRecord, MetadataError>)
    ensures r.Success? <==> f.status == target || (f.status, target) in LegalMoves
    ensures r.Success? ==> r.value == f.(status := target)
    ensures r.Failure? ==> r.error == IllegalStateTransition(f.status, target)
  {
    match ValidateStateTransition(f.status, target)
    case Fail(e) => Failure(e)
    case Pass => Success(f.(status := target))
  }

  /** The lifecycle calls a client can make on one session. */
  datatype Op =
    | AddChunk(chunkNumber: int, etag: string, size: int)
    | Complete
    | MarkFailed
    | Abort

  function Step(f: FileRecord, op: Op): (r: Result<FileRecord, MetadataError>)
    // a call changes neither the session's identity nor earlier ledger entries, and adds at most one entry
    ensures r.Success? ==>
              && SameSession(f, r.value)
              && |f.chunks| <= |r.value.chunks| <= |f.chunks| + 1 && r.value.chunks[..|f.chunks|] == f.chunks
    // only addChunk touches the ledger
    ensures r.Success? && !op.AddChunk? ==> r.value.chunks == f.chunks
    // a call on an existing record fails only for the lifecycle or the count, never as not found
    ensures r.Failure? ==> !r.error.ResourceNotFound?
  {
    match op
    case AddChunk(n, etag, size) => AddChunkStep(f, n, etag, size)
    case Complete => CompleteStep(f)
    case MarkFailed => UpdateStatusStep(f, FAILED)
    case Abort => UpdateStatusStep(f, ABORTED)
  }

  /** One call inside its transaction: a call that throws leaves the record as it was. */
  function Apply(f: FileRecord, op: Op): FileRecord {
    match Step(f, op)
    case Success(g) => g
    case Failure(_) => f
  }

  /** A sequence of calls, one after the other. */
  function Replay(f: FileRecord, ops: seq<Op>): (r: FileRecord)
    ensures |f.chunks| <= |r.chunks| <= |f.chunks| + |ops|
    decreases |ops|
  {
    if ops == [] then f else Replay(Apply(f, ops[0]), ops[1..])
  }

  lemma StepShape(f: FileRecord, op: Op)
    ensures SameSession(f, Apply(f, op))
    ensures Apply(f, op).chunks[..|f.chunks|] == f.chunks
    ensures IsTerminal(f.status) ==> Apply(f, op) == f
    ensures DistinctNumbers(f.chunks) ==> DistinctNumbers(Apply(f, op).chunks)
  {
  }

  /**
   * Whatever calls are made, in whatever order: the session's identity and
   * sizes never change, ledger entries are only ever appended, chunk
   * numbers stay pairwise distinct, and a terminal session stays exactly
   * as it is.
   */
  lemma {:induction false} ReplayInvariants(f: FileRecord, ops: seq<Op>)
    ensures SameSession(f, Replay(f, ops))
    ensures |f.chunks| <= |Replay(f, ops).chunks| && Replay(f, ops).chunks[..|f.chunks|] == f.chunks
    ensures DistinctNumbers(f.chunks) ==> DistinctNumbers(Replay(f, ops).chunks)
    ensures IsTerminal(f.status) ==> Replay(f, ops) == f
    decreases |ops|
  {
    if ops != [] {
      var g := Apply(f, ops[0]);
      StepShape(f, ops[0]);
      ReplayInvariants(g, ops[1..]);
      var h := Replay(g, ops[1..]);
      assert h == Replay(f, ops);
      assert h.chunks[..|f.chunks|] == h.chunks[..|g.chunks|][..|f.chunks|];
    }
  }

  /** Submitting the same chunk number twice keeps the entry of the first submission. */
  lemma DuplicateAddKeepsFirst(f: FileRecord, n: int, etag1: string, size1: int, etag2: string, size2: int)
    ensures Apply(Apply(f, AddChunk(n, etag1, size1)), AddChunk(n, etag2, size2)) == Apply(f, AddChunk(n, etag1, size1))
  {
    var g := Apply(f, AddChunk(n, etag1, size1));
    if !HasChunk(f.chunks, n) && !IsTerminal(f.status) {
      assert g.chunks[|f.chunks|].chunkNumber == n;
    }
  }

  /** The set of chunk numbers in the ledger. */
  function NumberSet(chunks: seq<ChunkMetadata>): set<int> {
    set i | 0 <= i < |chunks| :: chunks[i].chunkNumber
  }

  /** The numbers 1..n. */
  function PartRange(n: int): (r: set<int>)
    ensures forall k :: k in r <==> 1 <= k <= n
    ensures n >= 0 ==> |r| == n
  {
    if n <= 0 then {} else PartRange(n - 1) + {n}
  }

  lemma {:induction false} DistinctNumberSetSize(chunks: seq<ChunkMetadata>)
    requires DistinctNumbers(chunks)
    ensures |NumberSet(chunks)| == |chunks|
    decreases |chunks|
  {
    if chunks != [] {
      var last := |chunks| - 1;
      var init := chunks[..last];
      assert NumberSet(chunks) == NumberSet(init) + {chunks[last].chunkNumber};
      assert chunks[last].chunkNumber !in NumberSet(init);
      DistinctNumberSetSize(init);
    }
  }

  /**
   * completeSession only compares the ledger size with totalChunks. When
   * the ledger is distinct (which addChunk keeps) and every number lies in
   * 1..totalChunks, that count check does imply the exact set 1..totalChunks.
   */
  lemma CountCheckSufficesForInRangeNumbers(f: FileRecord)
    requires f.status == ACTIVE && CompleteStep(f).Success?
    requires DistinctNumbers(f.chunks)
    requires forall i :: 0 <= i < |f.chunks| ==> 1 <= f.chunks[i].chunkNumber <= f.totalChunks
    ensures NumberSet(f.chunks) == PartRange(f.totalChunks)
  {
    var s, range := NumberSet(f.chunks), PartRange(f.totalChunks);
    DistinctNumberSetSize(f.chunks);
    assert s <= range;
    assert |range - s| == |range| - |s|;
    assert range - s == {};
  }

  /**
   * Without the range condition the count is all that is checked: chunk
   * numbers 1, 2 and 5 complete a session of three chunks.
   */
  lemma CountOnlyCompletion(f: FileRecord)
    requires f.status == ACTIVE && f.totalChunks == 3
    requires f.chunks == [ChunkMetadata(f.id, 1, "e1", 1), ChunkMetadata(f.id, 2, "e2", 1), ChunkMetadata(f.id, 5, "e5", 1)]
    ensures DistinctNumbers(f.chunks)
    ensures NumberSet(f.chunks) != PartRange(3)
    ensures CompleteStep(f) == Success(f.(status := COMPLETED))
  {
    assert 3 in PartRange(3);
    assert 3 !in NumberSet(f.chunks);
  }
}
