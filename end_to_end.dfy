/**
 * The two services together: what the metadata ledger becomes once the
 * file service has fetched it and handed it to S3.
 */
module EndToEnd {
  import opened Wrappers
  import opened JavaLong
  import opened Lifecycle
  import opened Collaborators
  import opened ChunkPlan

  /**
   * The ledger as the file service decodes it from getUploadedChunks: each
   * entry keeps its number, ETag and size; the entries' own generated ids
   * are given.
   */
  function WireLedger(chunks: seq<ChunkMetadata>, ids: seq<Long>): (r: seq<MetadataChunkResponse>)
    requires |ids| == |chunks|
    ensures |r| == |chunks|
    ensures forall i :: 0 <= i < |r| ==>
              r[i].chunkNumber == chunks[i].chunkNumber && r[i].etag == chunks[i].etag && r[i].size == chunks[i].size
  {
    seq(|chunks|, i requires 0 <= i < |chunks| => MetadataChunkResponse(ids[i], chunks[i].chunkNumber, chunks[i].etag, chunks[i].size))
  }

  /** The ledger row a decoded entry came from. */
  lemma WireSource(chunks: seq<ChunkMetadata>, ids: seq<Long>, w: MetadataChunkResponse) returns (c: ChunkMetadata)
    requires |ids| == |chunks| && w in WireLedger(chunks, ids)
    ensures c in chunks && c.chunkNumber == w.chunkNumber && c.etag == w.etag
  {
    var wire := WireLedger(chunks, ids);
    var k :| 0 <= k < |wire| && wire[k] == w;
    c := chunks[k];
  }

  /**
   * A session that passes completeSession's count check, with a distinct
   * ledger whose numbers lie in 1..totalChunks, is assembled from exactly
   * the parts 1..totalChunks in order, part k with the ETag recorded for
   * chunk k.
   */
  lemma CompletableLedgerAssemblesInOrder(f: FileRecord, ids: seq<Long>)
    requires f.status == ACTIVE && CompleteStep(f).Success?
    requires DistinctNumbers(f.chunks)
    requires forall i :: 0 <= i < |f.chunks| ==> 1 <= f.chunks[i].chunkNumber <= f.totalChunks
    requires |ids| == |f.chunks|
    ensures |PartsFor(WireLedger(f.chunks, ids))| == f.totalChunks
    ensures forall i :: 0 <= i < f.totalChunks ==> PartsFor(WireLedger(f.chunks, ids))[i].partNumber == i + 1
    ensures forall i :: 0 <= i < f.totalChunks ==>
              exists c :: c in f.chunks && c.chunkNumber == i + 1 && PartsFor(WireLedger(f.chunks, ids))[i].eTag == c.etag
  {
    var wire := WireLedger(f.chunks, ids);
    assert DistinctChunkNumbers(wire) && NumbersWithin(wire, f.totalChunks);
    FullLedgerGivesConsecutiveParts(wire, f.totalChunks);
    forall i | 0 <= i < f.totalChunks
      ensures exists c :: c in f.chunks && c.chunkNumber == i + 1 && PartsFor(WireLedger(f.chunks, ids))[i].eTag == c.etag
    {
      var w :| w in wire && w.chunkNumber == i + 1 && PartsFor(wire)[i] == PartOf(w);
      var c := WireSource(f.chunks, ids, w);
      assert PartsFor(wire)[i].eTag == c.etag;
    }
  }

  /**
   * A 3072-byte file in 1024-byte chunks is cut into three; chunks 2, 1, 3
   * arriving in that order with ETags t2, t1, t3 complete the session with
   * the ledger in arrival order.
   */
  lemma OutOfOrderUploadCompletes(id: int)
    ensures TotalChunks(3072, 1024) == 3
    ensures Replay(NewSession(id, "report.pdf", "u1", "s3-upload", 3, 3072, "application/pdf"),
                   [AddChunk(2, "t2", 1024), AddChunk(1, "t1", 1024), AddChunk(3, "t3", 1024), Complete])
         == NewSession(id, "report.pdf", "u1", "s3-upload", 3, 3072, "application/pdf").(
              status := COMPLETED,
              chunks := [ChunkMetadata(id, 2, "t2", 1024), ChunkMetadata(id, 1, "t1", 1024), ChunkMetadata(id, 3, "t3", 1024)])
  {
    var f0 := NewSession(id, "report.pdf", "u1", "s3-upload", 3, 3072, "application/pdf");
    var c2, c1, c3 := ChunkMetadata(id, 2, "t2", 1024), ChunkMetadata(id, 1, "t1", 1024), ChunkMetadata(id, 3, "t3", 1024);
    var f1 := Apply(f0, AddChunk(2, "t2", 1024));
    assert f1 == f0.(status := ACTIVE, chunks := [c2]);
    var f2 := Apply(f1, AddChunk(1, "t1", 1024));
    assert !HasChunk(f1.chunks, 1);
    assert f2 == f0.(status := ACTIVE, chunks := [c2, c1]);
    var f3 := Apply(f2, AddChunk(3, "t3", 1024));
    assert !HasChunk(f2.chunks, 3);
    assert f3 == f0.(status := ACTIVE, chunks := [c2, c1, c3]);
    var f4 := Apply(f3, Complete);
    assert f4 == f3.(status := COMPLETED);
    var ops := [AddChunk(2, "t2", 1024), AddChunk(1, "t1", 1024), AddChunk(3, "t3", 1024), Complete];
    assert Replay(f0, ops) == Replay(f1, ops[1..]);
    assert Replay(f1, ops[1..]) == Replay(f2, ops[2..]);
    assert Replay(f2, ops[2..]) == Replay(f3, ops[3..]);
    assert Replay(f3, ops[3..]) == Replay(f4, []);
  }

  /** The ledger 2, 1, 3 of that upload reaches S3 as (1, t1), (2, t2), (3, t3). */
  lemma OutOfOrderLedgerAssemblesInOrder(id: int)
    ensures PartsFor(WireLedger([ChunkMetadata(id, 2, "t2", 1024), ChunkMetadata(id, 1, "t1", 1024),
                                 ChunkMetadata(id, 3, "t3", 1024)], [10, 11, 12]))
         == [CompletedPartInfo(1, "t1"), CompletedPartInfo(2, "t2"), CompletedPartInfo(3, "t3")]
  {
    var c2, c1, c3 := ChunkMetadata(id, 2, "t2", 1024), ChunkMetadata(id, 1, "t1", 1024), ChunkMetadata(id, 3, "t3", 1024);
    var w2, w1, w3 := MetadataChunkResponse(10, 2, "t2", 1024), MetadataChunkResponse(11, 1, "t1", 1024),
                      MetadataChunkResponse(12, 3, "t3", 1024);
    assert WireLedger([c2, c1, c3], [10, 11, 12]) == [w2, w1, w3];
    SortsArrivalOrder(w2, w1, w3);
    assert ToParts([w1, w2, w3]) == [PartOf(w1), PartOf(w2), PartOf(w3)];
  }

  lemma SortsArrivalOrder(w2: MetadataChunkResponse, w1: MetadataChunkResponse, w3: MetadataChunkResponse)
    requires w1.chunkNumber == 1 && w2.chunkNumber == 2 && w3.chunkNumber == 3
    ensures SortByNumber([w2, w1, w3]) == [w1, w2, w3]
  {
    assert [w3][1..] == [];
    assert SortByNumber([w3]) == [w3] by {
      assert SortByNumber([w3]) == InsertByNumber(w3, SortByNumber([]));
    }
    assert SortByNumber([w1, w3]) == [w1, w3] by {
      assert [w1, w3][1..] == [w3];
      assert SortByNumber([w1, w3]) == InsertByNumber(w1, [w3]);
    }
    assert InsertByNumber(w2, [w3]) == [w2, w3];
    assert InsertByNumber(w2, [w1, w3]) == [w1, w2, w3] by {
      assert [w1, w3][1..] == [w3];
      assert InsertByNumber(w2, [w1, w3]) == [w1] + InsertByNumber(w2, [w3]);
    }
    assert [w2, w1, w3][1..] == [w1, w3];
    assert SortByNumber([w2, w1, w3]) == InsertByNumber(w2, SortByNumber([w1, w3]));
  }
}
