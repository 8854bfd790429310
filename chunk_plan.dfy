/**
 * The arithmetic and list handling of ChunkUploadService: how many chunks a
 * file is cut into, how a file id travels as text, and how the ledger
 * fetched from the metadata service becomes the ascending part list that
 * S3 needs to assemble the object.
 */
module ChunkPlan {
  import opened Wrappers
  import opened JavaLong
  import opened Collaborators

  /** app.chunk.size when the property is not set: 5 MiB. */
  const DEFAULT_CHUNK_SIZE: Long := 5242880

  /** Integer ceiling of a / b. */
  function CeilDiv(a: nat, b: nat): (q: nat)
    requires b > 0
    ensures q * b >= a && (q - 1) * b < a
  {
    (a + b - 1) / b
  }

  lemma MulMonotone(x: int, y: int, c: int)
    requires x <= y && c > 0
    ensures x * c <= y * c
  {
  }

  /**
   * `(int) Math.ceil((double) fileSize / chunkSize)`: the least number of
   * chunks of chunkSize bytes that hold fileSize bytes, or Integer.MAX_VALUE
   * when that number does not fit an int (the cast from double saturates).
   */
  function TotalChunks(fileSize: Long, chunkSize: Long): (n: Int)
    requires fileSize > 0 && chunkSize > 0
    ensures n >= 1
    ensures fileSize <= INT_MAX * chunkSize ==> n * chunkSize >= fileSize && (n - 1) * chunkSize < fileSize
    ensures fileSize > INT_MAX * chunkSize ==> n == INT_MAX
  {
    var q := CeilDiv(fileSize, chunkSize);
    if q > INT_MAX then
      MulMonotone(INT_MAX, q - 1, chunkSize);
      INT_MAX
    else
      MulMonotone(q, INT_MAX, chunkSize);
      q
  }

  /** Any chunk count that holds the whole file is at least TotalChunks. */
  lemma TotalChunksIsLeast(fileSize: Long, chunkSize: Long, m: int)
    requires fileSize > 0 && chunkSize > 0 && fileSize <= INT_MAX * chunkSize
    requires m * chunkSize >= fileSize
    ensures m >= TotalChunks(fileSize, chunkSize)
  {
    var n := TotalChunks(fileSize, chunkSize);
    if m < n {
      MulMonotone(m, n - 1, chunkSize);
    }
  }

  /** parseFileId: Long.parseLong, with NumberFormatException reported as UploadSessionNotFound. */
  function ParseFileId(s: string): (r: Result<Long, FileError>)
    ensures r.Success? <==> ParseLong(s).Some?
    ensures r.Failure? ==> r.error == UploadSessionNotFound
  {
    match ParseLong(s)
    case Some(id) => Success(id)
    case None => Failure(UploadSessionNotFound)
  }

  /** Every file id the service hands out (String.valueOf of the metadata id) is read back as that id. */
  lemma ParseFileIdOfIssuedId(id: Long)
    ensures ParseFileId(LongToString(id)) == Success(id)
  {
    ParseLongOfLongToString(id);
  }

  /** An id that is not an optional sign followed by one or more digits is never a session. */
  lemma ParseFileIdRejectsNonNumeric(s: string)
    requires !IsDecimalLiteral(s)
    ensures ParseFileId(s) == Failure(UploadSessionNotFound)
  {
  }

  /** A well-formed number outside the range of `long` is never a session either. */
  lemma ParseFileIdRejectsOverflow(s: string)
    requires IsDecimalLiteral(s) && (LiteralValue(s) < LONG_MIN || LiteralValue(s) > LONG_MAX)
    ensures ParseFileId(s) == Failure(UploadSessionNotFound)
  {
  }

  predicate AscendingByNumber(s: seq<MetadataChunkResponse>) {
    forall i, j :: 0 <= i < j < |s| ==> s[i].chunkNumber <= s[j].chunkNumber
  }

  predicate StrictlyAscendingByNumber(s: seq<MetadataChunkResponse>) {
    forall i, j :: 0 <= i < j < |s| ==> s[i].chunkNumber < s[j].chunkNumber
  }

  /** Puts c in front of the first entry whose number is not smaller, keeping equal numbers in input order. */
  function InsertByNumber(c: MetadataChunkResponse, s: seq<MetadataChunkResponse>): (r: seq<MetadataChunkResponse>)
    requires AscendingByNumber(s)
    ensures |r| == |s| + 1 && (r[0] == c || (|s| > 0 && r[0] == s[0]))
    ensures AscendingByNumber(r)
    ensures multiset(r) == multiset(s) + multiset{c}
  {
    if s == [] then [c]
    else if c.chunkNumber <= s[0].chunkNumber then [c] + s
    else
      var rest := InsertByNumber(c, s[1..]);
      assert s == [s[0]] + s[1..];
      [s[0]] + rest
  }

  /**
   * `chunks.stream().sorted(Comparator.comparingInt(getChunkNumber))`: a
   * stable sort by chunk number.
   */
  function SortByNumber(s: seq<MetadataChunkResponse>): (r: seq<MetadataChunkResponse>)
    ensures |r| == |s|
    ensures AscendingByNumber(r)
    ensures multiset(r) == multiset(s)
  {
    if s == [] then []
    else
      assert s == [s[0]] + s[1..];
      InsertByNumber(s[0], SortByNumber(s[1..]))
  }

  predicate DistinctChunkNumbers(s: seq<MetadataChunkResponse>) {
    forall i, j :: 0 <= i < j < |s| ==> s[i].chunkNumber != s[j].chunkNumber
  }

  lemma {:induction false} InsertIsStrict(c: MetadataChunkResponse, s: seq<MetadataChunkResponse>)
    requires StrictlyAscendingByNumber(s)
    requires forall k :: 0 <= k < |s| ==> s[k].chunkNumber != c.chunkNumber
    ensures StrictlyAscendingByNumber(InsertByNumber(c, s))
  {
    if s != [] && c.chunkNumber > s[0].chunkNumber {
      InsertIsStrict(c, s[1..]);
    }
  }

  /** Sorting a ledger with distinct numbers orders it strictly. */
  lemma {:induction false} SortIsStrict(s: seq<MetadataChunkResponse>)
    requires DistinctChunkNumbers(s)
    ensures StrictlyAscendingByNumber(SortByNumber(s))
  {
    if s != [] {
      var t := SortByNumber(s[1..]);
      SortIsStrict(s[1..]);
      forall k | 0 <= k < |t|
        ensures t[k].chunkNumber != s[0].chunkNumber
      {
        assert t[k] in multiset(t);
        assert t[k] in s[1..];
      }
      InsertIsStrict(s[0], t);
    }
  }

  /** `new CompletedPartInfo(c.getChunkNumber(), c.getEtag())`. */
  function PartOf(c: MetadataChunkResponse): CompletedPartInfo {
    CompletedPartInfo(c.chunkNumber, c.etag)
  }

  function ToParts(s: seq<MetadataChunkResponse>): seq<CompletedPartInfo> {
    seq(|s|, i requires 0 <= i < |s| => PartOf(s[i]))
  }

  /** The part list sent to completeMultipartUpload for a fetched ledger. */
  function PartsFor(chunks: seq<MetadataChunkResponse>): (r: seq<CompletedPartInfo>)
    ensures |r| == |chunks|
    ensures forall i, j :: 0 <= i < j < |r| ==> r[i].partNumber <= r[j].partNumber
  {
    ToParts(SortByNumber(chunks))
  }

  lemma ToPartsAppend(a: seq<MetadataChunkResponse>, b: seq<MetadataChunkResponse>)
    ensures ToParts(a + b) == ToParts(a) + ToParts(b)
  {
  }

  /** Projecting two permutations of each other gives two permutations of each other. */
  lemma {:induction false} ToPartsPermutes(a: seq<MetadataChunkResponse>, b: seq<MetadataChunkResponse>)
    requires multiset(a) == multiset(b)
    ensures multiset(ToParts(a)) == multiset(ToParts(b))
    decreases |a|
  {
    if a == [] {
      assert |b| == |multiset(b)| == 0;
    } else {
      assert a[0] in multiset(b);
      var k :| 0 <= k < |b| && b[k] == a[0];
      var b' := b[..k] + b[k + 1..];
      assert b == b[..k] + [b[k]] + b[k + 1..];
      assert a == [a[0]] + a[1..];
      assert multiset(a) == multiset([a[0]]) + multiset(a[1..]);
      assert multiset(b) == multiset(b[..k]) + multiset([b[k]]) + multiset(b[k + 1..]);
      assert multiset(b') == multiset(b[..k]) + multiset(b[k + 1..]);
      assert multiset(a[1..]) == multiset(a) - multiset{a[0]};
      assert multiset(b') == multiset(b) - multiset{b[k]};
      ToPartsPermutes(a[1..], b');
      ToPartsAppend([a[0]], a[1..]);
      ToPartsAppend(b[..k], [b[k]]);
      ToPartsAppend(b[..k] + [b[k]], b[k + 1..]);
      ToPartsAppend(b[..k], b[k + 1..]);
    }
  }

  /**
   * The parts handed to S3 are the fetched ledger, one part per entry, each
   * carrying its own chunk number and ETag, in ascending part-number order.
   */
  lemma PartsAreSortedPermutation(chunks: seq<MetadataChunkResponse>)
    ensures |PartsFor(chunks)| == |chunks|
    ensures forall i, j :: 0 <= i < j < |PartsFor(chunks)| ==> PartsFor(chunks)[i].partNumber <= PartsFor(chunks)[j].partNumber
    ensures multiset(PartsFor(chunks)) == multiset(ToParts(chunks))
  {
    var sorted := SortByNumber(chunks);
    assert |sorted| == |multiset(sorted)| == |multiset(chunks)| == |chunks|;
    ToPartsPermutes(sorted, chunks);
  }

  predicate NumbersWithin(s: seq<MetadataChunkResponse>, n: int) {
    forall i :: 0 <= i < |s| ==> 1 <= s[i].chunkNumber <= n
  }

  lemma SortKeepsNumbers(chunks: seq<MetadataChunkResponse>, n: int)
    requires NumbersWithin(chunks, n)
    ensures NumbersWithin(SortByNumber(chunks), n)
  {
    var sorted := SortByNumber(chunks);
    forall i | 0 <= i < |sorted|
      ensures 1 <= sorted[i].chunkNumber <= n
    {
      assert sorted[i] in multiset(chunks);
    }
  }

  /** Strictly ascending numbers, n of them, all within 1..n, are exactly 1, 2, ..., n. */
  lemma {:induction false} AscendingFullRange(s: seq<int>, n: int)
    requires |s| == n
    requires forall i :: 0 <= i < |s| ==> 1 <= s[i] <= n
    requires forall i :: 0 <= i < |s| - 1 ==> s[i] < s[i + 1]
    ensures forall i :: 0 <= i < |s| ==> s[i] == i + 1
  {
    forall i | 0 <= i < |s|
      ensures s[i] >= i + 1
    {
      AtLeastIndex(s, i);
    }
    forall i | 0 <= i < |s|
      ensures s[i] <= i + 1
    {
      AtMostFromTop(s, n, i);
    }
  }

  lemma {:induction false} AtLeastIndex(s: seq<int>, i: int)
    requires 0 <= i < |s|
    requires forall k :: 0 <= k < |s| ==> 1 <= s[k]
    requires forall k :: 0 <= k < |s| - 1 ==> s[k] < s[k + 1]
    ensures s[i] >= i + 1
    decreases i
  {
    if i > 0 {
      AtLeastIndex(s, i - 1);
    }
  }

  lemma {:induction false} AtMostFromTop(s: seq<int>, n: int, i: int)
    requires |s| == n && 0 <= i < |s|
    requires forall k :: 0 <= k < |s| ==> s[k] <= n
    requires forall k :: 0 <= k < |s| - 1 ==> s[k] < s[k + 1]
    ensures s[i] <= i + 1
    decreases |s| - i
  {
    if i < |s| - 1 {
      AtMostFromTop(s, n, i + 1);
    }
  }

  /**
   * A ledger of n entries with distinct numbers in 1..n yields exactly the
   * parts 1, 2, ..., n, part k carrying the ETag of chunk k.
   */
  lemma FullLedgerGivesConsecutiveParts(chunks: seq<MetadataChunkResponse>, n: int)
    requires |chunks| == n
    requires DistinctChunkNumbers(chunks) && NumbersWithin(chunks, n)
    ensures |PartsFor(chunks)| == n
    ensures forall i :: 0 <= i < n ==> PartsFor(chunks)[i].partNumber == i + 1
    ensures forall i :: 0 <= i < n ==>
              exists c :: c in chunks && c.chunkNumber == i + 1 && PartsFor(chunks)[i] == PartOf(c)
  {
    var sorted := SortByNumber(chunks);
    SortKeepsNumbers(chunks, n);
    SortIsStrict(chunks);
    var nums := seq(|sorted|, i requires 0 <= i < |sorted| => sorted[i].chunkNumber);
    assert forall i :: 0 <= i < |nums| - 1 ==> nums[i] < nums[i + 1];
    AscendingFullRange(nums, n);
    forall i | 0 <= i < n
      ensures exists c :: c in chunks && c.chunkNumber == i + 1 && PartsFor(chunks)[i] == PartOf(c)
    {
      assert nums[i] == i + 1;
      assert PartsFor(chunks)[i] == PartOf(sorted[i]);
      assert sorted[i] in multiset(chunks);
    }
  }
}
