// Splitting a file into chunks: chunkCount in 64-bit arithmetic, the byte
// ranges of the chunks, and progress as the size of the completed ones.
module Chunking {
  import opened Results
  import opened Transfers
  import opened Sums

  const MAX_INT64 := 0x7FFF_FFFF_FFFF_FFFF
  const MAXIMUM_CHUNK_SIZE := 16 * 1024 * 1024

  // Two's-complement wrap-around of Go's int64.
  function Wrap64(x: int): int {
    (x + 0x8000_0000_0000_0000) % 0x1_0000_0000_0000_0000 - 0x8000_0000_0000_0000
  }

  // Go's integer division truncates toward zero.
  function TruncDiv(a: int, b: int): int
    requires 0 < b
  {
    if 0 <= a then a / b else -((-a) / b)
  }

  function ChunkCount(size: int, chunkSize: int): int
    requires 0 < chunkSize
  {
    if size == 0 then 0 else TruncDiv(Wrap64(Wrap64(size + chunkSize) - 1), chunkSize)
  }

  // n chunks reach the end of the file and n - 1 do not.
  predicate JustCovers(n: int, size: int, chunkSize: int) {
    0 <= n && size <= n * chunkSize && (0 < n ==> (n - 1) * chunkSize < size)
  }

  // Sizes for which size + chunkSize - 1 does not wrap.
  predicate Fits(size: int, chunkSize: int) {
    0 < chunkSize <= MAXIMUM_CHUNK_SIZE && 0 <= size && size + chunkSize - 1 <= MAX_INT64
  }

  lemma DivBounds(a: int, b: int)
    requires 0 < b
    ensures (a / b) * b <= a < (a / b) * b + b
    ensures 0 <= a ==> 0 <= a / b
  {
  }

  lemma FittingCountCovers(size: int, chunkSize: int)
    requires Fits(size, chunkSize)
    ensures JustCovers(ChunkCount(size, chunkSize), size, chunkSize)
  {
    FittingSum(size, chunkSize);
    hide Wrap64;
    if size != 0 {
      var a := size + chunkSize - 1;
      DivBounds(a, chunkSize);
      OneLess(a / chunkSize, chunkSize);
    }
  }

  lemma FittingSum(size: int, chunkSize: int)
    requires Fits(size, chunkSize)
    ensures Wrap64(Wrap64(size + chunkSize) - 1) == size + chunkSize - 1
  {
  }

  lemma OneLess(n: int, k: int)
    ensures (n - 1) * k == n * k - k
  {
  }

  lemma WrappedCountIsNotPositive(size: int, chunkSize: int)
    requires 0 <= size <= MAX_INT64 && 0 < chunkSize <= MAXIMUM_CHUNK_SIZE
    requires MAX_INT64 < size + chunkSize - 1
    ensures ChunkCount(size, chunkSize) <= 0 < size
  {
    var w := Wrap64(Wrap64(size + chunkSize) - 1);
    assert w == size + chunkSize - 1 - 0x1_0000_0000_0000_0000;
    DivBounds(-w, chunkSize);
  }

  // The 64-bit formula gives the covering count exactly when it does not wrap.
  lemma CountCoversIffFits(size: int, chunkSize: int)
    requires 0 <= size <= MAX_INT64 && 0 < chunkSize <= MAXIMUM_CHUNK_SIZE
    ensures JustCovers(ChunkCount(size, chunkSize), size, chunkSize) <==> Fits(size, chunkSize)
  {
    if Fits(size, chunkSize) {
      FittingCountCovers(size, chunkSize);
    } else {
      WrappedCountIsNotPositive(size, chunkSize);
      MulOrder(ChunkCount(size, chunkSize), 0, chunkSize);
    }
  }

  function ChunkLength(size: int, chunkSize: int, index: int): int {
    var remaining := size - index * chunkSize;
    if remaining < chunkSize then remaining else chunkSize
  }

  // Every byte of the file lies in exactly one chunk, no chunk reaches past the
  // end, and no offset leaves the 64-bit range.
  lemma ChunksTile(size: int, chunkSize: int, index: int, position: int)
    requires Fits(size, chunkSize) && 0 <= index < ChunkCount(size, chunkSize)
    ensures 0 < ChunkLength(size, chunkSize, index) <= chunkSize
    ensures 0 <= index * chunkSize
    ensures index * chunkSize + ChunkLength(size, chunkSize, index) <= size <= MAX_INT64
    ensures index * chunkSize <= position < index * chunkSize + ChunkLength(size, chunkSize, index)
            <==> 0 <= position < size && position / chunkSize == index
  {
    FittingCountCovers(size, chunkSize);
    var n := ChunkCount(size, chunkSize);
    MulOrder(index, n - 1, chunkSize);
    MulOrder(0, index, chunkSize);
    DivIs(position, chunkSize, index);
  }

  lemma MulOrder(a: int, b: int, c: int)
    requires a <= b && 0 <= c
    ensures a * c <= b * c
  {
  }

  lemma DivIs(p: int, c: int, i: int)
    requires 0 < c
    ensures p / c == i <==> i * c <= p < i * c + c
  {
    var q, r := p / c, p % c;
    assert p == q * c + r && 0 <= r < c;
    if i < q {
      MulOrder(i + 1, q, c);
      assert (i + 1) * c == i * c + c;
    } else if q < i {
      MulOrder(q + 1, i, c);
      assert (q + 1) * c == q * c + c;
    }
  }

  // The chunk that holds a byte of the file is one of the counted ones.
  lemma ByteHasChunk(size: int, chunkSize: int, position: int)
    requires Fits(size, chunkSize) && 0 <= position < size
    ensures 0 <= position / chunkSize < ChunkCount(size, chunkSize)
  {
    FittingCountCovers(size, chunkSize);
    DivIs(position, chunkSize, position / chunkSize);
    var q, n := position / chunkSize, ChunkCount(size, chunkSize);
    if n <= q {
      MulOrder(n, q, chunkSize);
    }
    if q < 0 {
      MulOrder(q, -1, chunkSize);
    }
  }

  // --- progress -----------------------------------------------------------

  datatype Part = Part(file: string, index: int)

  // Files as ReceiveOffer accepts them, with sizes that do not wrap.
  ghost predicate WellFormedFile(f: File) {
    && Fits(f.size, f.chunkSize)
    && f.chunkCount == ChunkCount(f.size, f.chunkSize)
    && (f.directory ==> f.size == 0)
  }

  ghost predicate WellFormedFiles(files: seq<File>) {
    && DistinctIds(files)
    && forall f :: f in files ==> WellFormedFile(f)
  }

  function FileParts(f: File, count: int): (r: set<Part>)
    ensures forall p :: p in r <==> p.file == f.id && 0 <= p.index < count
  {
    set i | 0 <= i < count :: Part(f.id, i)
  }

  // Every chunk of every file.
  function AllParts(files: seq<File>): set<Part> {
    if files == [] then {} else FileParts(files[0], files[0].chunkCount) + AllParts(files[1..])
  }

  lemma InAllParts(files: seq<File>, p: Part)
    ensures p in AllParts(files) <==> exists f :: f in files && f.id == p.file && 0 <= p.index < f.chunkCount
  {
    if files != [] {
      InAllParts(files[1..], p);
      assert files == [files[0]] + files[1..];
    }
  }

  // The bytes one completed chunk adds to the progress.
  function Weight(files: seq<File>): Part -> nat {
    (p: Part) =>
      var f := FindFile(files, p.file);
      if f.None? then 0 else
      var n := ChunkLength(f.value.size, f.value.chunkSize, p.index);
      if n < 0 then 0 else n
  }

  function TotalSize(files: seq<File>): int {
    if files == [] then 0 else files[0].size + TotalSize(files[1..])
  }

  // The manifest total as the code adds it up, in int64.
  function Total64(files: seq<File>): int {
    if files == [] then 0 else Wrap64(Total64(files[..|files| - 1]) + files[|files| - 1].size)
  }

  lemma {:induction false} TotalSizeLast(files: seq<File>)
    requires files != []
    ensures TotalSize(files) == TotalSize(files[..|files| - 1]) + files[|files| - 1].size
  {
    if |files| > 1 {
      TotalSizeLast(files[1..]);
      assert files[1..][..|files| - 2] == files[..|files| - 1][1..];
    }
  }

  lemma {:induction false} TotalSizeNotNegative(files: seq<File>)
    requires forall f :: f in files ==> 0 <= f.size
    ensures 0 <= TotalSize(files)
  {
    if files != [] {
      TotalSizeNotNegative(files[1..]);
    }
  }

  // The int64 total that an offer's size is compared with is the true sum of
  // the file sizes exactly when that sum fits.
  lemma {:induction false} TotalFitsIff(files: seq<File>)
    requires forall f :: f in files ==> 0 <= f.size
    ensures Total64(files) == TotalSize(files) <==> TotalSize(files) <= MAX_INT64
  {
    if files != [] {
      var front, last := files[..|files| - 1], files[|files| - 1];
      TotalSizeLast(files);
      TotalSizeNotNegative(front);
      assert last in files;
      TotalFitsIff(front);
    }
  }

  lemma WeightPositive(files: seq<File>, p: Part)
    requires WellFormedFiles(files) && p in AllParts(files)
    ensures 0 < Weight(files)(p)
  {
    InAllParts(files, p);
    var f :| f in files && f.id == p.file && 0 <= p.index < f.chunkCount;
    FindFileMember(files, f);
    ChunksTile(f.size, f.chunkSize, p.index, 0);
  }

  // The first n chunks of one file weigh the bytes before offset n * chunkSize.
  lemma {:induction false} FilePrefixWeight(files: seq<File>, f: File, n: int)
    requires WellFormedFiles(files) && f in files && 0 <= n <= f.chunkCount
    ensures Total(FileParts(f, n), Weight(files)) == if n * f.chunkSize <= f.size then n * f.chunkSize else f.size
    decreases n
  {
    FittingCountCovers(f.size, f.chunkSize);
    if n == 0 {
      assert FileParts(f, 0) == {};
    } else {
      FilePrefixWeight(files, f, n - 1);
      assert FileParts(f, n) == FileParts(f, n - 1) + {Part(f.id, n - 1)};
      TotalAdd(FileParts(f, n - 1), Weight(files), Part(f.id, n - 1));
      FindFileMember(files, f);
      ChunksTile(f.size, f.chunkSize, n - 1, 0);
      assert (n - 1) * f.chunkSize == n * f.chunkSize - f.chunkSize;
    }
  }

  lemma FileWeight(files: seq<File>, f: File)
    requires WellFormedFiles(files) && f in files
    ensures Total(FileParts(f, f.chunkCount), Weight(files)) == f.size
  {
    FittingCountCovers(f.size, f.chunkSize);
    FilePrefixWeight(files, f, f.chunkCount);
  }

  lemma {:induction false} SuffixWeight(files: seq<File>, k: nat)
    requires WellFormedFiles(files) && k <= |files|
    ensures Total(AllParts(files[k..]), Weight(files)) == TotalSize(files[k..])
    decreases |files| - k
  {
    if k < |files| {
      var f := files[k];
      SuffixWeight(files, k + 1);
      assert files[k..][1..] == files[k + 1..];
      var own, rest := FileParts(f, f.chunkCount), AllParts(files[k + 1..]);
      forall p | p in own ensures p !in rest {
        InAllParts(files[k + 1..], p);
      }
      TotalUnion(own, rest, Weight(files));
      FileWeight(files, f);
    }
  }

  // Progress computed from any set of genuine chunks lies between 0 and the
  // transfer's size, and equals the size exactly when no chunk is missing.
  lemma ProgressExact(files: seq<File>, size: int, complete: set<Part>)
    requires WellFormedFiles(files) && size == TotalSize(files) && complete <= AllParts(files)
    ensures 0 <= Total(complete, Weight(files)) <= size
    ensures Total(complete, Weight(files)) == size <==> complete == AllParts(files)
  {
    SuffixWeight(files, 0);
    assert files[0..] == files;
    forall p | p in AllParts(files) ensures 0 < Weight(files)(p) {
      WeightPositive(files, p);
    }
    TotalSubset(complete, AllParts(files), Weight(files));
  }

  // Completing more chunks never lowers the progress.
  lemma ProgressMonotone(files: seq<File>, before: set<Part>, after: set<Part>)
    requires before <= after
    ensures Total(before, Weight(files)) <= Total(after, Weight(files))
  {
    TotalSubset(before, after, Weight(files));
  }
}
