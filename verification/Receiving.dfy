// What the receiver does with one chunk and one finished file: writing at an
// offset, the guards of a chunk, and the completeness and checksum verdict.
module Receiving {
  import opened Results
  import opened Transfers
  import opened Chunking

  function Max(a: int, b: int): int {
    if a < b then b else a
  }

  function ByteAt(contents: Bytes, i: int): byte {
    if 0 <= i < |contents| then contents[i] else 0
  }

  // WriteAt: a gap before the offset reads as zeros.
  function WriteAt(contents: Bytes, offset: nat, data: Bytes): (r: Bytes)
    ensures |r| == if data == [] then |contents| else Max(|contents|, offset + |data|)
    ensures forall i :: 0 <= i < |r| ==>
      r[i] == if offset <= i < offset + |data| then data[i - offset] else ByteAt(contents, i)
  {
    if data == [] then contents else
    seq(Max(|contents|, offset + |data|), i requires 0 <= i =>
      if offset <= i < offset + |data| then data[i - offset] else ByteAt(contents, i))
  }

  // A write interrupted by a crash: any part of it may have reached the disk.
  ghost predicate TornWrite(contents: Bytes, offset: nat, data: Bytes, after: Bytes) {
    && |contents| <= |after| <= Max(|contents|, offset + |data|)
    && forall i :: 0 <= i < |after| ==>
        after[i] == ByteAt(contents, i) || (offset <= i < offset + |data| && after[i] == data[i - offset])
  }

  lemma WriteAtIsTorn(contents: Bytes, offset: nat, data: Bytes)
    ensures TornWrite(contents, offset, data, WriteAt(contents, offset, data))
  {
  }

  // The checks of ReceiveChunk that follow the session checks.
  predicate ChunkAccepted(files: seq<File>, part: Part, data: Bytes, checksum: string, hash: Bytes -> string) {
    var f := FindFile(files, part.file);
    && f.Some? && !f.value.directory
    && 0 <= part.index < f.value.chunkCount
    && |data| == ChunkLength(f.value.size, f.value.chunkSize, part.index)
    && hash(data) == checksum
  }

  // The indexes of an n-chunk file.
  function Indexes(n: int): (r: set<int>)
    ensures forall i :: i in r <==> 0 <= i < n
  {
    if n <= 0 then {} else Indexes(n - 1) + {n - 1}
  }

  function CompleteIndexes(complete: set<Part>, file: string): set<int> {
    set p | p in complete && p.file == file :: p.index
  }

  // Finalize's verdict on one file: as many distinct chunk rows as the manifest
  // counts, and the manifest's checksum over the partial (created when empty).
  predicate FileVerified(f: File, complete: set<Part>, partial: Option<Bytes>, hash: Bytes -> string) {
    && |CompleteIndexes(complete, f.id)| == f.chunkCount
    && (partial.Some? || f.size == 0)
    && hash(if partial.Some? then partial.value else []) == f.checksum
  }

  lemma {:induction false} RangeSize(n: nat)
    ensures |Indexes(n)| == n
  {
    if n > 0 {
      RangeSize(n - 1);
    }
  }

  lemma SubsetOfSameSize<T>(a: set<T>, b: set<T>)
    requires a <= b && |a| == |b|
    ensures a == b
  {
    assert b == a + (b - a);
    assert |b| == |a| + |b - a|;
  }

  // Counting suffices: since every row passed the index guard, as many distinct
  // indexes as chunks means exactly the indexes 0 .. chunkCount - 1.
  lemma CountImpliesComplete(files: seq<File>, complete: set<Part>, f: File)
    requires DistinctIds(files) && f in files && complete <= AllParts(files) && 0 <= f.chunkCount
    ensures |CompleteIndexes(complete, f.id)| == f.chunkCount
            <==> CompleteIndexes(complete, f.id) == Indexes(f.chunkCount)
    ensures |CompleteIndexes(complete, f.id)| == f.chunkCount <==> FileParts(f, f.chunkCount) <= complete
  {
    var got := CompleteIndexes(complete, f.id);
    var want := Indexes(f.chunkCount);
    RangeSize(f.chunkCount);
    forall i | i in got ensures i in want {
      var p := Part(f.id, i);
      InAllParts(files, p);
      var g :| g in files && g.id == f.id && 0 <= i < g.chunkCount;
      FindFileMember(files, f);
      FindFileMember(files, g);
    }
    if |got| == f.chunkCount {
      SubsetOfSameSize(got, want);
      forall p | p in FileParts(f, f.chunkCount) ensures p in complete {
        assert p.index in got;
      }
    }
    if FileParts(f, f.chunkCount) <= complete {
      forall i | i in want ensures i in got {
        assert Part(f.id, i) in complete;
      }
      assert got == want;
    }
  }

  // --- lengths, for any sender -----------------------------------------------

  // A partial file that has taken only accepted chunks: it is no longer than the
  // manifest says, and reaches the end of every recorded chunk.
  ghost predicate LengthSound(f: File, complete: set<Part>, partial: Bytes) {
    |partial| <= f.size && Covers(f, complete, partial)
  }

  ghost predicate Covers(f: File, complete: set<Part>, partial: Bytes) {
    forall p :: p in complete && p.file == f.id ==>
      p.index * f.chunkSize + ChunkLength(f.size, f.chunkSize, p.index) <= |partial|
  }

  // Writing an accepted chunk, whole or torn, keeps the length sound.
  lemma TornKeepsLength(f: File, complete: set<Part>, partial: Bytes, index: int, data: Bytes, after: Bytes)
    requires WellFormedFile(f) && 0 <= index < f.chunkCount && |data| == ChunkLength(f.size, f.chunkSize, index)
    requires 0 <= index * f.chunkSize && TornWrite(partial, index * f.chunkSize, data, after)
    ensures |partial| <= f.size ==> |after| <= f.size
    ensures Covers(f, complete, partial) ==> Covers(f, complete, after)
  {
    ChunksTile(f.size, f.chunkSize, index, 0);
  }

  // A whole write also covers its own chunk.
  lemma WrittenIsCovered(f: File, complete: set<Part>, partial: Bytes, index: int, data: Bytes)
    requires WellFormedFile(f) && 0 <= index < f.chunkCount && |data| == ChunkLength(f.size, f.chunkSize, index)
    ensures 0 <= index * f.chunkSize
    ensures Covers(f, complete, partial) ==>
      Covers(f, complete + {Part(f.id, index)}, WriteAt(partial, index * f.chunkSize, data))
  {
    ChunksTile(f.size, f.chunkSize, index, 0);
  }

  lemma CompleteLength(f: File, complete: set<Part>, partial: Bytes)
    requires WellFormedFile(f) && LengthSound(f, complete, partial)
    requires FileParts(f, f.chunkCount) <= complete
    ensures |partial| == f.size
  {
    if 0 < f.size {
      ByteHasChunk(f.size, f.chunkSize, f.size - 1);
      var last := (f.size - 1) / f.chunkSize;
      ChunksTile(f.size, f.chunkSize, last, f.size - 1);
      assert Part(f.id, last) in complete;
    }
  }
}
