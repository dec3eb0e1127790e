// The sender's two loops: enumerating the chunks the resume map lacks, and
// sending one chunk with a bounded number of attempts.
module Sender {
  import opened Results
  import opened Transfers
  import opened Chunking
  import opened Receiving
  import opened Delivery

  // --- enumeration -----------------------------------------------------------

  // The missing chunks of one file from an index on, in order.
  function MissingFrom(f: File, index: int, resume: set<Part>): seq<Part>
    decreases f.chunkCount - index
  {
    if f.chunkCount <= index then []
    else (if Part(f.id, index) in resume then [] else [Part(f.id, index)]) + MissingFrom(f, index + 1, resume)
  }

  function Missing(files: seq<File>, resume: set<Part>): seq<Part> {
    if files == [] then []
    else (if files[0].directory then [] else MissingFrom(files[0], 0, resume)) + Missing(files[1..], resume)
  }

  method EnumerateFile(file: File, resume: set<Part>) returns (tasks: seq<Part>)
    ensures tasks == MissingFrom(file, 0, resume)
  {
    tasks := [];
    var index := 0;
    while index < file.chunkCount
      invariant tasks + MissingFrom(file, index, resume) == MissingFrom(file, 0, resume)
    {
      if Part(file.id, index) !in resume {
        tasks := tasks + [Part(file.id, index)];
      }
      index := index + 1;
    }
  }

  // The enqueue loop of processOutbound, without cancellation.
  method EnumerateTasks(files: seq<File>, resume: set<Part>) returns (tasks: seq<Part>)
    ensures tasks == Missing(files, resume)
  {
    hide MissingFrom;
    tasks := [];
    for i := 0 to |files|
      invariant tasks + Missing(files[i..], resume) == Missing(files, resume)
    {
      assert files[i..][1..] == files[i + 1..];
      if !files[i].directory {
        var own := EnumerateFile(files[i], resume);
        assert tasks + (own + Missing(files[i + 1..], resume)) == (tasks + own) + Missing(files[i + 1..], resume);
        tasks := tasks + own;
      }
    }
  }

  ghost predicate NoRepeats<T>(s: seq<T>) {
    forall i, j :: 0 <= i < j < |s| ==> s[i] != s[j]
  }

  lemma {:induction false} MissingFromExact(f: File, index: int, resume: set<Part>)
    ensures forall p :: p in MissingFrom(f, index, resume) <==>
      p.file == f.id && index <= p.index < f.chunkCount && p !in resume
    ensures NoRepeats(MissingFrom(f, index, resume))
    decreases f.chunkCount - index
  {
    if index < f.chunkCount {
      MissingFromExact(f, index + 1, resume);
    }
  }

  lemma JoinNoRepeats<T>(a: seq<T>, b: seq<T>)
    requires NoRepeats(a) && NoRepeats(b) && forall x :: x in a ==> x !in b
    ensures NoRepeats(a + b)
  {
    forall i, j | 0 <= i < j < |a + b| ensures (a + b)[i] != (a + b)[j] {
      if i < |a| <= j {
        assert (a + b)[i] in a && (a + b)[j] in b;
      }
    }
  }

  lemma PartsOfOthers(files: seq<File>, p: Part)
    requires DistinctIds(files) && files != [] && p in AllParts(files[1..])
    ensures p.file != files[0].id
  {
    InAllParts(files[1..], p);
    var g :| g in files[1..] && g.id == p.file;
    var k :| 0 <= k < |files[1..]| && files[1..][k] == g;
  }

  // Each chunk absent from the resume map is enumerated, exactly once.
  lemma {:induction false} MissingExact(files: seq<File>, resume: set<Part>)
    requires WellFormedFiles(files)
    ensures forall p :: p in Missing(files, resume) <==> p in AllParts(files) && p !in resume
    ensures NoRepeats(Missing(files, resume))
  {
    hide NoRepeats;
    if files == [] {
      NoneRepeated<Part>();
    } else {
      var f := files[0];
      assert f in files && WellFormedFile(f);
      MissingExact(files[1..], resume);
      MissingFromExact(f, 0, resume);
      assert f.directory ==> f.chunkCount == 0;
      forall p | p in MissingFrom(f, 0, resume) ensures p !in Missing(files[1..], resume) {
        if p in AllParts(files[1..]) {
          PartsOfOthers(files, p);
        }
      }
      JoinNoRepeats(MissingFrom(f, 0, resume), Missing(files[1..], resume));
    }
  }

  lemma NoneRepeated<T>()
    ensures NoRepeats<T>([])
  {
  }

  // So the loop produces tasks as a process of the delivery system starts with.
  lemma EnumerationFeedsDelivery(m: Manifest, resume: set<Part>)
    requires WellFormed(m)
    ensures TasksFor(m, resume, Missing(m.files, resume))
  {
    MissingExact(m.files, resume);
  }

  // --- one chunk ---------------------------------------------------------------

  const RETRY_LIMIT := 3

  // What one request meets: a 2xx reply, any other outcome, or one after which
  // the transfer's context is cancelled before the next attempt.
  datatype Answer = Acknowledged | Refused | Cancelled

  // The chunk's bytes are there to be read; None is a source that cannot be opened
  // or read.
  predicate Readable(source: Option<Bytes>, offset: int, size: int) {
    source.Some? && offset + size <= |source.value|
  }

  // Reads the chunk once and sends it at most three times, each time after the
  // throttle, the request and the peer's client are ready. It succeeds exactly
  // when an attempt is acknowledged, every request carries the same bytes and
  // their checksum, and it gives up early only for an unreadable chunk, a cancelled
  // context or an attempt that cannot be made.
  method SendChunk(source: Option<Bytes>, file: File, index: int, hash: Bytes -> string, ready: nat -> bool,
      answer: nat -> Answer)
    returns (ok: bool, requests: seq<Request>)
    requires 0 <= index * file.chunkSize && 0 <= ChunkLength(file.size, file.chunkSize, index)
    ensures |requests| <= RETRY_LIMIT
    ensures requests != [] ==> Readable(source, index * file.chunkSize, ChunkLength(file.size, file.chunkSize, index))
    ensures forall r :: r in requests ==>
      && r.part == Part(file.id, index)
      && r.data == source.value[index * file.chunkSize..index * file.chunkSize + ChunkLength(file.size, file.chunkSize, index)]
      && r.checksum == hash(r.data)
    ensures forall k :: 0 < k <= |requests| ==> ready(k)
    ensures forall k :: 0 < k < |requests| ==> answer(k).Refused?
    ensures ok <==> requests != [] && answer(|requests|).Acknowledged?
    ensures !ok && |requests| < RETRY_LIMIT ==>
      || !Readable(source, index * file.chunkSize, ChunkLength(file.size, file.chunkSize, index))
      || !ready(|requests| + 1)
      || (requests != [] && answer(|requests|).Cancelled?)
  {
    requests := [];
    var offset := index * file.chunkSize;
    var remaining := file.size - offset;
    var size := if remaining < file.chunkSize then remaining else file.chunkSize;
    if source.None? || |source.value| < offset + size {
      return false, requests;
    }
    var contents := source.value[offset..offset + size];
    var attempt := 1;
    while attempt <= RETRY_LIMIT
      invariant 1 <= attempt <= RETRY_LIMIT + 1 && |requests| == attempt - 1
      invariant forall r :: r in requests ==> r == Request(Part(file.id, index), contents, hash(contents))
      invariant forall k :: 0 < k < attempt ==> ready(k) && answer(k).Refused?
    {
      if !ready(attempt) {
        return false, requests;
      }
      requests := requests + [Request(Part(file.id, index), contents, hash(contents))];
      match answer(attempt)
      case Acknowledged => return true, requests;
      case Cancelled => return false, requests;
      case Refused => attempt := attempt + 1;
    }
    return false, requests;
  }

  // Every chunk of an unchanged source can be read, and none of a source that ends
  // before it.
  lemma UnchangedIsReadable(m: Manifest, file: File, index: int)
    requires WellFormed(m) && file in m.files && !file.directory && 0 <= index < file.chunkCount
    ensures 0 <= index * file.chunkSize && 0 < ChunkLength(file.size, file.chunkSize, index)
    ensures Readable(Some(m.sources[file.id]), index * file.chunkSize, ChunkLength(file.size, file.chunkSize, index))
    ensures forall cut: nat ::
      cut < index * file.chunkSize + ChunkLength(file.size, file.chunkSize, index) <= |m.sources[file.id]| ==>
      !Readable(Some(m.sources[file.id][..cut]), index * file.chunkSize, ChunkLength(file.size, file.chunkSize, index))
  {
    InAllParts(m.files, Part(file.id, index));
    FindFileMember(m.files, file);
    PartBounds(m, Part(file.id, index));
  }

  // With an unchanged source the request is the one the delivery system sends.
  lemma SentIsGenuine(m: Manifest, file: File, index: int, r: Request)
    requires WellFormed(m) && file in m.files && !file.directory && 0 <= index < file.chunkCount
    requires r.part == Part(file.id, index)
    requires 0 <= index * file.chunkSize && 0 <= ChunkLength(file.size, file.chunkSize, index)
    requires index * file.chunkSize + ChunkLength(file.size, file.chunkSize, index) <= |m.sources[file.id]|
    requires r.data == m.sources[file.id][index * file.chunkSize..index * file.chunkSize + ChunkLength(file.size, file.chunkSize, index)]
    ensures Genuine(m, r)
  {
    InAllParts(m.files, r.part);
    FindFileMember(m.files, file);
    PartBounds(m, r.part);
  }
}
