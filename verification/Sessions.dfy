// The stored sessions of the receiving service: what holds of every record and
// its chunk rows, and which chunks a session admits.
module Sessions {
  import opened Results
  import opened Transfers
  import opened Chunking
  import opened Lifecycle
  import opened Receiving
  import opened Paths
  import opened Disk
  import opened Committing
  import opened Store

  // How one lifecycle call leaves the store and what it returns; a failing
  // store write changes nothing.
  ghost predicate Outcome(
    before: map<string, Transfer>, after: map<string, Transfer>, id: string, call: Call, now: int,
    r: Result<Transfer, Failure>)
  {
    if id !in before then after == before && r == Err(NotFound)
    else
      var next := Called(before[id], call, now);
      if next.None? then after == before && r == Err(InvalidState)
      else (after == before && r == Err(StorageFailure)) || (after == before[id := next.value] && r == Ok(next.value))
  }

  ghost predicate PathsValid(files: seq<File>) {
    forall f :: f in files ==> ValidRelative(f.path)
  }

  // A manifest as ReceiveOffer accepts it and the store returns it, ordered by
  // path, with destinations below some root.
  ghost predicate Acceptable(files: seq<File>) {
    && WellFormedFiles(files) && DistinctRelative(files) && PathsValid(files) && PathSorted(files)
    && forall f :: f in files && f.destination.Some? ==> f.destination.value != []
  }

  type Rows = map<Part, Chunk>

  function RowsOf(rows: map<string, Rows>, id: string): Rows {
    if id in rows then rows[id] else map[]
  }

  function CompleteRows(rows: Rows): set<Part> {
    set p | p in rows && rows[p].status.ChunkComplete?
  }

  // Every row belongs to a chunk of the manifest and has its exact size.
  ghost predicate RowsSound(files: seq<File>, rows: Rows) {
    forall p :: p in rows ==> p in AllParts(files) && rows[p].size == Weight(files)(p)
  }

  ghost predicate StoreSound(transfers: map<string, Transfer>, rows: map<string, Rows>) {
    && (forall id :: id in transfers ==>
          && transfers[id].id == id && Acceptable(transfers[id].files)
          && transfers[id].size == TotalSize(transfers[id].files))
    && (forall id :: id in rows ==> id in transfers && RowsSound(transfers[id].files, rows[id]))
  }

  lemma UpdateKeepsSound(transfers: map<string, Transfer>, rows: map<string, Rows>, t: Transfer)
    requires StoreSound(transfers, rows) && t.id in transfers
    requires t.files == transfers[t.id].files && t.size == transfers[t.id].size
    ensures StoreSound(transfers[t.id := t], rows)
  {
    hide Acceptable, RowsSound, TotalSize;
  }

  lemma RowKeepsSound(transfers: map<string, Transfer>, rows: map<string, Rows>, id: string, p: Part, c: Chunk)
    requires StoreSound(transfers, rows) && id in transfers
    requires p in AllParts(transfers[id].files) && c.size == Weight(transfers[id].files)(p)
    ensures StoreSound(transfers, RowAdded(rows, id, p, c))
  {
    hide Acceptable, Weight, AllParts;
  }

  // The session and request checks of ReceiveChunk, in order.
  function Admit(t: Transfer, tokenHash: string, fileId: string, index: int, expected: string, data: Bytes,
      hash: Bytes -> string)
    : Result<File, Failure>
  {
    if t.tokenHash != tokenHash then Err(Unauthorized)
    else if !t.approved then Err(ApprovalRequired)
    else if !t.status.Receiving? && !t.status.Resuming? then Err(InvalidState)
    else
      var found := FindFile(t.files, fileId);
      if found.None? || found.value.directory || index < 0 || found.value.chunkCount <= index || !ValidSHA256(expected)
      then Err(InvalidRequest)
      else
        var file := found.value;
        var remaining := file.size - index * file.chunkSize;
        var expectedSize := if remaining < file.chunkSize then remaining else file.chunkSize;
        if |data| != expectedSize then Err(InvalidRequest)
        else if hash(data) != expected then Err(ChecksumMismatch)
        else Ok(file)
  }

  lemma AdmittedChunk(t: Transfer, tokenHash: string, fileId: string, index: int, expected: string,
      data: Bytes, hash: Bytes -> string)
    requires Acceptable(t.files)
    ensures Admit(t, tokenHash, fileId, index, expected, data, hash).Ok? <==>
            t.tokenHash == tokenHash && MayReceive(t) && ValidSHA256(expected)
            && ChunkAccepted(t.files, Part(fileId, index), data, expected, hash)
    ensures var r := Admit(t, tokenHash, fileId, index, expected, data, hash); r.Ok? ==>
      && FindFile(t.files, fileId) == Some(r.value)
      && Part(fileId, index) in AllParts(t.files) && |data| == Weight(t.files)(Part(fileId, index))
      && 0 <= index * r.value.chunkSize
  {
    var r := Admit(t, tokenHash, fileId, index, expected, data, hash);
    if r.Ok? {
      assert WellFormedFile(r.value);
      InAllParts(t.files, Part(fileId, index));
      ChunksTile(r.value.size, r.value.chunkSize, index, 0);
    }
  }

  // A request of somebody else, before the approval, or while nothing is received is
  // refused as that; of what is left, a chunk that the manifest does not have, or not
  // with this length, as invalid; and only then a wrong checksum as a mismatch.
  lemma WhyRefused(t: Transfer, tokenHash: string, fileId: string, index: int, expected: string,
      data: Bytes, hash: Bytes -> string)
    requires Acceptable(t.files)
    ensures var r := Admit(t, tokenHash, fileId, index, expected, data, hash);
      var open := t.tokenHash == tokenHash && MayReceive(t);
      && (r == Err(Unauthorized) <==> t.tokenHash != tokenHash)
      && (r == Err(ApprovalRequired) <==> t.tokenHash == tokenHash && !t.approved)
      && (r == Err(InvalidState) <==> t.tokenHash == tokenHash && t.approved && t.status !in {Receiving, Resuming})
      && (r == Err(InvalidRequest) <==>
            open && !(ValidSHA256(expected) && ChunkAccepted(t.files, Part(fileId, index), data, hash(data), hash)))
      && (r == Err(ChecksumMismatch) <==>
            open && ValidSHA256(expected) && ChunkAccepted(t.files, Part(fileId, index), data, hash(data), hash)
            && hash(data) != expected)
  {
    hide ValidSHA256;
    AdmittedChunk(t, tokenHash, fileId, index, expected, data, hash);
  }

  lemma RowsOfSound(transfers: map<string, Transfer>, rows: map<string, Rows>, id: string)
    requires StoreSound(transfers, rows) && id in transfers
    ensures Acceptable(transfers[id].files) && RowsSound(transfers[id].files, RowsOf(rows, id))
    ensures transfers[id].size == TotalSize(transfers[id].files)
  {
  }

  function RowAdded(rows: map<string, Rows>, id: string, part: Part, row: Chunk): map<string, Rows> {
    rows[id := RowsOf(rows, id)[part := row]]
  }

  lemma CompleteRowsGenuine(files: seq<File>, rows: Rows)
    requires RowsSound(files, rows)
    ensures CompleteRows(rows) <= AllParts(files)
  {
  }

  ghost predicate ChunkOnDisk(before: Tree, after: Tree, p: Path, offset: nat, data: Bytes) {
    IsRegular(after, p) && after[p].contents == WriteAt(ContentsAt(before, p), offset, data)
  }

  // The sessions that are not over, and their rows.
  function Live(transfers: map<string, Transfer>): map<string, Transfer> {
    map id | id in transfers && !Terminal(transfers[id].status) :: transfers[id]
  }

  function LiveRows(transfers: map<string, Transfer>, rows: map<string, Rows>): map<string, Rows> {
    map id | id in rows && id in Live(transfers) :: rows[id]
  }

  // A session is kept exactly when it is neither completed, cancelled nor failed,
  // and then with all of its rows.
  lemma LiveIff(transfers: map<string, Transfer>, rows: map<string, Rows>, id: string)
    requires id in transfers
    ensures id in Live(transfers) <==> transfers[id].status !in {Completed, Cancelled, Status.Failed}
    ensures id in Live(transfers) ==>
      Live(transfers)[id] == transfers[id] && RowsOf(LiveRows(transfers, rows), id) == RowsOf(rows, id)
    ensures id !in Live(transfers) ==> id !in LiveRows(transfers, rows)
  {
  }
}
