// The durable transfer session: its statuses, files and chunk rows.
module Transfers {
  import opened Results

  newtype byte = x: int | 0 <= x < 256

  type Bytes = seq<byte>

  // An absolute, cleaned path is the list of its components.
  type Path = seq<string>

  datatype Status =
    | Queued | Preparing | Connecting | Negotiating | Sending | Receiving
    | Paused | Resuming | Completed | Cancelled | Failed | Verifying

  datatype Direction = Outbound | Inbound

  datatype Policy = Prompt | Overwrite | Rename

  datatype File = File(
    id: string, path: string, directory: bool, size: int, checksum: string,
    chunkSize: int, chunkCount: int, destination: Option<Path>)

  datatype Transfer = Transfer(
    id: string, direction: Direction, files: seq<File>, size: int, status: Status,
    progress: int, approved: bool, approvalRequired: bool, policy: Policy,
    chunkSize: int, priority: int, createdAt: int, updatedAt: int,
    finishedAt: Option<int>, error: string, tokenHash: string)

  datatype ChunkStatus = ChunkPending | ChunkComplete | ChunkFailed

  datatype ChunkKey = ChunkKey(transfer: string, file: string, index: int)

  datatype Chunk = Chunk(offset: int, size: int, checksum: string, status: ChunkStatus)

  datatype Failure =
    | NotFound | InvalidRequest | InvalidState | UntrustedDevice | ApprovalRequired
    | Unauthorized | ChecksumMismatch | PathTraversal | ConflictResolution
    | MissingChunks | StorageFailure

  // The statuses DeleteHistory removes.
  predicate Terminal(s: Status) {
    s.Completed? || s.Cancelled? || s.Failed?
  }

  predicate IsHexDigit(c: char) {
    '0' <= c <= '9' || 'a' <= c <= 'f' || 'A' <= c <= 'F'
  }

  predicate ValidSHA256(v: string) {
    |v| == 64 && forall i :: 0 <= i < |v| ==> IsHexDigit(v[i])
  }

  function FindFile(files: seq<File>, id: string): (r: Option<File>)
    ensures r.Some? ==> r.value in files && r.value.id == id
    ensures r.None? ==> forall f :: f in files ==> f.id != id
  {
    if files == [] then None
    else if files[0].id == id then Some(files[0])
    else FindFile(files[1..], id)
  }

  ghost predicate DistinctIds(files: seq<File>) {
    forall i, j :: 0 <= i < j < |files| ==> files[i].id != files[j].id
  }

  lemma FindFileMember(files: seq<File>, f: File)
    requires DistinctIds(files) && f in files
    ensures FindFile(files, f.id) == Some(f)
  {
    var r := FindFile(files, f.id).value;
    var i :| 0 <= i < |files| && files[i] == f;
    var j :| 0 <= j < |files| && files[j] == r;
  }
}
