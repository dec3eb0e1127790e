// The receiving service is the receiver of the delivery system: every chunk call
// does what some steps of that system do, so that the disk and the rows of a
// session are always those of one of its runs.
module Simulation {
  import opened Results
  import opened Transfers
  import opened Chunking
  import opened Lifecycle
  import opened Paths
  import opened Receiving
  import opened Disk
  import opened Committing
  import opened Sessions
  import opened Approval
  import opened Service
  import D = Delivery

  // The session's copy of a manifest entry may have got a destination.
  predicate EntryOf(f: File, g: File) {
    f == g.(destination := f.destination)
  }

  ghost predicate SessionOf(files: seq<File>, m: D.Manifest) {
    forall f :: f in files ==> exists g :: g in m.files && EntryOf(f, g)
  }

  // The partials of the delivery system, kept by file ID, are the regular files at
  // the partial paths of the session.
  ghost predicate OnDisk(base: Path, files: seq<File>, partials: map<string, Bytes>, tree: Tree) {
    forall f :: f in files && !f.directory ==> FileOnDisk(base, f, partials, tree)
  }

  predicate FileOnDisk(base: Path, f: File, partials: map<string, Bytes>, tree: Tree) {
    if f.id in partials then IsRegular(tree, PartOf(base, f)) && tree[PartOf(base, f)].contents == partials[f.id]
    else !IsRegular(tree, PartOf(base, f))
  }

  // A session of the service, its rows and its partials, as a receiver state.
  ghost predicate Reflects(
      m: D.Manifest, s: D.System, base: Path, t: Transfer, complete: set<Part>, tree: Tree)
  {
    && SessionOf(t.files, m) && OnDisk(base, t.files, s.partials, tree)
    && complete == s.rows && s.receiving == MayReceive(t)
  }

  // --- both sides mean the same chunk ------------------------------------------------

  lemma SameEntry(m: D.Manifest, files: seq<File>, f: File)
    requires D.WellFormed(m) && SessionOf(files, m) && f in files
    ensures FindFile(m.files, f.id).Some? && EntryOf(f, FindFile(m.files, f.id).value)
  {
    var g :| g in m.files && EntryOf(f, g);
    FindFileMember(m.files, g);
  }

  lemma SameChunk(m: D.Manifest, files: seq<File>, f: File, part: Part, data: Bytes, checksum: string)
    requires D.WellFormed(m) && SessionOf(files, m) && FindFile(files, part.file) == Some(f)
    requires ChunkAccepted(files, part, data, checksum, m.hash)
    ensures ChunkAccepted(m.files, part, data, checksum, m.hash) && D.Offset(m, part) == part.index * f.chunkSize
  {
    SameEntry(m, files, f);
  }

  // --- the steps of one call -----------------------------------------------------------

  ghost predicate Deliverable(m: D.Manifest, s: D.System, hid: nat, r: D.Request)
    requires D.WellFormed(m)
  {
    hid !in s.handlers && r in s.requests && s.receiving && 0 <= D.Offset(m, r.part)
    && ChunkAccepted(m.files, r.part, r.data, r.checksum, m.hash)
  }

  // A call that is interrupted while it writes.
  lemma TornSteps(m: D.Manifest, s: D.System, hid: nat, r: D.Request, after: Bytes) returns (steps: seq<D.Step>)
    requires D.WellFormed(m) && Deliverable(m, s, hid, r)
    requires TornWrite(D.Contents(s.partials, r.part.file), D.Offset(m, r.part), r.data, after)
    ensures D.Valid(m, s, steps)
    ensures D.Run(m, s, steps) == s.(partials := s.partials[r.part.file := after])
  {
    hide D.WellFormed, TornWrite, ChunkAccepted, D.Offset;
    var deliver, write, give := D.Deliver(hid, r), D.PartialWrite(hid, after), D.GiveUp(hid);
    var s1 := D.Apply(m, s, deliver);
    var s2 := D.Apply(m, s1, write);
    assert s1.handlers - {hid} == s.handlers;
    D.FirstStep(m, s2, give, []);
    D.FirstStep(m, s1, write, [give] + []);
    D.FirstStep(m, s, deliver, [write] + ([give] + []));
    steps := [deliver] + ([write] + ([give] + []));
  }

  // A call that stores the chunk, acknowledged or not.
  lemma StoredSteps(m: D.Manifest, s: D.System, hid: nat, r: D.Request, acknowledged: bool) returns (steps: seq<D.Step>)
    requires D.WellFormed(m) && Deliverable(m, s, hid, r)
    ensures D.Valid(m, s, steps)
    ensures D.Run(m, s, steps) == s.(
      partials := s.partials[r.part.file := WriteAt(D.Contents(s.partials, r.part.file), D.Offset(m, r.part), r.data)],
      rows := s.rows + {r.part},
      replies := if acknowledged then s.replies + {r.part} else s.replies)
  {
    hide D.WellFormed, WriteAt, ChunkAccepted, D.Offset;
    var deliver, write := D.Deliver(hid, r), D.FinishWrite(hid);
    var s1 := D.Apply(m, s, deliver);
    var s2 := D.Apply(m, s1, write);
    var rest := RowSteps(m, s2, hid, r, acknowledged);
    assert s2.handlers - {hid} == s.handlers;
    D.FirstStep(m, s1, write, rest);
    D.FirstStep(m, s, deliver, [write] + rest);
    steps := [deliver] + ([write] + rest);
  }

  lemma RowSteps(m: D.Manifest, s: D.System, hid: nat, r: D.Request, acknowledged: bool) returns (steps: seq<D.Step>)
    requires D.WellFormed(m) && hid in s.handlers && s.handlers[hid] == D.Synced(r)
    ensures D.Valid(m, s, steps)
    ensures D.Run(m, s, steps) == s.(handlers := s.handlers - {hid}, rows := s.rows + {r.part},
      replies := if acknowledged then s.replies + {r.part} else s.replies)
  {
    hide D.WellFormed;
    var save, last := D.SaveRow(hid), if acknowledged then D.Reply(hid) else D.GiveUp(hid);
    var s1 := D.Apply(m, s, save);
    assert s1.handlers - {hid} == s.handlers - {hid};
    D.FirstStep(m, s1, last, []);
    D.FirstStep(m, s, save, [last] + []);
    steps := [save] + ([last] + []);
  }

  // --- the disk after one call ------------------------------------------------------------

  lemma WrittenOnDisk(base: Path, files: seq<File>, partials: map<string, Bytes>, f: File, tree: Tree, after: Tree)
    requires DistinctIds(files) && DistinctRelative(files) && f in files && !f.directory
    requires OnDisk(base, files, partials, tree) && OnlyTouches(tree, after, {PartOf(base, f)})
    requires IsRegular(tree, PartOf(base, f)) ==> IsRegular(after, PartOf(base, f))
    ensures IsRegular(after, PartOf(base, f)) ==>
      OnDisk(base, files, partials[f.id := after[PartOf(base, f)].contents], after)
    ensures !IsRegular(after, PartOf(base, f)) ==> OnDisk(base, files, partials, after)
  {
    hide PartOf, DistinctIds, DistinctRelative;
    forall g | g in files && !g.directory && g != f ensures g.id != f.id && FileOnDisk(base, g, partials, after) {
      OtherFile(files, f, g);
      PartOfInjective(base, f, g);
      assert FileOnDisk(base, g, partials, tree);
    }
    assert FileOnDisk(base, f, partials, tree);
  }

  lemma OtherFile(files: seq<File>, f: File, g: File)
    requires DistinctIds(files) && DistinctRelative(files) && f in files && g in files && f != g
    ensures f.id != g.id && f.path != g.path
  {
    var i :| 0 <= i < |files| && files[i] == f;
    var j :| 0 <= j < |files| && files[j] == g;
  }

  lemma PartialContents(base: Path, files: seq<File>, partials: map<string, Bytes>, f: File, tree: Tree)
    requires OnDisk(base, files, partials, tree) && f in files && !f.directory
    ensures ContentsAt(tree, PartOf(base, f)) == D.Contents(partials, f.id)
  {
    assert FileOnDisk(base, f, partials, tree);
  }

  // --- one call ----------------------------------------------------------------------------

  // What ReceiveChunk promises of an admitted chunk.
  ghost predicate Received(
      base: Path, f: File, part: Part, data: Bytes, tree: Tree, after: Tree, complete: set<Part>, complete': set<Part>,
      stored: bool)
  {
    var path := PartOf(base, f);
    && 0 <= part.index * f.chunkSize
    && OnlyTouches(tree, after, {path}) && (IsRegular(tree, path) ==> IsRegular(after, path))
    && TornWrite(ContentsAt(tree, path), part.index * f.chunkSize, data, ContentsAt(after, path))
    && complete' == (if stored then complete + {part} else complete)
    && (stored ==> ChunkOnDisk(tree, after, path, part.index * f.chunkSize, data))
  }

  lemma ReceivedSimulated(
      m: D.Manifest, s: D.System, hid: nat, r: D.Request, base: Path, t: Transfer, t': Transfer, f: File, tree: Tree,
      after: Tree, complete: set<Part>, complete': set<Part>, stored: bool, acknowledged: bool)
    returns (steps: seq<D.Step>)
    requires D.WellFormed(m) && Reflects(m, s, base, t, complete, tree) && MayReceive(t)
    requires t'.files == t.files && MayReceive(t') && WellFormedFiles(t.files) && DistinctRelative(t.files)
    requires hid !in s.handlers && r in s.requests && FindFile(t.files, r.part.file) == Some(f)
    requires ChunkAccepted(t.files, r.part, r.data, r.checksum, m.hash)
    requires Received(base, f, r.part, r.data, tree, after, complete, complete', stored)
    requires acknowledged ==> stored
    ensures D.Valid(m, s, steps) && Reflects(m, D.Run(m, s, steps), base, t', complete', after)
    ensures acknowledged ==> r.part in D.Run(m, s, steps).replies
  {
    hide D.WellFormed, TornWrite, WriteAt, OnlyTouches, PartOf, SessionOf, OnDisk, DistinctRelative, MayReceive;
    SameChunk(m, t.files, f, r.part, r.data, r.checksum);
    hide ChunkAccepted;
    assert f in t.files && !f.directory;
    PartialContents(base, t.files, s.partials, f, tree);
    WrittenOnDisk(base, t.files, s.partials, f, tree, after);
    if stored {
      steps := StoredSteps(m, s, hid, r, acknowledged);
    } else if IsRegular(after, PartOf(base, f)) {
      steps := TornSteps(m, s, hid, r, after[PartOf(base, f)].contents);
    } else {
      steps := [];
    }
  }

  ghost predicate Mirrors(m: D.Manifest, s: D.System, service: TransferService, id: string)
    reads service, service.disk
  {
    id in service.transfers
    && Reflects(m, s, service.incoming + [id], service.transfers[id], CompleteRows(RowsOf(service.rows, id)),
         service.disk.tree)
  }

  lemma AddedRow(rows: map<string, Rows>, id: string, part: Part, row: Chunk)
    requires row.status.ChunkComplete?
    ensures CompleteRows(RowsOf(RowAdded(rows, id, part, row), id)) == CompleteRows(RowsOf(rows, id)) + {part}
  {
  }

  lemma Refused(m: D.Manifest, s: D.System)
    requires D.WellFormed(m)
    ensures D.Valid(m, s, []) && D.Run(m, s, []) == s
  {
  }

  lemma StoredSession(transfers: map<string, Transfer>, rows: map<string, Rows>, id: string)
    requires StoreSound(transfers, rows) && id in transfers
    ensures WellFormedFiles(transfers[id].files) && DistinctRelative(transfers[id].files) && Acceptable(transfers[id].files)
  {
  }

  // A chunk request of the delivery system, handed to the service: whatever becomes
  // of it, some steps of the system lead to the new disk and rows, and an
  // acknowledgement is one of its replies.
  method ReceiveSimulated(
      service: TransferService, ghost m: D.Manifest, ghost s: D.System, ghost hid: nat, id: string, r: D.Request,
      token: string, now: int)
    returns (answer: Result<Transfer, Failure>, ghost steps: seq<D.Step>)
    requires D.WellFormed(m) && m.hash == service.hash && StoreSound(service.transfers, service.rows)
    requires Mirrors(m, s, service, id) && r in s.requests && hid !in s.handlers
    modifies service`transfers, service`rows, service.disk`tree
    ensures StoreSound(service.transfers, service.rows)
    ensures D.Valid(m, s, steps) && Mirrors(m, D.Run(m, s, steps), service, id)
    ensures answer.Ok? ==> r.part in D.Run(m, s, steps).replies
  {
    hide D.WellFormed, TornWrite, WriteAt, OnlyTouches, PartOf, Reflects, StoreSound, Acceptable, AllParts;
    hide DistinctRelative, RowsOf, CompleteRows, RowAdded, ChunkOnDisk, Admit, Weight, WellFormedFiles;
    var t := service.transfers[id];
    ghost var tree, rows := service.disk.tree, service.rows;
    StoredSession(service.transfers, rows, id);
    AdmittedChunk(t, service.hashToken(token), r.part.file, r.part.index, r.checksum, r.data, service.hash);
    answer := service.ReceiveChunk(id, r.part.file, token, r.part.index, r.checksum, r.data, now);
    assert r.part == Part(r.part.file, r.part.index);
    var admitted := Admit(t, service.hashToken(token), r.part.file, r.part.index, r.checksum, r.data, service.hash);
    Refused(m, s);
    steps := [];
    if admitted.Ok? {
      var f := admitted.value;
      ghost var stored := answer.Ok? || service.rows != rows;
      AddedRow(rows, id, r.part, Chunk.Chunk(r.part.index * f.chunkSize, |r.data|, r.checksum, ChunkComplete));
      steps := ReceivedSimulated(m, s, hid, r, service.incoming + [id], t, service.transfers[id], f, tree, service.disk.tree,
        CompleteRows(RowsOf(rows, id)), CompleteRows(RowsOf(service.rows, id)), stored, answer.Ok?);
    }
  }

  // A status question, handed to the service: its answer is one that the delivery
  // system gives in the mirrored state, so a sender may start from it.
  method StatusAnswered(service: TransferService, ghost m: D.Manifest, ghost s: D.System, id: string, token: string)
    returns (answer: Result<ResumeMap, Failure>)
    requires D.WellFormed(m) && Mirrors(m, s, service, id)
    ensures D.Enabled(m, s, D.AnswerStatus) && Mirrors(m, D.Apply(m, s, D.AnswerStatus), service, id)
    ensures answer.Ok? <==> service.hashToken(token) == service.transfers[id].tokenHash
    ensures answer.Ok? ==> answer.value.chunks in D.Apply(m, s, D.AnswerStatus).statusAnswers
  {
    hide D.WellFormed, OnDisk, SessionOf;
    answer := service.ProtocolStatus(id, token);
    if answer.Ok? {
      assert answer.value.chunks == CompleteRows(RowsOf(service.rows, id));
    }
  }

  // The other steps of the delivery system - the sender's, the network's, answers
  // and ends of calls - leave what is mirrored alone.
  lemma OthersKeepMirror(m: D.Manifest, s: D.System, step: D.Step, base: Path, t: Transfer, complete: set<Part>,
      tree: Tree)
    requires D.WellFormed(m) && D.Enabled(m, s, step) && Reflects(m, s, base, t, complete, tree)
    requires !step.PartialWrite? && !step.FinishWrite? && !step.SaveRow? && !step.SetReceiving?
    ensures Reflects(m, D.Apply(m, s, step), base, t, complete, tree)
  {
    hide D.WellFormed, OnDisk, SessionOf, D.Enabled;
  }

  predicate SameEntries(files: seq<File>, files': seq<File>) {
    |files| == |files'| && forall i :: 0 <= i < |files| ==> EntryOf(files'[i], files[i])
  }

  lemma ApprovalKeepsEntries(files: seq<File>, root: Path)
    ensures SameEntries(files, files) && SameEntries(files, Destined(files, root))
  {
  }

  // A lifecycle call changes only whether chunks are received; an acceptance also
  // gives destinations and makes directories.
  lemma StatusSimulated(
      m: D.Manifest, s: D.System, base: Path, t: Transfer, t': Transfer, complete: set<Part>, tree: Tree, tree': Tree)
    requires D.WellFormed(m) && Reflects(m, s, base, t, complete, tree)
    requires SameEntries(t.files, t'.files) && OnlyTouches(tree, tree', {})
    ensures D.Valid(m, s, [D.SetReceiving(MayReceive(t'))])
    ensures Reflects(m, D.Run(m, s, [D.SetReceiving(MayReceive(t'))]), base, t', complete, tree')
  {
    hide D.WellFormed, OnDisk, SessionOf, MayReceive, OnlyTouches, SameEntries;
    var step := D.SetReceiving(MayReceive(t'));
    D.FirstStep(m, s, step, []);
    assert [step] + [] == [step];
    EntriesMirrored(m, base, t.files, t'.files, s.partials, tree, tree');
  }

  lemma EntriesMirrored(
      m: D.Manifest, base: Path, files: seq<File>, files': seq<File>, partials: map<string, Bytes>, tree: Tree,
      tree': Tree)
    requires SameEntries(files, files') && OnlyTouches(tree, tree', {})
    requires SessionOf(files, m) && OnDisk(base, files, partials, tree)
    ensures SessionOf(files', m) && OnDisk(base, files', partials, tree')
  {
    forall f' | f' in files'
      ensures (exists g :: g in m.files && EntryOf(f', g)) && (!f'.directory ==> FileOnDisk(base, f', partials, tree'))
    {
      var i :| 0 <= i < |files'| && files'[i] == f';
      var f := files[i];
      assert f in files && EntryOf(f', f);
      var g :| g in m.files && EntryOf(f, g);
      assert EntryOf(f', g);
      assert !f.directory ==> FileOnDisk(base, f, partials, tree);
    }
  }

  // A session just offered, with no row and no partial, mirrors the start.
  lemma OfferedMirrors(m: D.Manifest, base: Path, t: Transfer, tree: Tree)
    requires SessionOf(t.files, m) && !MayReceive(t)
    requires forall f :: f in t.files && !f.directory ==> !IsRegular(tree, PartOf(base, f))
    ensures Reflects(m, D.EMPTY, base, t, {}, tree)
  {
    hide PartOf;
  }
}
