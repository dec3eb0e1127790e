// Where the two halves meet: what the delivery system has put on the receiver's
// disk by the time a sender asks for completion, and what Finalize finds there.
module Completion {
  import opened Results
  import opened Transfers
  import opened Chunking
  import opened Paths
  import opened Receiving
  import opened Disk
  import opened Committing
  import opened Sessions
  import opened Staging
  import opened Verifying
  import opened Service
  import opened Simulation
  import D = Delivery

  function PartialOf(partials: map<string, Bytes>, id: string): Option<Bytes> {
    if id in partials then Some(partials[id]) else None
  }

  ghost predicate Delivered(files: seq<File>, rows: set<Part>, partials: map<string, Bytes>, hash: Bytes -> string) {
    forall f :: f in files && !f.directory ==> FileVerified(f, rows, PartialOf(partials, f.id), hash)
  }

  lemma DeliveredToSession(m: D.Manifest, steps: seq<D.Step>, files: seq<File>)
    requires D.WellFormed(m) && D.Valid(m, D.EMPTY, steps) && D.Run(m, D.EMPTY, steps).completeIssued && SessionOf(files, m)
    ensures var s := D.Run(m, D.EMPTY, steps); Delivered(files, s.rows, s.partials, m.hash)
  {
    hide D.WellFormed, D.Valid, D.Run, FileVerified;
    D.ExactDelivery(m, steps);
    var s := D.Run(m, D.EMPTY, steps);
    forall f | f in files && !f.directory ensures FileVerified(f, s.rows, PartialOf(s.partials, f.id), m.hash) {
      var g :| g in m.files && EntryOf(f, g);
      SameVerdict(f, g, s.rows, PartialOf(s.partials, f.id), m.hash);
    }
  }

  lemma SameVerdict(f: File, g: File, rows: set<Part>, partial: Option<Bytes>, hash: Bytes -> string)
    requires EntryOf(f, g)
    ensures FileVerified(f, rows, partial, hash) <==> FileVerified(g, rows, partial, hash)
  {
  }

  lemma NothingMissing(files: seq<File>, rows: set<Part>, partials: map<string, Bytes>, hash: Bytes -> string)
    requires Delivered(files, rows, partials, hash)
    ensures forall f :: f in files && !f.directory ==> |CompleteIndexes(rows, f.id)| == f.chunkCount
  {
    hide CompleteIndexes;
    forall f | f in files && !f.directory ensures |CompleteIndexes(rows, f.id)| == f.chunkCount {
      assert FileVerified(f, rows, PartialOf(partials, f.id), hash);
    }
  }

  lemma NothingWrong(base: Path, files: seq<File>, rows: set<Part>, partials: map<string, Bytes>, before: Tree,
      after: Tree, hash: Bytes -> string, f: File)
    requires Delivered(files, rows, partials, hash) && OnDisk(base, files, partials, before)
    requires OnlyCreatesParts(base, files, before, after) && f in files && !f.directory && IsRegular(after, PartOf(base, f))
    ensures hash(after[PartOf(base, f)].contents) == f.checksum
  {
    hide CompleteIndexes, PartOf;
    assert FileVerified(f, rows, PartialOf(partials, f.id), hash);
    assert FileOnDisk(base, f, partials, before);
  }

  // A session that mirrors a run in which a sender has asked for completion.
  ghost predicate Awaited(m: D.Manifest, steps: seq<D.Step>, service: TransferService, id: string)
    reads service, service.disk
  {
    && D.WellFormed(m) && D.Valid(m, D.EMPTY, steps) && D.Run(m, D.EMPTY, steps).completeIssued
    && m.hash == service.hash && Mirrors(m, D.Run(m, D.EMPTY, steps), service, id)
  }

  // When a completion request arrives, however the chunks came there, verification
  // finds every chunk recorded and every checksum right: it can fail only for the
  // disk's own reasons.
  method VerifyDelivered(service: TransferService, ghost m: D.Manifest, ghost steps: seq<D.Step>, id: string)
    returns (problem: Option<Failure>)
    requires Awaited(m, steps, service, id)
    modifies service.disk`tree
    ensures problem.None? || problem == Some(StorageFailure)
    ensures problem.None? ==> AllVerified(service.incoming + [id], service.transfers[id].files,
              CompleteRows(RowsOf(service.rows, id)), service.disk.tree, service.hash)
  {
    hide D.WellFormed, D.Valid, D.Run, AllVerified, OnlyCreatesParts, OnDisk, Delivered, SessionOf, CompleteIndexes;
    hide Verifiable, PartsThere, RowsOf, CompleteRows;
    var base, files := service.incoming + [id], service.transfers[id].files;
    ghost var s := D.Run(m, D.EMPTY, steps);
    ghost var before := service.disk.tree;
    DeliveredToSession(m, steps, files);
    NothingMissing(files, s.rows, s.partials, m.hash);
    problem := service.VerifyFiles(base, files, CompleteRows(RowsOf(service.rows, id)));
    if problem == Some(ChecksumMismatch) {
      ghost var f :| f in files && !f.directory && IsRegular(service.disk.tree, PartOf(base, f))
        && service.hash(service.disk.tree[PartOf(base, f)].contents) != f.checksum;
      NothingWrong(base, files, s.rows, s.partials, before, service.disk.tree, m.hash, f);
    }
  }

  // Every file at its target is the sender's file, byte for byte.
  ghost predicate SourcesPlaced(m: D.Manifest, files: seq<File>, tree: Tree, targets: seq<Path>) {
    && |targets| == |files|
    && forall j :: 0 <= j < |files| && !files[j].directory ==>
        && IsRegular(tree, targets[j]) && files[j].id in m.sources
        && tree[targets[j]].contents == m.sources[files[j].id]
  }

  lemma MovedAreSources(
      m: D.Manifest, steps: seq<D.Step>, base: Path, t: Transfer, complete: set<Part>, before: Tree, tree: Tree,
      targets: seq<Path>)
    requires D.WellFormed(m) && D.Valid(m, D.EMPTY, steps) && D.Run(m, D.EMPTY, steps).completeIssued
    requires Reflects(m, D.Run(m, D.EMPTY, steps), base, t, complete, before)
    requires AllMoved(base, t.files, t.policy, before, tree, targets)
    ensures SourcesPlaced(m, t.files, tree, targets)
  {
    hide D.Valid, D.Run, PartOf;
    D.ExactDelivery(m, steps);
    var s := D.Run(m, D.EMPTY, steps);
    forall j | 0 <= j < |t.files| && !t.files[j].directory
      ensures t.files[j].id in m.sources && tree[targets[j]].contents == m.sources[t.files[j].id]
    {
      var f := t.files[j];
      SameEntry(m, t.files, f);
      PartialContents(base, t.files, s.partials, f, before);
      assert FindFile(m.files, f.id).value in m.files;
    }
  }

  // From the sender's disk to the receiver's: a transfer that is completed on its
  // sender's request, over whatever network and through whatever crashes, has
  // placed exactly the sender's files, unless its approval was unsafe.
  method FinalizeDelivered(service: TransferService, ghost m: D.Manifest, ghost steps: seq<D.Step>, id: string,
      token: string, now: int)
    returns (r: Result<Transfer, Failure>, ghost targets: seq<Path>)
    requires Awaited(m, steps, service, id) && StoreSound(service.transfers, service.rows)
    modifies service`transfers, service`taken, service.disk`tree
    ensures r.Ok? ==>
      && r.value.status.Completed? && r.value.files == old(service.transfers[id]).files
      && (CommitSafe(service.incoming + [id], r.value.files, r.value.policy) ==>
            SourcesPlaced(m, r.value.files, service.disk.tree, targets))
  {
    hide D.WellFormed, D.Valid, D.Run, Reflects, StoreSound, CommitSafe, AllPlaced, AllMoved, AllSized, Spared;
    hide TakesOnce;
    hide Committable, SourcesPlaced, StagingSound, RowsOf, CompleteRows;
    var t := service.transfers[id];
    ghost var before := service.disk.tree;
    ghost var complete := CompleteRows(RowsOf(service.rows, id));
    r, targets := service.Finalize(id, token, now);
    if r.Ok? && CommitSafe(service.incoming + [id], t.files, t.policy) {
      MovedAreSources(m, steps, service.incoming + [id], t, complete, before, service.disk.tree, targets);
    }
  }
}
