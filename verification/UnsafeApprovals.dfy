// Approvals the service accepts although the commit then goes wrong: the failing
// inputs of the overwrite policy and of the length bound, from a manifest that is
// accepted to a transfer that is reported Completed.
module UnsafeApprovals {
  import opened Results
  import opened Transfers
  import opened Chunking
  import opened Lifecycle
  import opened Paths
  import opened Receiving
  import opened Disk
  import opened Committing
  import opened Sorting
  import opened Store
  import opened Sessions
  import opened Offers
  import opened Approval
  import opened Staging
  import opened Verifying
  import opened Service
  import Manifests
  import Obstruction

  predicate SoundEntry(lib: Manifests.Library, f: File, chunkSize: int)
    requires 0 < chunkSize
  {
    && lib.isUuid(f.id) && !f.directory && ValidSHA256(f.checksum)
    && 0 <= f.size && f.chunkSize == chunkSize && f.chunkCount == ChunkCount(f.size, chunkSize)
  }

  // A session of a sound service that its sender may finalize: approved to overwrite,
  // every file verified, and neither the disk nor the store fails.
  ghost predicate Finalizable(service: TransferService, id: string, token: string)
    reads service, service.disk
  {
    && service.steady && service.disk.reliable && StoreSound(service.transfers, service.rows)
    && id in service.transfers
    && var t := service.transfers[id];
    && t.policy.Overwrite? && MayReceive(t) && t.tokenHash == service.hashToken(token)
    && Rooted(service.disk.tree)
    && AllVerified(service.incoming + [id], t.files, CompleteRows(RowsOf(service.rows, id)), service.disk.tree, service.hash)
  }

  // --- a file lost -----------------------------------------------------------------

  // One file is called like the other's partial as seen from the parent of the
  // staging directory.
  predicate LosingPair(id: string, f: File, g: File) {
    f.path == id + "/b.part" && g.path == "b" && !f.directory && !g.directory
  }

  lemma LosingPathsValid(id: string)
    requires PortableComponent(id) && NoSlash(id) && '\0' !in id && '\\' !in id
    ensures ValidRelative("b") && ValidRelative(id + "/b.part")
  {
    hide Stem, ToUpper, ValidRelative, PortableComponent, Split, NoSlash;
    Obstruction.ShortStems();
    Obstruction.ShortNameAllowed("b");
    Obstruction.ShortNameAllowed("b.part");
    PlainName("b");
    PlainName("b.part");
    PlainName(id);
    SplitAppend(id, "b.part");
    assert id + "/" + "b.part" == id + "/b.part";
    assert Split(id + "/b.part") == [id, "b.part"] && Split("b") == ["b"];
    ValidIffPortable("b");
    ValidIffPortable(id + "/b.part");
  }

  // The manifest passes every check of ReceiveOffer, and the store keeps its order.
  lemma LosingManifestAccepted(lib: Manifests.Library, id: string, f: File, g: File, chunkSize: int)
    requires PortableComponent(id) && NoSlash(id) && '\0' !in id && '\\' !in id
    requires Less(id + "/b.part", "b") && lib.lower(id + "/b.part") != lib.lower("b")
    requires LosingPair(id, f, g) && 0 < chunkSize <= MAXIMUM_CHUNK_SIZE
    requires SoundEntry(lib, f, chunkSize) && SoundEntry(lib, g, chunkSize)
    ensures Manifests.ManifestValid(lib, [f, g], chunkSize, Total64([f, g]))
    ensures InPathOrder([f, g]) == [f, g]
  {
    hide ValidRelative, ValidSHA256, Total64, PortableComponent, NoSlash, Less;
    LosingPathsValid(id);
    assert forall h :: h in [f, g] ==> h == f || h == g;
    LessTotal(id + "/b.part", "b");
    PairInOrder(f, g);
  }

  lemma PairInOrder(f: File, g: File)
    requires Less(f.path, g.path)
    ensures InPathOrder([f, g]) == [f, g]
  {
    hide Less;
    LessTotal(f.path, g.path);
    assert [f, g][1..] == [g] && [g][1..] == [];
    assert Sort([g], Manifests.ByPath()) == [g];
  }

  // The whole commit of that manifest, approved into the parent directory under
  // overwrite: both partials are there and verified, neither the disk nor the store
  // fails, and the transfer is Completed with a file missing.
  method CompletedWithoutFile(service: TransferService, id: string, token: string, f: File, g: File, now: int)
    returns (r: Result<Transfer, Failure>, ghost targets: seq<Path>)
    requires NoSlash(id) && Less(id + "/b.part", "b") && LosingPair(id, f, g)
    requires Finalizable(service, id, token)
    requires service.transfers[id].files == Destined([f, g], service.incoming)
    requires !IsEntryFolder(service.disk.tree, service.incoming + ["b"])
    modifies service`transfers, service`taken, service.disk`tree
    ensures r.Ok? && r.value.status.Completed?
    ensures id in service.transfers && service.transfers[id] == r.value
    ensures !AllPlaced(r.value.files, service.disk.tree, targets, CompleteRows(RowsOf(service.rows, id)), service.hash)
  {
    hide Less, NoSlash, LosingPair, CommitSafe, Committable, Spared, AllPlaced, AllMoved, AllSized, Destined;
    hide AllVerified, Rooted, StoreSound, StagingSound, TakesOnce, IsEntryFolder, RowsOf, CompleteRows, MayReceive;
    LosesWhenCommitted(service.incoming, id, f, g, service.transfers[id], CompleteRows(RowsOf(service.rows, id)),
      service.disk.tree, service.hash);
    r, targets := service.Finalize(id, token, now);
  }

  lemma LosesWhenCommitted(
      incoming: Path, id: string, f: File, g: File, t: Transfer, complete: set<Part>, tree: Tree, hash: Bytes -> string)
    requires NoSlash(id) && Less(id + "/b.part", "b") && LosingPair(id, f, g)
    requires t.files == Destined([f, g], incoming) && t.policy.Overwrite?
    requires Rooted(tree) && !IsEntryFolder(tree, incoming + ["b"])
    requires AllVerified(incoming + [id], t.files, complete, tree, hash)
    ensures Committable(incoming + [id], t, complete, tree, hash) && !CommitSafe(incoming + [id], t.files, t.policy)
  {
    hide Writable, Less, NoSlash, Unhindered, CommitSafe, PartOf, DistinctRelative, AllVerified, Rooted;
    hide IsEntryFolder, PathSorted;
    PlacesWritable(incoming, id, f, g, complete, tree, hash);
    ApprovalAtParentLoses(incoming, id, f, g, tree);
  }

  lemma PlacesWritable(incoming: Path, id: string, f: File, g: File, complete: set<Part>, tree: Tree,
      hash: Bytes -> string)
    requires NoSlash(id) && LosingPair(id, f, g) && Rooted(tree) && !IsEntryFolder(tree, incoming + ["b"])
    requires AllVerified(incoming + [id], Destined([f, g], incoming), complete, tree, hash)
    ensures Writable(tree, incoming + [id, "b.part"]) && Writable(tree, incoming + ["b"])
  {
    hide Split, PartNames, Rooted, Blocked, FileVerified;
    var part := incoming + [id, "b.part"];
    var g' := Destined([f, g], incoming)[1];
    PlainName("b");
    PartNamesOfB();
    assert PartOf(incoming + [id], g') == part && g' in Destined([f, g], incoming);
    assert IsRegular(tree, part);
    Obstruction.EntryNotBlocked(tree, part);
    assert Dir(incoming + ["b"]) == incoming;
    if incoming != [] {
      assert incoming < part;
      Obstruction.AncestorsAreFolders(tree, incoming, part);
    }
    FolderNotBlocked(tree, incoming);
  }

  lemma PartNamesOfB()
    ensures PartNames("b") == ["b.part"]
  {
    PlainName("b");
    assert "b" + ".part" == "b.part";
  }

  // --- another session's partial overrun ---------------------------------------------

  // One session, approved into the staging directory of another one, with a file
  // called like a partial there: when it completes, that partial is longer than
  // its own manifest says.
  method CompletedOverAnother(service: TransferService, a: string, b: string, token: string, f: File, g: File, now: int)
    returns (r: Result<Transfer, Failure>, ghost targets: seq<Path>)
    requires a != b && !f.directory && !g.directory && f.path == g.path + ".part" && g.size < f.size
    requires Finalizable(service, a, token) && service.transfers[a].files == Destined([f], service.incoming + [b])
    requires Writable(service.disk.tree, PartOf(service.incoming + [b], g))
    requires |ContentsAt(service.disk.tree, PartOf(service.incoming + [a], f))| == f.size
    modifies service`transfers, service`taken, service.disk`tree
    ensures r.Ok? && r.value.status.Completed?
    ensures |ContentsAt(service.disk.tree, PartOf(service.incoming + [b], g))| == f.size > g.size
    ensures b in service.transfers && g in service.transfers[b].files ==> !service.Staged()
  {
    hide Writable, Unhindered, CommitSafe, PartOf, Spared, AllPlaced, AllMoved, AllSized, Rooted, StoreSound;
    hide StagingSound, TakesOnce;
    var files := service.transfers[a].files;
    ghost var tree := service.disk.tree;
    OverrunAims(service.incoming, a, b, f, g, tree);
    r, targets := service.Finalize(a, token, now);
    OverrunMoved(service.incoming, a, b, f, g, tree, service.disk.tree, targets);
    if b in service.transfers && g in service.transfers[b].files {
      TooLong(service.incoming, service.transfers, service.rows, service.disk.tree, service.taken, service.hash, b, g);
    }
  }

  // The manifest of such a session is accepted: where a path is, its partial's name
  // is one too.
  lemma OverrunManifestAccepted(lib: Manifests.Library, f: File, g: File, chunkSize: int)
    requires 0 < chunkSize <= MAXIMUM_CHUNK_SIZE && SoundEntry(lib, f, chunkSize)
    requires ValidRelative(g.path) && f.path == g.path + ".part"
    ensures Manifests.ManifestValid(lib, [f], chunkSize, Total64([f])) && InPathOrder([f]) == [f]
  {
    hide ValidRelative, ValidSHA256, Total64;
    PartNameValid(g.path);
    assert f in [f] && forall h :: h in [f] ==> h == f;
    assert [f][1..] == [];
    assert Sort([], Manifests.ByPath()) == [];
    assert Sort([f], Manifests.ByPath()) == [f];
  }

  lemma PartNameValid(path: string)
    requires ValidRelative(path)
    ensures ValidRelative(path + ".part")
  {
    hide ValidRelative, PortableComponent, Split, Join;
    ValidIffPortable(path);
    ValidIffPortable(path + ".part");
    PartNamesJoin(path);
    var own := Split(path);
    assert PortableComponent(own[|own| - 1]);
    PartComponentPortable(own[|own| - 1]);
  }

  lemma PartComponentPortable(name: string)
    requires PortableComponent(name)
    ensures PortableComponent(name + ".part")
  {
    hide ToUpper;
    Obstruction.StemOfPart(name);
    assert |name + ".part"| > 5;
    if LastDot(name) >= 0 {
      DotNotReserved(name, LastDot(name));
    }
  }

  lemma DotNotReserved(name: string, i: nat)
    requires i < |name| && name[i] == '.'
    ensures ToUpper(name) !in RESERVED
  {
    assert forall s :: s in RESERVED ==> |s| <= 4 && (forall k :: 0 <= k < |s| ==> s[k] != '.');
    assert ToUpper(name)[i] == '.';
  }

  lemma OverrunAims(incoming: Path, a: string, b: string, f: File, g: File, tree: Tree)
    requires a != b && !f.directory && f.path == g.path + ".part" && Writable(tree, PartOf(incoming + [b], g))
    ensures incoming + [b] + Split(f.path) == PartOf(incoming + [b], g)
    ensures CommitSafe(incoming + [a], Destined([f], incoming + [b]), Overwrite)
    ensures Unhindered(incoming + [a], Destined([f], incoming + [b]), Overwrite, tree)
  {
    hide Split, Writable, CommitSafe, Unhindered, PartOf;
    OverrunPlace(incoming, b, f, g);
    var f' := Destined([f], incoming + [b])[0];
    assert Destined([f], incoming + [b]) == [f'];
    PartsApart(incoming, a, f', b, g);
    PartNotEmpty(incoming + [b], g);
    SingleCommitOpen(incoming + [a], f', tree);
  }

  lemma OverrunPlace(incoming: Path, b: string, f: File, g: File)
    requires f.path == g.path + ".part"
    ensures incoming + [b] + Split(f.path) == PartOf(incoming + [b], g)
  {
    PartNamesJoin(g.path);
  }

  lemma SingleCommitOpen(base: Path, h: File, tree: Tree)
    requires !h.directory && h.destination.Some? && h.destination.value != []
    requires h.destination.value != PartOf(base, h) && Writable(tree, h.destination.value)
    ensures CommitSafe(base, [h], Overwrite) && Unhindered(base, [h], Overwrite, tree)
  {
    hide PartOf, Blocked;
    NotLonger(h.destination.value);
  }

  lemma OverrunMoved(incoming: Path, a: string, b: string, f: File, g: File, before: Tree, tree: Tree,
      targets: seq<Path>)
    requires !f.directory && incoming + [b] + Split(f.path) == PartOf(incoming + [b], g)
    requires AllMoved(incoming + [a], Destined([f], incoming + [b]), Overwrite, before, tree, targets)
    ensures ContentsAt(tree, PartOf(incoming + [b], g)) == ContentsAt(before, PartOf(incoming + [a], f))
  {
    hide Split, PartNames;
    var f' := Destined([f], incoming + [b])[0];
    assert PartOf(incoming + [a], f') == PartOf(incoming + [a], f);
    assert f'.destination == Some(targets[0]);
  }

  lemma TooLong(
      incoming: Path, transfers: map<string, Transfer>, rows: map<string, Rows>, tree: Tree, taken: Taken,
      hash: Bytes -> string, b: string, g: File)
    requires b in transfers && g in transfers[b].files && !g.directory
    requires g.size < |ContentsAt(tree, PartOf(incoming + [b], g))|
    ensures !StagingSound(incoming, transfers, rows, tree, taken, hash)
  {
    assert !PartialSound(g, CompleteRows(RowsOf(rows, b)), tree, PartOf(incoming + [b], g), taken, hash);
    assert !SessionStaged(incoming + [b], transfers[b].files, CompleteRows(RowsOf(rows, b)), tree, taken, hash);
  }
}
