// Approval: the destinations an accepted transfer gets below the chosen root, and
// when they can meet the partial files of the same transfer.
module Approval {
  import opened Results
  import opened Transfers
  import opened Chunking
  import opened Paths
  import opened Disk
  import opened Sorting
  import opened Store
  import opened Committing
  import opened Sessions

  // The manifest with every destination set below the chosen root.
  function Destined(files: seq<File>, root: Path): (r: seq<File>)
    ensures |r| == |files|
    ensures forall i :: 0 <= i < |r| ==> r[i] == files[i].(destination := Some(root + Split(files[i].path)))
  {
    seq(|files|, i requires 0 <= i < |files| => files[i].(destination := Some(root + Split(files[i].path))))
  }

  lemma DestinedAcceptable(files: seq<File>, root: Path)
    requires Acceptable(files)
    ensures Acceptable(Destined(files, root))
  {
    hide ValidRelative;
    forall f | f in Destined(files, root) ensures WellFormedFile(f) && ValidRelative(f.path) && f.destination.value != [] {
      var i :| 0 <= i < |files| && f == Destined(files, root)[i];
      assert files[i] in files && WellFormedFile(files[i]) && ValidRelative(files[i].path);
    }
  }

  // Chunk rows and the total depend on the IDs and sizes of the files only.
  lemma {:induction false} DestinedParts(files: seq<File>, root: Path)
    ensures AllParts(Destined(files, root)) == AllParts(files)
    ensures TotalSize(Destined(files, root)) == TotalSize(files)
  {
    if files != [] {
      DestinedParts(files[1..], root);
      assert Destined(files, root)[1..] == Destined(files[1..], root);
    }
  }

  lemma {:induction false} DestinedFind(files: seq<File>, root: Path, id: string)
    ensures FindFile(Destined(files, root), id).Some? <==> FindFile(files, id).Some?
    ensures FindFile(files, id).Some? ==>
      FindFile(Destined(files, root), id).value.size == FindFile(files, id).value.size
      && FindFile(Destined(files, root), id).value.chunkSize == FindFile(files, id).value.chunkSize
  {
    if files != [] {
      DestinedFind(files[1..], root, id);
      assert Destined(files, root)[1..] == Destined(files[1..], root);
    }
  }

  lemma DestinedRows(files: seq<File>, root: Path, rows: Rows)
    requires RowsSound(files, rows)
    ensures RowsSound(Destined(files, root), rows)
  {
    DestinedParts(files, root);
    forall p | p in rows ensures rows[p].size == Weight(Destined(files, root))(p) {
      DestinedFind(files, root, p.file);
    }
  }

  lemma ApprovalKeepsSound(transfers: map<string, Transfer>, rows: map<string, Rows>, t: Transfer, root: Path)
    requires StoreSound(transfers, rows) && t.id in transfers && t.size == transfers[t.id].size
    requires t.files == Destined(transfers[t.id].files, root)
    ensures StoreSound(transfers[t.id := t], rows)
  {
    hide Acceptable, RowsSound;
    DestinedAcceptable(transfers[t.id].files, root);
    DestinedParts(transfers[t.id].files, root);
    if t.id in rows {
      DestinedRows(transfers[t.id].files, root, rows[t.id]);
    }
  }

  // --- names that meet ---------------------------------------------------------------

  ghost predicate Named(p: Path) {
    forall part :: part in p ==> NoSlash(part)
  }

  lemma SplitInjective(a: string, b: string)
    requires Split(a) == Split(b)
    ensures a == b
  {
    SplitParts(a);
    SplitParts(b);
  }

  // A slash-separated name below some directories.
  function Under(directories: Path, name: string): string {
    if directories == [] then name else Join(directories) + "/" + name
  }

  lemma UnderSplit(directories: Path, name: string)
    requires Named(directories)
    ensures Split(Under(directories, name)) == directories + Split(name)
  {
    if directories == [] {
      assert directories + Split(name) == Split(name);
    } else {
      SplitAppend(Join(directories), name);
      SplitJoin(directories);
    }
  }

  // The destination of the file named p is the partial of the file named q.
  predicate Aims(base: Path, root: Path, p: string, q: string) {
    root + Split(p) == PartComponents(base, q)
  }

  lemma SplitBelow(directories: Path, p: string, q: string)
    requires Named(directories)
    ensures Split(p) == directories + Split(q) <==> p == Under(directories, q)
  {
    UnderSplit(directories, q);
    if Split(p) == directories + Split(q) {
      SplitInjective(p, Under(directories, q));
    }
  }

  lemma SamePrefix(front: Path, a: Path, b: Path)
    ensures front + a == front + b <==> a == b
  {
    assert (front + a)[|front|..] == a && (front + b)[|front|..] == b;
  }

  lemma PrefixesNest(a: Path, b: Path, d: Path)
    ensures a <= d && b <= d ==> a <= b || b <= a
  {
    if a <= d && b <= d {
      assert if |a| <= |b| then a == b[..|a|] else b == a[..|b|];
    }
  }

  // In terms of names only: with the staging directory below the root, p must be
  // q's partial as seen from the root; with the root below it, the other way
  // round; and otherwise the two never meet.
  lemma AimsIff(base: Path, root: Path, p: string, q: string)
    requires Named(base) && Named(root)
    ensures root <= base ==> (Aims(base, root, p, q) <==> p == Under(base[|root|..], q + ".part"))
    ensures base <= root ==> (Aims(base, root, p, q) <==> q + ".part" == Under(root[|base|..], p))
    ensures !(root <= base) && !(base <= root) ==> !Aims(base, root, p, q)
  {
    hide Split, Join, PartNames, NoSlash;
    PartNamesJoin(q);
    if root <= base {
      var rest := base[|root|..];
      assert base == root + rest;
      assert PartComponents(base, q) == root + (rest + Split(q + ".part"));
      SamePrefix(root, Split(p), rest + Split(q + ".part"));
      SplitBelow(rest, p, q + ".part");
    }
    if base <= root {
      var rest := root[|base|..];
      assert root == base + rest;
      assert root + Split(p) == base + (rest + Split(p));
      SamePrefix(base, rest + Split(p), Split(q + ".part"));
      SplitBelow(rest, q + ".part", p);
    }
    PrefixesNest(base, root, root + Split(p));
  }

  // --- when an approval is safe --------------------------------------------------------

  // Approved destinations never coincide, so a commit under overwrite is safe
  // exactly when no destination is the partial of a file later in path order.
  lemma ApprovalSafeIff(base: Path, root: Path, files: seq<File>)
    requires DistinctRelative(files)
    ensures CommitSafe(base, Destined(files, root), Overwrite) <==>
      forall j, k :: 0 <= j < k < |files| && !files[j].directory && !files[k].directory
        ==> !Aims(base, root, files[j].path, files[k].path)
  {
    hide Split, PartNames;
    var done := Destined(files, root);
    forall j, k | 0 <= j < k < |files|
      ensures PairSafe(base, done[j], done[k]) <==>
        (!files[j].directory && !files[k].directory ==> !Aims(base, root, files[j].path, files[k].path))
    {
      if Split(files[j].path) == Split(files[k].path) {
        SplitInjective(files[j].path, files[k].path);
      }
      SamePrefix(root, Split(files[j].path), Split(files[k].path));
      assert files[j].path != files[k].path;
    }
  }

  // Approving into a directory neither above nor below the staging directory.
  lemma ApprovalElsewhere(base: Path, root: Path, files: seq<File>, policy: Policy)
    requires DistinctRelative(files) && Named(base) && Named(root) && !(base <= root) && !(root <= base)
    ensures CommitSafe(base, Destined(files, root), policy)
  {
    ApprovalSafeIff(base, root, files);
    forall p, q ensures !Aims(base, root, p, q) {
      AimsIff(base, root, p, q);
    }
  }

  // Approving into a directory above it, such as the home directory: unsafe only
  // if the manifest itself names a partial of the transfer from there.
  lemma ApprovalAboveIff(base: Path, root: Path, files: seq<File>)
    requires DistinctRelative(files) && Named(base) && Named(root) && root <= base
    ensures CommitSafe(base, Destined(files, root), Overwrite) <==>
      forall j, k :: 0 <= j < k < |files| && !files[j].directory && !files[k].directory
        ==> files[j].path != Under(base[|root|..], files[k].path + ".part")
  {
    hide Under, Aims, CommitSafe, Named, DistinctRelative;
    ApprovalSafeIff(base, root, files);
    forall j, k | 0 <= j < k < |files|
      ensures Aims(base, root, files[j].path, files[k].path) <==> files[j].path == Under(base[|root|..], files[k].path + ".part")
    {
      AimsIff(base, root, files[j].path, files[k].path);
    }
  }

  // Approving into a directory below it: unsafe only if a partial of the transfer
  // lies at a manifest path as seen from there.
  lemma ApprovalBelowIff(base: Path, root: Path, files: seq<File>)
    requires DistinctRelative(files) && Named(base) && Named(root) && base <= root
    ensures CommitSafe(base, Destined(files, root), Overwrite) <==>
      forall j, k :: 0 <= j < k < |files| && !files[j].directory && !files[k].directory
        ==> files[k].path + ".part" != Under(root[|base|..], files[j].path)
  {
    hide Under, Aims, CommitSafe, Named, DistinctRelative;
    ApprovalSafeIff(base, root, files);
    forall j, k | 0 <= j < k < |files|
      ensures Aims(base, root, files[j].path, files[k].path) <==> files[k].path + ".part" == Under(root[|base|..], files[j].path)
    {
      AimsIff(base, root, files[j].path, files[k].path);
    }
  }

  // Approving into the staging directory itself is safe: in path order a file
  // comes before the name of its partial.
  lemma ApprovalAtStaging(base: Path, files: seq<File>, policy: Policy)
    requires DistinctRelative(files) && PathSorted(files) && Named(base)
    ensures CommitSafe(base, Destined(files, base), policy)
  {
    ApprovalAboveIff(base, base, files);
    forall j, k | 0 <= j < k < |files| ensures files[j].path != Under(base[|base|..], files[k].path + ".part") {
      PrefixLess(files[k].path, ".part");
      LessTotal(files[j].path, files[k].path);
    }
  }

  // Two files, the first aimed at the second one's partial.
  lemma AimedPairLoses(base: Path, f: File, g: File, tree: Tree)
    requires !f.directory && !g.directory && f.destination == Some(PartOf(base, g)) && g.destination.Some?
    requires f.destination.value != [] && PartOf(base, f) != PartOf(base, g) && PartOf(base, g) != g.destination.value
    requires !(f.destination.value <= Dir(g.destination.value)) && !(g.destination.value <= Dir(f.destination.value))
    requires g.destination.value != [] && Writable(tree, f.destination.value) && Writable(tree, g.destination.value)
    ensures Unhindered(base, [f, g], Overwrite, tree) && !CommitSafe(base, [f, g], Overwrite)
  {
    hide Blocked;
    assert !PairSafe(base, [f, g][0], [f, g][1]);
    assert forall h :: h in [f, g] ==> h == f || h == g;
    assert !(f.destination.value <= Dir(f.destination.value)) && !(g.destination.value <= Dir(g.destination.value));
  }

  // Approved into the parent of its staging directory: a file named like another
  // one's partial from there, and earlier in path order. Nothing hinders the
  // commit, and it is not safe.
  lemma ApprovalAtParentLoses(incoming: Path, id: string, f: File, g: File, tree: Tree)
    requires NoSlash(id) && Less(id + "/b.part", "b")
    requires f.path == id + "/b.part" && g.path == "b" && !f.directory && !g.directory
    requires Writable(tree, incoming + [id, "b.part"]) && Writable(tree, incoming + ["b"])
    ensures DistinctRelative([f, g]) && PathSorted([f, g])
    ensures Unhindered(incoming + [id], Destined([f, g], incoming), Overwrite, tree)
    ensures !CommitSafe(incoming + [id], Destined([f, g], incoming), Overwrite)
  {
    var base := incoming + [id];
    var f' := f.(destination := Some(incoming + [id, "b.part"]));
    var g' := g.(destination := Some(incoming + ["b"]));
    hide Split, Less, Blocked, Unhindered, CommitSafe, PartNames;
    ParentNames(id);
    PlacesDiffer(incoming, id);
    LessTotal(id + "/b.part", "b");
    AimedPairLoses(base, f', g', tree);
    assert Destined([f, g], incoming) == [f', g'];
  }

  lemma ParentNames(id: string)
    requires NoSlash(id)
    ensures Split("b") == ["b"] && Split(id + "/b.part") == [id, "b.part"]
    ensures PartNames("b") == ["b.part"] && PartNames(id + "/b.part") == [id, "b.part.part"]
    ensures Less(id + "/b.part", "b") ==> id != "b"
  {
    hide Split, Join, PartNames, Less, NoSlash;
    PlainName("b");
    PlainName("b.part");
    PlainName("b.part.part");
    PlainName(id);
    SplitAppend(id, "b.part");
    SplitAppend(id, "b.part.part");
    PartNamesJoin("b");
    PartNamesJoin(id + "/b.part");
    assert id + "/" + "b.part" == id + "/b.part" && id + "/" + "b.part.part" == id + "/b.part" + ".part";
    assert "b" + ".part" == "b.part" && "b" + "/b.part" == "b/b.part";
    PrefixLess("b", "/b.part");
    LessTotal("b", "b/b.part");
  }

  lemma PlainName(name: string)
    ensures NoSlash(name) ==> Split(name) == [name]
    ensures name == "b" || name == "b.part" || name == "b.part.part" ==> NoSlash(name)
  {
    if NoSlash(name) {
      SplitPart(name);
    }
  }

  lemma PlacesDiffer(incoming: Path, id: string)
    requires id != "b"
    ensures var base, d, e := incoming + [id], incoming + [id, "b.part"], incoming + ["b"];
      && d == base + ["b.part"] && base + [id, "b.part.part"] != d && d != e
      && Dir(d) == base && Dir(e) == incoming && !(d <= incoming) && !(e <= base)
  {
    assert (incoming + ["b"])[|incoming|] == "b" && (incoming + [id])[|incoming|] == id;
    assert (incoming + [id, "b.part"])[|incoming|] == id;
  }
}
