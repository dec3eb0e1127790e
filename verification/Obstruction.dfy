// Partial files that stand in each other's way: a manifest whose paths run
// through another path's ".part" name is accepted, but cannot be received.
module Obstruction {
  import opened Results
  import opened Transfers
  import opened Chunking
  import opened Paths
  import opened Receiving
  import opened Disk
  import opened Committing
  import Manifests

  predicate RunsThrough(g: File, f: File) {
    f.path + ".part/" <= g.path
  }

  lemma RunsThroughIff(base: Path, f: File, g: File)
    ensures PartOf(base, f) < PartOf(base, g) <==> RunsThrough(g, f)
  {
    PartialBlocksIff(f.path, g.path);
    hide PartNames;
    assert PartOf(base, f)[|base|..] == PartNames(f.path) && PartOf(base, g)[|base|..] == PartNames(g.path);
    if PartNames(f.path) <= PartNames(g.path) {
      assert PartOf(base, g)[..|PartOf(base, f)|] == PartOf(base, f);
    }
    if PartOf(base, f) < PartOf(base, g) {
      assert PartNames(g.path)[..|PartNames(f.path)|] == PartNames(f.path);
    }
  }

  // --- on the disk -------------------------------------------------------------------

  lemma {:induction false} EntryNotBlocked(tree: Tree, q: Path)
    requires Rooted(tree) && q in tree
    ensures !Blocked(tree, Dir(q)) && IsFolder(tree, Dir(q))
  {
    FolderNotBlocked(tree, Dir(q));
  }

  lemma RegularAbove(tree: Tree, p: Path, q: Path)
    requires p < q && p != [] && IsRegular(tree, p)
    ensures Blocked(tree, Dir(q))
  {
    assert Dir(q)[..|p|] == p;
  }

  lemma {:induction false} AncestorsAreFolders(tree: Tree, p: Path, q: Path)
    requires Rooted(tree) && q in tree && p < q && p != []
    ensures IsEntryFolder(tree, p)
    decreases |q|
  {
    if p == Dir(q) {
    } else {
      assert p < Dir(q);
      AncestorsAreFolders(tree, p, Dir(q));
    }
  }

  // Whichever of the two partials is there first, the other cannot be written.
  lemma FirstPartialWins(base: Path, f: File, g: File, tree: Tree)
    requires Rooted(tree) && RunsThrough(g, f)
    ensures IsRegular(tree, PartOf(base, f)) ==> !Writable(tree, PartOf(base, g))
    ensures IsRegular(tree, PartOf(base, g)) ==> !Writable(tree, PartOf(base, f))
  {
    RunsThroughIff(base, f, g);
    assert PartOf(base, f) != [] by {
      assert |PartNames(f.path)| > 0;
    }
    hide Blocked, PartNames;
    if IsRegular(tree, PartOf(base, f)) {
      RegularAbove(tree, PartOf(base, f), PartOf(base, g));
    }
    if IsRegular(tree, PartOf(base, g)) {
      AncestorsAreFolders(tree, PartOf(base, f), PartOf(base, g));
    }
  }

  // So no chunk of the second file is ever stored while the first one's partial
  // is there, on any disk.
  method SecondPartialFails(disk: FileSystem, base: Path, f: File, g: File, offset: nat, data: Bytes) returns (ok: bool)
    requires Rooted(disk.tree) && (RunsThrough(g, f) || RunsThrough(f, g)) && IsRegular(disk.tree, PartOf(base, f))
    modifies disk`tree
    ensures !ok
  {
    hide Rooted, Blocked;
    if RunsThrough(g, f) {
      FirstPartialWins(base, f, g, disk.tree);
    } else {
      FirstPartialWins(base, g, f, disk.tree);
    }
    ok := disk.WriteChunk(PartOf(base, g), offset, data);
  }

  // --- over a whole manifest ------------------------------------------------------------

  ghost predicate AllPartsThere(base: Path, files: seq<File>, tree: Tree) {
    Rooted(tree) && forall f :: f in files && !f.directory ==> IsRegular(tree, PartOf(base, f))
  }

  ghost predicate Unobstructed(files: seq<File>) {
    forall f, g :: f in files && g in files && !f.directory && !g.directory ==> !RunsThrough(g, f)
  }

  // Every path above or at one of the partials.
  function Prefixes(q: Path): set<Path> {
    if q == [] then {} else Prefixes(Dir(q)) + {q}
  }

  function PartPrefixes(base: Path, files: seq<File>): set<Path> {
    if files == [] then {}
    else (if files[0].directory then {} else Prefixes(PartOf(base, files[0]))) + PartPrefixes(base, files[1..])
  }

  lemma {:induction false} PrefixesExact(q: Path, p: Path)
    ensures p in Prefixes(q) <==> p <= q && p != []
    decreases |q|
  {
    if q != [] {
      PrefixesExact(Dir(q), p);
      assert p <= q && p != q ==> q[..|p|] == p && Dir(q)[..|p|] == q[..|p|];
      assert p <= Dir(q) ==> Dir(q)[..|p|] == p && Dir(q)[..|p|] == q[..|p|];
    }
  }

  lemma {:induction false} PartPrefixesExact(base: Path, files: seq<File>, p: Path)
    ensures p in PartPrefixes(base, files) <==> p != [] && exists f :: f in files && !f.directory && p <= PartOf(base, f)
  {
    hide PartOf;
    if files != [] {
      PartPrefixesExact(base, files[1..], p);
      PrefixesExact(PartOf(base, files[0]), p);
      assert forall f :: f in files <==> f == files[0] || f in files[1..];
    }
  }

  ghost function Layout(base: Path, files: seq<File>): Tree {
    map q | q in PartPrefixes(base, files) :: if IsPart(base, files, q) then Regular([]) else Folder
  }

  lemma LayoutWorks(base: Path, files: seq<File>)
    requires Unobstructed(files)
    ensures AllPartsThere(base, files, Layout(base, files))
  {
    var tree := Layout(base, files);
    forall q | q in tree ensures q != [] && IsFolder(tree, Dir(q)) {
      LayoutFolder(base, files, q);
    }
    forall f | f in files && !f.directory ensures IsRegular(tree, PartOf(base, f)) {
      PartPrefixesExact(base, files, PartOf(base, f));
      assert IsPart(base, files, PartOf(base, f));
      assert PartOf(base, f) <= PartOf(base, f);
    }
  }

  lemma LayoutFolder(base: Path, files: seq<File>, q: Path)
    requires Unobstructed(files) && q in Layout(base, files)
    ensures q != [] && IsFolder(Layout(base, files), Dir(q))
  {
    hide PartNames, RunsThrough;
    PartPrefixesExact(base, files, q);
    PartPrefixesExact(base, files, Dir(q));
    if Dir(q) != [] {
      var g :| g in files && !g.directory && q <= PartOf(base, g);
      assert Dir(q) <= q;
      assert Dir(q) < PartOf(base, g);
      if IsPart(base, files, Dir(q)) {
        var f :| f in files && !f.directory && Dir(q) == PartOf(base, f);
        RunsThroughIff(base, f, g);
      }
    }
  }

  // All partials of a manifest can be on disk together exactly when no path runs
  // through another one's ".part" name.
  lemma PartsCoexistIff(base: Path, files: seq<File>)
    ensures (exists tree :: AllPartsThere(base, files, tree)) <==> Unobstructed(files)
  {
    if Unobstructed(files) {
      LayoutWorks(base, files);
    }
    forall tree, f, g | AllPartsThere(base, files, tree) && f in files && g in files && !f.directory && !g.directory
      ensures !RunsThrough(g, f)
    {
      hide Rooted, Blocked, PartNames, RunsThrough;
      if RunsThrough(g, f) {
        RunsThroughIff(base, f, g);
        RegularAbove(tree, PartOf(base, f), PartOf(base, g));
        EntryNotBlocked(tree, PartOf(base, g));
      }
    }
  }

  // --- and such a manifest is accepted -----------------------------------------------------

  lemma ShortNameAllowed(name: string)
    requires name != "" && |Stem(name)| < 3 && name[|name| - 1] != '.' && name[|name| - 1] != ' '
    ensures PortableComponent(name)
  {
    assert forall s :: s in RESERVED ==> 3 <= |s|;
    assert |ToUpper(Stem(name))| < 3;
  }

  lemma {:induction false} StemOfPart(name: string)
    ensures Stem(name + ".part") == name
  {
    var full := name + ".part";
    assert full[..|full| - 1] == name + ".par" && (name + ".par")[..|name| + 3] == name + ".pa";
    assert (name + ".pa")[..|name| + 2] == name + ".p" && (name + ".p")[..|name| + 1] == name + ".";
    assert LastDot(name + ".") == |name|;
    assert LastDot(name + ".p") == |name|;
    assert LastDot(name + ".pa") == |name|;
    assert LastDot(name + ".par") == |name|;
    assert full[..|name|] == name;
  }

  lemma ShortStems()
    ensures |Stem("a")| == 1 && |Stem("b")| == 1 && |Stem("a.part")| == 1 && |Stem("b.part")| == 1
  {
    assert LastDot("") == -1 && LastDot("a") == -1 && LastDot("b") == -1 by {
      assert "a"[..0] == "" && "b"[..0] == "";
    }
    StemOfPart("a");
    StemOfPart("b");
    assert "a" + ".part" == "a.part" && "b" + ".part" == "b.part";
  }

  lemma ObstructingPathsValid()
    ensures ValidRelative("a") && ValidRelative("a.part/b")
  {
    hide Stem, ToUpper, ValidRelative, PortableComponent, Split, NoSlash;
    ShortStems();
    ShortNameAllowed("a");
    ShortNameAllowed("b");
    ShortNameAllowed("a.part");
    NamesWithoutSlash();
    SplitPart("a");
    SplitPart("b");
    SplitPart("a.part");
    SplitAppend("a.part", "b");
    assert "a.part" + "/" + "b" == "a.part/b";
    assert Split("a") == ["a"] && Split("a.part/b") == ["a.part", "b"];
    ValidIffPortable("a");
    ValidIffPortable("a.part/b");
  }

  lemma NamesWithoutSlash()
    ensures NoSlash("a") && NoSlash("b") && NoSlash("a.part")
  {
  }

  // Two well-formed files called "a" and "a.part/b" pass every manifest check,
  // and their partials obstruct each other.
  lemma ObstructingManifestAccepted(lib: Manifests.Library, f: File, g: File, chunkSize: int)
    requires 0 < chunkSize <= MAXIMUM_CHUNK_SIZE && lib.isUuid(f.id) && lib.isUuid(g.id)
    requires f.path == "a" && g.path == "a.part/b" && !f.directory && !g.directory
    requires lib.lower(f.path) != lib.lower(g.path)
    requires ValidSHA256(f.checksum) && ValidSHA256(g.checksum)
    requires 0 <= f.size && f.chunkSize == chunkSize && f.chunkCount == ChunkCount(f.size, chunkSize)
    requires 0 <= g.size && g.chunkSize == chunkSize && g.chunkCount == ChunkCount(g.size, chunkSize)
    ensures Manifests.ManifestValid(lib, [f, g], chunkSize, Total64([f, g])) && RunsThrough(g, f) && !Unobstructed([f, g])
  {
    hide ValidRelative, ValidSHA256, Total64;
    ObstructingPathsValid();
    assert forall h :: h in [f, g] ==> h == f || h == g;
    assert f in [f, g] && g in [f, g];
  }
}
