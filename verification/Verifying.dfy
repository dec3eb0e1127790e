// The verification loop of Finalize, over trees: what it may create on its way, and
// when nothing but the disk can make it fail.
module Verifying {
  import opened Results
  import opened Transfers
  import opened Chunking
  import opened Paths
  import opened Receiving
  import opened Disk
  import opened Committing
  import opened Staging
  import Obstruction

  // Verification only adds directories and empty partials.
  ghost predicate OnlyCreatesParts(base: Path, files: seq<File>, before: Tree, after: Tree) {
    && (forall q :: q in before ==> q in after && after[q] == before[q])
    && (forall q :: q in after && q !in before ==>
          after[q].Folder? || (IsPart(base, files, q) && after[q] == Regular([])))
  }

  // Every chunk is counted and every checksum right; partials are there, or can be
  // created where the file is empty.
  ghost predicate Verifiable(base: Path, files: seq<File>, complete: set<Part>, tree: Tree, hash: Bytes -> string) {
    && (forall f :: f in files && !f.directory ==> FileVerifiable(base, f, complete, tree, hash))
    && (forall f, g :: f in files && g in files && !f.directory && !g.directory ==>
          !(PartOf(base, f) < PartOf(base, g)))
  }

  ghost predicate FileVerifiable(base: Path, f: File, complete: set<Part>, tree: Tree, hash: Bytes -> string) {
    && |CompleteIndexes(complete, f.id)| == f.chunkCount
    && hash(ContentsAt(tree, PartOf(base, f))) == f.checksum
    && if f.size == 0 then Writable(tree, PartOf(base, f)) else IsRegular(tree, PartOf(base, f))
  }

  // The partials have the promised digests; one that is missing counts as empty.
  ghost predicate Hashed(base: Path, files: seq<File>, tree: Tree, hash: Bytes -> string) {
    forall f :: f in files && !f.directory ==> hash(ContentsAt(tree, PartOf(base, f))) == f.checksum
  }

  lemma VerifiedHashed(base: Path, files: seq<File>, complete: set<Part>, before: Tree, after: Tree, hash: Bytes -> string)
    requires OnlyCreatesParts(base, files, before, after) && AllVerified(base, files, complete, after, hash)
    ensures Hashed(base, files, before, hash)
    ensures forall f :: f in files && !f.directory ==> |CompleteIndexes(complete, f.id)| == f.chunkCount
  {
    hide CompleteIndexes, PartOf;
    forall f | f in files && !f.directory
      ensures hash(ContentsAt(before, PartOf(base, f))) == f.checksum
      ensures |CompleteIndexes(complete, f.id)| == f.chunkCount
    {
      assert FileVerified(f, complete, Some(after[PartOf(base, f)].contents), hash);
    }
  }

  lemma WrongIsNotHashed(base: Path, files: seq<File>, before: Tree, after: Tree, hash: Bytes -> string)
    requires OnlyCreatesParts(base, files, before, after)
    requires exists f ::
      && f in files && !f.directory
      && IsRegular(after, PartOf(base, f)) && hash(after[PartOf(base, f)].contents) != f.checksum
    ensures !Hashed(base, files, before, hash)
  {
    hide PartOf;
    var f :| f in files && !f.directory && IsRegular(after, PartOf(base, f))
      && hash(after[PartOf(base, f)].contents) != f.checksum;
    assert hash(ContentsAt(before, PartOf(base, f))) != f.checksum;
  }

  lemma MissingIsIncomplete(files: seq<File>, complete: set<Part>)
    requires WellFormedFiles(files) && complete <= AllParts(files)
    requires exists f :: f in files && !f.directory && |CompleteIndexes(complete, f.id)| != f.chunkCount
    ensures complete != AllParts(files)
  {
    hide CompleteIndexes, AllParts;
    var f :| f in files && !f.directory && |CompleteIndexes(complete, f.id)| != f.chunkCount;
    assert WellFormedFile(f);
    FittingCountCovers(f.size, f.chunkSize);
    CountImpliesComplete(files, complete, f);
    if complete == AllParts(files) {
      forall p | p in FileParts(f, f.chunkCount) ensures p in complete {
        InAllParts(files, p);
      }
    }
  }

  ghost predicate PartsThere(base: Path, files: seq<File>, tree: Tree) {
    forall f :: f in files && !f.directory ==> IsRegular(tree, PartOf(base, f)) && IsFolder(tree, Dir(PartOf(base, f)))
  }

  // What creating one empty partial does.
  ghost predicate CreatedAt(before: Tree, after: Tree, q: Path) {
    && OnlyTouches(before, after, if q in before then {} else {q})
    && (forall x :: x in after && x !in before && x != q ==> x <= Dir(q))
    && (q in after && q !in before ==> after[q] == Regular([]))
  }

  lemma CreationKeepsWritable(before: Tree, after: Tree, q: Path, p: Path)
    requires CreatedAt(before, after, q) && Writable(before, p) && !(p < q) && !(q < p) && q != []
    ensures Writable(after, p)
  {
    assert Dir(q) < q;
    forall k | 0 < k <= |Dir(p)| ensures !IsRegular(after, Dir(p)[..k]) {
      assert Dir(p)[..k] < p && !IsRegular(before, Dir(p)[..k]);
    }
  }

  lemma CreationKeepsFile(before: Tree, after: Tree, q: Path, base: Path, f: File, complete: set<Part>,
      hash: Bytes -> string)
    requires CreatedAt(before, after, q) && q != [] && FileVerifiable(base, f, complete, before, hash)
    requires !(PartOf(base, f) < q) && !(q < PartOf(base, f))
    ensures FileVerifiable(base, f, complete, after, hash)
  {
    hide CompleteIndexes, Writable, PartOf;
    if f.size == 0 {
      CreationKeepsWritable(before, after, q, PartOf(base, f));
    }
  }

  // Creating the empty partial of one file leaves the others verifiable.
  lemma CreationKeepsVerifiable(
      before: Tree, after: Tree, base: Path, files: seq<File>, g: File, complete: set<Part>, hash: Bytes -> string)
    requires CreatedAt(before, after, PartOf(base, g)) && g in files && !g.directory && PartOf(base, g) != []
    requires Verifiable(base, files, complete, before, hash)
    ensures Verifiable(base, files, complete, after, hash)
  {
    hide CreatedAt, FileVerifiable, PartOf;
    forall f | f in files && !f.directory ensures FileVerifiable(base, f, complete, after, hash) {
      CreationKeepsFile(before, after, PartOf(base, g), base, f, complete, hash);
    }
  }

  lemma VerifiableFile(base: Path, files: seq<File>, complete: set<Part>, tree: Tree, hash: Bytes -> string, f: File)
    requires Verifiable(base, files, complete, tree, hash) && f in files && !f.directory
    ensures FileVerifiable(base, f, complete, tree, hash)
  {
  }

  // A tree on which everything is verified is verifiable and needs no new partial.
  lemma VerifiedIsVerifiable(base: Path, files: seq<File>, complete: set<Part>, tree: Tree, hash: Bytes -> string)
    requires Rooted(tree) && AllVerified(base, files, complete, tree, hash)
    ensures Verifiable(base, files, complete, tree, hash) && PartsThere(base, files, tree)
  {
    hide Rooted, Blocked, CompleteIndexes, PartOf;
    forall f | f in files && !f.directory
      ensures FileVerifiable(base, f, complete, tree, hash) && IsFolder(tree, Dir(PartOf(base, f)))
    {
      assert FileVerified(f, complete, Some(tree[PartOf(base, f)].contents), hash);
      Obstruction.EntryNotBlocked(tree, PartOf(base, f));
    }
    forall f, g | f in files && g in files && !f.directory && !g.directory ensures !(PartOf(base, f) < PartOf(base, g)) {
      PartNotEmpty(base, f);
      if PartOf(base, f) < PartOf(base, g) {
        Obstruction.AncestorsAreFolders(tree, PartOf(base, f), PartOf(base, g));
      }
    }
  }

  lemma PartNotEmpty(base: Path, f: File)
    ensures PartOf(base, f) != []
  {
    assert |PartNames(f.path)| > 0;
  }
}
