// The file system as a map from paths to entries, changed in place, with the
// operations the receiver uses: creating directories, choosing a target under a
// conflict policy, and moving a verified partial file there.
module Disk {
  import opened Results
  import opened Transfers
  import opened Paths
  import opened Receiving

  datatype Entry = Regular(contents: Bytes) | Folder

  type Tree = map<Path, Entry>

  predicate IsRegular(tree: Tree, p: Path) {
    p in tree && tree[p].Regular?
  }

  predicate IsFolder(tree: Tree, p: Path) {
    p == [] || (p in tree && tree[p].Folder?)
  }

  function Dir(p: Path): Path {
    if p == [] then [] else p[..|p| - 1]
  }

  // Everything that was there is still there and unchanged, except at the given
  // paths; whatever is new is a directory or one of those paths.
  ghost predicate OnlyTouches(before: Tree, after: Tree, touched: set<Path>) {
    && (forall q :: q in before && q !in touched ==> q in after && after[q] == before[q])
    && (forall q :: q in after && q !in before && q !in touched ==> after[q].Folder?)
  }

  // --- names tried by the rename policy --------------------------------------

  function Digit(d: int): char
    requires 0 <= d < 10
  {
    '0' + (d as char)
  }

  function Decimal(n: nat): string {
    if n < 10 then [Digit(n)] else Decimal(n / 10) + [Digit(n % 10)]
  }

  function Numbered(stem: string, number: string, ext: string): string {
    stem + " (" + number + ")" + ext
  }

  const MAX_CANDIDATES := 10000

  // "name (i).ext" in the same directory.
  function Candidate(p: Path, i: nat): Path
    requires p != []
  {
    var last := p[|p| - 1];
    Dir(p) + [Numbered(Stem(last), Decimal(i), Ext(last))]
  }

  // The number a string of decimal digits denotes.
  function Number(s: string): nat
    requires forall i :: 0 <= i < |s| ==> '0' <= s[i] <= '9'
  {
    if s == "" then 0 else 10 * Number(s[..|s| - 1]) + (s[|s| - 1] - '0') as nat
  }

  lemma {:induction false} DecimalDenotes(n: nat)
    ensures forall i :: 0 <= i < |Decimal(n)| ==> '0' <= Decimal(n)[i] <= '9'
    ensures Number(Decimal(n)) == n && Decimal(n) != "" && (1 < |Decimal(n)| ==> Decimal(n)[0] != '0')
  {
    if n < 10 {
      assert Decimal(n)[..0] == "";
    } else {
      DecimalDenotes(n / 10);
      var s := Decimal(n);
      assert s[..|s| - 1] == Decimal(n / 10) && s[|s| - 1] == Digit(n % 10);
    }
  }

  lemma NumberedApart(stem: string, number: string, other: string, ext: string)
    ensures |Numbered(stem, number, ext)| == |stem| + |number| + |ext| + 3
    ensures number != other ==> Numbered(stem, number, ext) != Numbered(stem, other, ext)
  {
    var a, b := Numbered(stem, number, ext), Numbered(stem, other, ext);
    assert a[|stem| + 2..|stem| + 2 + |number|] == number;
    assert b[|stem| + 2..|stem| + 2 + |other|] == other;
  }

  // The candidates are all different, and differ from the path itself: the rename
  // policy gives up only after 9999 other names, each the stem, the number and the
  // extension.
  lemma CandidatesDiffer(p: Path, i: nat, j: nat)
    requires p != []
    ensures Candidate(p, i) != p && Dir(Candidate(p, i)) == Dir(p) && |Candidate(p, i)| == |p|
    ensures Candidate(p, i)[|p| - 1] == Stem(p[|p| - 1]) + " (" + Decimal(i) + ")" + Ext(p[|p| - 1])
    ensures i != j ==> Candidate(p, i) != Candidate(p, j)
  {
    var last := p[|p| - 1];
    NameSplits(last);
    DecimalDenotes(i);
    DecimalDenotes(j);
    NumberedApart(Stem(last), Decimal(i), Decimal(j), Ext(last));
    hide Stem, Ext, Decimal, Numbered;
    assert |last| == |Stem(last)| + |Ext(last)|;
    assert Candidate(p, i)[|p| - 1] == Numbered(Stem(last), Decimal(i), Ext(last));
    assert Candidate(p, j)[|p| - 1] == Numbered(Stem(last), Decimal(j), Ext(last));
  }

  // A regular file stands where a directory of the path is needed (ENOTDIR).
  predicate Blocked(tree: Tree, dir: Path) {
    exists k :: 0 < k <= |dir| && IsRegular(tree, dir[..k])
  }

  predicate Obstructed(tree: Tree, p: Path) {
    Blocked(tree, Dir(p))
  }

  // Everything in the tree lies in a directory.
  ghost predicate Rooted(tree: Tree) {
    forall q :: q in tree ==> q != [] && IsFolder(tree, Dir(q))
  }

  lemma {:induction false} FolderNotBlocked(tree: Tree, dir: Path)
    requires Rooted(tree) && IsFolder(tree, dir)
    ensures !Blocked(tree, dir)
    decreases |dir|
  {
    if dir != [] {
      FolderNotBlocked(tree, Dir(dir));
      BlockedAbove(tree, dir);
    }
  }

  lemma BlockedAbove(tree: Tree, dir: Path)
    requires dir != []
    ensures Blocked(tree, dir) <==> IsRegular(tree, dir) || Blocked(tree, Dir(dir))
  {
    forall k | 0 < k < |dir| ensures dir[..k] == Dir(dir)[..k] {}
    assert dir[..|dir|] == dir;
    if Blocked(tree, Dir(dir)) {
      var k :| 0 < k <= |Dir(dir)| && IsRegular(tree, Dir(dir)[..k]);
      assert dir[..k] == Dir(dir)[..k];
    }
  }

  // On a reliable disk no operation fails by itself: every failure has a cause
  // in the tree. On any other one each may fail at any point.
  class FileSystem {
    const reliable: bool
    var tree: Tree

    constructor (initial: Tree, reliable: bool)
      ensures tree == initial && this.reliable == reliable
    {
      tree := initial;
      this.reliable := reliable;
    }

    // os.MkdirAll
    method MkdirAll(dir: Path) returns (ok: bool)
      modifies this`tree
      ensures OnlyTouches(old(tree), tree, {})
      ensures forall q :: q in tree && q !in old(tree) ==> q <= dir
      ensures ok ==> IsFolder(tree, dir)
      ensures IsFolder(old(tree), dir) ==> ok && tree == old(tree)
      ensures reliable && !Blocked(old(tree), dir) ==> ok
      ensures Rooted(old(tree)) ==> Rooted(tree) && (ok ==> !Blocked(old(tree), dir))
      decreases |dir|
    {
      if dir == [] {
        return true;
      }
      BlockedAbove(tree, dir);
      if dir in tree {
        if tree[dir].Folder? && Rooted(tree) {
          FolderNotBlocked(tree, dir);
        }
        return tree[dir].Folder?;
      }
      var failed: bool := *;
      if failed && !reliable {
        return false;
      }
      ok := MkdirAll(Dir(dir));
      if ok {
        tree := tree[dir := Folder];
      }
    }

    // The part of a chunk write after its directory exists.
    method WriteOpened(p: Path, offset: nat, data: Bytes) returns (ok: bool)
      modifies this`tree
      ensures tree == old(tree) || (!IsEntryFolder(old(tree), p) && IsRegular(tree, p) && tree == old(tree)[p := tree[p]])
      ensures ok ==>
        !IsEntryFolder(old(tree), p) && IsRegular(tree, p)
        && tree[p].contents == WriteAt(ContentsAt(old(tree), p), offset, data)
      ensures TornWrite(ContentsAt(old(tree), p), offset, data, ContentsAt(tree, p))
      ensures reliable && !IsEntryFolder(old(tree), p) ==> ok
    {
      hide TornWrite, WriteAt;
      ghost var was := ContentsAt(tree, p);
      TornNothing(was, offset, data);
      WriteAtIsTorn(was, offset, data);
      if p in tree && tree[p].Folder? {
        return false;
      }
      var failed: bool := *;
      if failed && !reliable {
        return false;
      }
      if p !in tree {
        tree := tree[p := Regular([])];
      }
      var written: int := *;
      if 0 <= written < |data| && !reliable {
        TornPrefix(was, offset, data, written);
        tree := tree[p := Regular(WriteAt(tree[p].contents, offset, data[..written]))];
        return false;
      }
      tree := tree[p := Regular(WriteAt(tree[p].contents, offset, data))];
      return true;
    }

    // OpenFile with O_CREATE for writing, then WriteAt and Sync. It can succeed
    // only where no regular file stands for one of its directories and it is not
    // a directory itself, and on a reliable disk it then does; a failure may
    // leave any part of the data behind.
    method WriteChunk(p: Path, offset: nat, data: Bytes) returns (ok: bool)
      requires p != []
      modifies this`tree
      ensures OnlyTouches(old(tree), tree, {p})
      ensures ok ==> IsRegular(tree, p) && tree[p].contents == WriteAt(ContentsAt(old(tree), p), offset, data)
      ensures TornWrite(ContentsAt(old(tree), p), offset, data, ContentsAt(tree, p))
      ensures IsRegular(old(tree), p) ==> IsRegular(tree, p)
      ensures reliable && Writable(old(tree), p) ==> ok
      ensures Rooted(old(tree)) ==> Rooted(tree) && (ok ==> Writable(old(tree), p))
    {
      hide TornWrite, WriteAt, Blocked, Rooted, OnlyTouches;
      TornNothing(ContentsAt(tree, p), offset, data);
      ok := MkdirAll(Dir(p));
      ghost var made := tree;
      MadeBelow(old(tree), made, p);
      if ok {
        ok := WriteOpened(p, offset, data);
      }
      PutTouches(old(tree), made, tree, p);
      if Rooted(old(tree)) && tree != made {
        PutRooted(made, p, tree[p]);
      }
    }

    // OpenFile with only O_CREATE: an existing regular file is kept.
    method CreateEmpty(p: Path) returns (ok: bool)
      requires p != []
      modifies this`tree
      ensures OnlyTouches(old(tree), tree, if p in old(tree) then {} else {p})
      ensures ok ==> IsRegular(tree, p)
      ensures p !in old(tree) && p in tree ==> tree[p] == Regular([])
      ensures forall q :: q in tree && q !in old(tree) && q != p ==> q <= Dir(p)
      ensures reliable && Writable(old(tree), p) ==> ok
      ensures IsRegular(old(tree), p) && IsFolder(old(tree), Dir(p)) ==> tree == old(tree)
    {
      ok := MkdirAll(Dir(p));
      if !ok {
        return;
      }
      if p in tree {
        return tree[p].Regular?;
      }
      var failed: bool := *;
      if failed && !reliable {
        return false;
      }
      tree := tree[p := Regular([])];
    }

    // resolveConflict: the path itself when it is free; otherwise what the
    // policy says.
    method ResolveConflict(p: Path, policy: Policy) returns (r: Result<Path, Failure>)
      requires p != []
      ensures r.Ok? ==> Dir(r.value) == Dir(p) && r.value != []
      ensures r.Ok? && r.value in tree ==> policy.Overwrite? && r.value == p
      ensures r.Ok? && !policy.Rename? ==> r.value == p
      ensures !Obstructed(tree, p) && (p !in tree || policy.Overwrite?) ==> r == Ok(p)
      ensures p in tree && policy.Prompt? && !Obstructed(tree, p) ==> r == Err(ConflictResolution)
      ensures r.Err? && r != Err(StorageFailure) ==> r == Err(ConflictResolution) && policy.Prompt? && p in tree
      ensures Obstructed(tree, p) ==> r == Err(StorageFailure)
      ensures p in tree && policy.Rename? && r.Ok? ==>
        exists i :: 0 < i < MAX_CANDIDATES && r.value == Candidate(p, i)
          && forall j :: 0 < j < i ==> Candidate(p, j) in tree
      ensures r == Err(StorageFailure) && policy.Rename? && p in tree && !Obstructed(tree, p) ==>
        forall j :: 0 < j < MAX_CANDIDATES ==> Candidate(p, j) in tree
    {
      hide Blocked;
      if Obstructed(tree, p) {
        return Err(StorageFailure);
      }
      if p !in tree {
        return Ok(p);
      }
      match policy
      case Overwrite => return Ok(p);
      case Prompt => return Err(ConflictResolution);
      case Rename =>
        var i := 1;
        while i < MAX_CANDIDATES
          invariant 1 <= i <= MAX_CANDIDATES
          invariant forall j :: 0 < j < i ==> Candidate(p, j) in tree
        {
          var candidate := Candidate(p, i);
          if candidate !in tree {
            assert Dir(candidate) == Dir(p);
            return Ok(candidate);
          }
          i := i + 1;
        }
        return Err(StorageFailure);
    }

    // The part of commitFile after the target's directory exists.
    method MoveOpened(source: Path, target: Path, overwrite: bool) returns (ok: bool)
      requires !overwrite ==> target !in tree
      modifies this`tree
      ensures SameOutside(old(tree), tree, {source, target})
      ensures ok ==>
        && source != target && IsRegular(old(tree), source) && source !in tree
        && target in tree && tree[target] == old(tree)[source] && !IsEntryFolder(old(tree), target)
      ensures !ok && source in old(tree) && source != target ==> source in tree && tree[source] == old(tree)[source]
      ensures source !in old(tree) && source != target ==> source !in tree
      ensures reliable && IsRegular(old(tree), source) && source != target && !IsEntryFolder(old(tree), target) ==> ok
    {
      if overwrite && target in tree {
        if tree[target].Folder? {
          return false;
        }
        var refused: bool := *;
        if refused && !reliable {
          return false;
        }
        tree := tree - {target};
      }
      var renamed: bool := *;
      if (renamed || reliable) && IsRegular(tree, source) {
        tree := (tree - {source})[target := tree[source]];
        return true;
      }
      if !IsRegular(tree, source) {
        return false;
      }
      var created: bool := *;
      if !created || target == source {
        return false;
      }
      ok := CopyAndRemove(source, target);
    }

    method CopyAndRemove(source: Path, target: Path) returns (ok: bool)
      requires source != target && IsRegular(tree, source)
      modifies this`tree
      ensures SameOutside(old(tree), tree, {source, target})
      ensures ok ==> source !in tree && target in tree && tree[target] == old(tree)[source]
      ensures !ok ==> source in tree && tree[source] == old(tree)[source]
    {
      tree := tree[target := Regular([])];
      var copied: bool := *;
      if !copied {
        var some: int := *;
        if 0 <= some <= |tree[source].contents| {
          tree := tree[target := Regular(tree[source].contents[..some])];
        }
        return false;
      }
      tree := tree[target := tree[source]];
      var removed: bool := *;
      if !removed {
        return false;
      }
      tree := tree - {source};
      return true;
    }

    // commitFile: rename, or copy and delete across file systems.
    method CommitFile(source: Path, target: Path, overwrite: bool) returns (ok: bool)
      requires target != []
      requires !overwrite ==> target !in tree
      modifies this`tree
      ensures OnlyTouches(old(tree), tree, {source, target})
      ensures forall q :: q in tree && q !in old(tree) && q != target ==> q <= Dir(target) && tree[q].Folder?
      ensures ok ==>
        && source != target && IsRegular(old(tree), source)
        && source !in tree
        && target in tree && tree[target] == old(tree)[source]
        && (target in old(tree) ==> overwrite && old(tree)[target].Regular?)
      ensures !ok && source in old(tree) && source != target ==> source in tree && tree[source] == old(tree)[source]
      ensures reliable && IsRegular(old(tree), source) && source != target && Writable(old(tree), target) ==> ok
    {
      hide Blocked, Rooted;
      ok := MkdirAll(Dir(target));
      ghost var made := tree;
      MadeBelow(old(tree), made, target);
      if ok {
        ok := MoveOpened(source, target, overwrite);
        MovedTouches(old(tree), made, tree, source, target);
      }
    }
  }

  // A chunk or file can be put there: its directories exist or can be made, and
  // it is not a directory.
  predicate Writable(tree: Tree, p: Path) {
    !Obstructed(tree, p) && !IsEntryFolder(tree, p)
  }

  predicate IsEntryFolder(tree: Tree, p: Path) {
    p in tree && tree[p].Folder?
  }

  ghost predicate SameOutside(before: Tree, after: Tree, touched: set<Path>) {
    forall q :: q !in touched ==> (q in before <==> q in after) && (q in before ==> after[q] == before[q])
  }

  lemma MadeBelow(before: Tree, made: Tree, p: Path)
    requires p != [] && OnlyTouches(before, made, {}) && forall q :: q in made && q !in before ==> q <= Dir(p)
    ensures p in made <==> p in before
    ensures p in before ==> made[p] == before[p]
    ensures ContentsAt(made, p) == ContentsAt(before, p)
  {
    NotLonger(p);
  }

  lemma PutTouches(before: Tree, made: Tree, after: Tree, p: Path)
    requires OnlyTouches(before, made, {})
    requires after == made || (p in after && after == made[p := after[p]])
    ensures OnlyTouches(before, after, {p})
  {
  }

  lemma PutRooted(tree: Tree, p: Path, e: Entry)
    requires Rooted(tree) && p != [] && IsFolder(tree, Dir(p)) && !IsEntryFolder(tree, p)
    ensures Rooted(tree[p := e])
  {
    forall q | q in tree[p := e] ensures q != [] && IsFolder(tree[p := e], Dir(q)) {
      if q != p {
        assert IsFolder(tree, Dir(q));
      }
    }
  }

  lemma MovedTouches(before: Tree, made: Tree, after: Tree, source: Path, target: Path)
    requires OnlyTouches(before, made, {}) && SameOutside(made, after, {source, target})
    requires source !in made && source != target ==> source !in after
    ensures OnlyTouches(before, after, {source, target})
    ensures forall q :: q in after && q !in before && q != target ==> q in made && (after[q] == made[q] || q == source)
  {
  }

  function ContentsAt(tree: Tree, p: Path): Bytes {
    if IsRegular(tree, p) then tree[p].contents else []
  }

  lemma NotLonger(p: Path)
    requires p != []
    ensures !(p <= Dir(p))
  {
  }

  lemma TornNothing(contents: Bytes, offset: nat, data: Bytes)
    ensures TornWrite(contents, offset, data, contents)
  {
  }

  lemma TornPrefix(contents: Bytes, offset: nat, data: Bytes, n: nat)
    requires n < |data|
    ensures TornWrite(contents, offset, data, WriteAt(contents, offset, data[..n]))
  {
    assert forall i :: 0 <= i < n ==> data[..n][i] == data[i];
  }
}
