// buildManifest, which turns a selection of file trees into a manifest, and the
// manifest checks of ReceiveOffer, which every such manifest passes.
module Manifests {
  import opened Results
  import opened Transfers
  import opened Chunking
  import opened Paths
  import opened Sorting
  import Store

  // A selected file system object; children are in directory order.
  datatype Node =
    | Dir(name: string, children: seq<Node>)
    | Regular(name: string, contents: Bytes)
    | Symlink(name: string)
    | Special(name: string)

  // The library functions the code calls: SHA-256 over bytes, fresh UUIDs and
  // their parser, and Unicode lower-casing.
  datatype Library = Library(
    sha256: Bytes -> Bytes, newId: nat -> string, isUuid: string -> bool, lower: string -> string)

  ghost predicate Sane(lib: Library) {
    && (forall b :: |lib.sha256(b)| == 32)
    && (forall n :: lib.isUuid(lib.newId(n)))
    && (forall m, n :: lib.newId(m) == lib.newId(n) ==> m == n)
  }

  // --- hexadecimal checksums --------------------------------------------------

  function HexDigit(d: int): char
    requires 0 <= d < 16
  {
    if d < 10 then '0' + (d as char) else 'a' + ((d - 10) as char)
  }

  function Hex(b: Bytes): string {
    if b == [] then "" else [HexDigit(b[0] as int / 16), HexDigit(b[0] as int % 16)] + Hex(b[1..])
  }

  lemma {:induction false} HexShape(b: Bytes)
    ensures |Hex(b)| == 2 * |b| && forall i :: 0 <= i < |Hex(b)| ==> IsHexDigit(Hex(b)[i])
  {
    if b != [] {
      HexShape(b[1..]);
    }
  }

  function HexValue(c: char): int {
    if '0' <= c <= '9' then (c - '0') as int else if 'a' <= c <= 'f' then (c - 'a') as int + 10 else 0
  }

  function Unhex(s: string): seq<int> {
    if |s| < 2 then [] else [16 * HexValue(s[0]) + HexValue(s[1])] + Unhex(s[2..])
  }

  // The digits give the bytes back: equal checksums are equal digests.
  lemma {:induction false} HexRoundTrip(b: Bytes)
    ensures |Unhex(Hex(b))| == |b| && forall i :: 0 <= i < |b| ==> Unhex(Hex(b))[i] == b[i] as int
  {
    if b != [] {
      HexRoundTrip(b[1..]);
      assert Hex(b)[2..] == Hex(b[1..]);
    }
  }

  // --- the producer ---------------------------------------------------------------

  datatype Visit = Visit(relative: string, node: Node)

  function Below(prefix: string, name: string): string {
    if prefix == "" then name else prefix + "/" + name
  }

  // WalkDir: the node, then its children in order, with slash-separated paths
  // relative to the selected object's parent.
  function Walk(prefix: string, node: Node): seq<Visit>
    decreases node
  {
    [Visit(Below(prefix, node.name), node)]
    + if node.Dir? then WalkAll(Below(prefix, node.name), node.children) else []
  }

  function WalkAll(prefix: string, nodes: seq<Node>): seq<Visit>
    decreases nodes
  {
    if nodes == [] then [] else Walk(prefix, nodes[0]) + WalkAll(prefix, nodes[1..])
  }

  function Visits(roots: seq<Node>): seq<Visit> {
    if roots == [] then [] else Visits(roots[..|roots| - 1]) + Walk("", roots[|roots| - 1])
  }

  // The object that the names lead to from a selected one, itself included.
  ghost predicate LeadsTo(node: Node, names: seq<string>, target: Node)
    decreases |names|
  {
    names != [] && names[0] == node.name
    && (if |names| == 1 then node == target
        else node.Dir? && exists child :: child in node.children && LeadsTo(child, names[1..], target))
  }

  function Along(prefix: string, names: seq<string>): string
    decreases |names|
  {
    if names == [] then prefix else Along(Below(prefix, names[0]), names[1..])
  }

  lemma {:induction false} WalkAllMembers(prefix: string, nodes: seq<Node>, v: Visit)
    ensures v in WalkAll(prefix, nodes) <==> exists node :: node in nodes && v in Walk(prefix, node)
  {
    if nodes != [] {
      WalkAllMembers(prefix, nodes[1..], v);
      assert v in WalkAll(prefix, nodes) <==> v in Walk(prefix, nodes[0]) || v in WalkAll(prefix, nodes[1..]);
      assert forall node :: node in nodes <==> node == nodes[0] || node in nodes[1..];
    }
  }

  // The walk visits exactly the objects that names lead to, under those names.
  lemma {:induction false} VisitedIff(prefix: string, node: Node, v: Visit)
    ensures v in Walk(prefix, node) <==>
      exists names :: LeadsTo(node, names, v.node) && v.relative == Along(prefix, names)
    decreases node
  {
    var below := Below(prefix, node.name);
    if v == Visit(below, node) {
      assert LeadsTo(node, [node.name], node) && Along(prefix, [node.name]) == Along(below, [node.name][1..]);
    } else if node.Dir? {
      WalkAllMembers(below, node.children, v);
      forall child | child in node.children {
        VisitedIff(below, child, v);
      }
      if child :| child in node.children && v in Walk(below, child) {
        var names :| LeadsTo(child, names, v.node) && v.relative == Along(below, names);
        LongerTrail(prefix, node, child, names, v.node);
      }
      if names :| LeadsTo(node, names, v.node) && v.relative == Along(prefix, names) {
        ShorterTrail(prefix, node, names, v);
      }
    } else if names :| LeadsTo(node, names, v.node) && v.relative == Along(prefix, names) {
      ShorterTrail(prefix, node, names, v);
    }
  }

  lemma LongerTrail(prefix: string, node: Node, child: Node, names: seq<string>, target: Node)
    requires node.Dir? && child in node.children && LeadsTo(child, names, target)
    ensures LeadsTo(node, [node.name] + names, target)
    ensures Along(prefix, [node.name] + names) == Along(Below(prefix, node.name), names)
  {
    assert ([node.name] + names)[1..] == names;
  }

  lemma ShorterTrail(prefix: string, node: Node, names: seq<string>, v: Visit)
    requires LeadsTo(node, names, v.node) && v.relative == Along(prefix, names)
    requires v != Visit(Below(prefix, node.name), node)
    ensures node.Dir? && v.relative == Along(Below(prefix, node.name), names[1..])
    ensures exists child :: child in node.children && LeadsTo(child, names[1..], v.node)
  {
  }

  lemma {:induction false} VisitsMembers(roots: seq<Node>, v: Visit)
    ensures v in Visits(roots) <==> exists root :: root in roots && v in Walk("", root)
  {
    if roots != [] {
      var front, last := roots[..|roots| - 1], roots[|roots| - 1];
      VisitsMembers(front, v);
      assert roots == front + [last];
      OneMoreRoot(front, last, v);
      hide Visits, Walk;
      if root :| root in roots && v in Walk("", root) {
        assert root in front || root == last;
      }
      if root :| root in front && v in Walk("", root) {
        assert root in roots;
      }
      assert last in roots;
    }
  }

  lemma OneMoreRoot(front: seq<Node>, last: Node, v: Visit)
    ensures v in Visits(front + [last]) <==> v in Visits(front) || v in Walk("", last)
  {
    hide Walk;
    assert (front + [last])[..|front|] == front;
  }

  // So a selection is walked in full: its visits are the objects that names lead to
  // from one of the selected ones.
  lemma SelectionWalked(roots: seq<Node>, v: Visit)
    ensures v in Visits(roots) <==>
      exists root, names :: root in roots && LeadsTo(root, names, v.node) && v.relative == Along("", names)
  {
    hide Visits, Walk, LeadsTo, Along;
    VisitsMembers(roots, v);
    forall root | root in roots
      ensures v in Walk("", root) <==> exists names :: LeadsTo(root, names, v.node) && v.relative == Along("", names)
    {
      VisitedIff("", root, v);
    }
    if root :| root in roots && v in Walk("", root) {
      var names :| LeadsTo(root, names, v.node) && v.relative == Along("", names);
      assert root in roots && LeadsTo(root, names, v.node);
    }
  }

  // The components of a visited path are its directory's and its own name.
  lemma BelowSplits(prefix: string, name: string)
    requires NoSlash(name) && name != ""
    ensures Split(Below(prefix, name)) == (if prefix == "" then [] else Split(prefix)) + [name]
  {
    SplitPart(name);
    SplitAppend(prefix, name);
    assert prefix == "" ==> Below(prefix, name) == name;
  }

  predicate Proper(name: string) {
    name != "" && NoSlash(name)
  }

  lemma {:induction false} AlongExtends(prefix: string, names: seq<string>)
    requires prefix != "" && forall i :: 0 <= i < |names| ==> Proper(names[i])
    ensures Split(Along(prefix, names)) == Split(prefix) + names
    decreases |names|
  {
    if names == [] {
      assert Split(prefix) + names == Split(prefix);
    } else {
      var below, rest := Below(prefix, names[0]), names[1..];
      assert Proper(names[0]);
      BelowSplits(prefix, names[0]);
      assert Along(prefix, names) == Along(below, rest);
      hide Split, Along, Below;
      AlongExtends(below, rest);
      assert Split(prefix) + [names[0]] + rest == Split(prefix) + names;
    }
  }

  // And those names are the components of its path.
  lemma AlongSplits(names: seq<string>)
    requires names != [] && forall i :: 0 <= i < |names| ==> Proper(names[i])
    ensures Split(Along("", names)) == names
  {
    assert Proper(names[0]) && Below("", names[0]) == names[0];
    SplitPart(names[0]);
    AlongExtends(names[0], names[1..]);
  }

  predicate Transferable(v: Visit) {
    ValidRelative(v.relative) && (v.node.Dir? || v.node.Regular?)
  }

  // What the walk must satisfy for the selection to be accepted.
  predicate Selectable(lib: Library, visits: seq<Visit>) {
    && (forall i :: 0 <= i < |visits| ==> Transferable(visits[i]))
    && (forall i, j :: 0 <= i < j < |visits| ==> lib.lower(visits[i].relative) != lib.lower(visits[j].relative))
  }

  function Item(lib: Library, v: Visit, n: nat, chunkSize: int): File
    requires 0 < chunkSize
  {
    if v.node.Regular? then
      File(lib.newId(n), v.relative, false, |v.node.contents|, Hex(lib.sha256(v.node.contents)), chunkSize,
        ChunkCount(|v.node.contents|, chunkSize), None)
    else
      File(lib.newId(n), v.relative, true, 0, "", chunkSize, 0, None)
  }

  function Items(lib: Library, visits: seq<Visit>, chunkSize: int): seq<File>
    requires 0 < chunkSize
  {
    seq(|visits|, i requires 0 <= i < |visits| => Item(lib, visits[i], i, chunkSize))
  }

  function ByPath(): (File, File) -> bool {
    (a: File, b: File) => !Less(b.path, a.path)
  }

  // The running int64 total over regular files.
  function RegularTotal(files: seq<File>): int {
    if files == [] then 0
    else
      var rest := RegularTotal(files[..|files| - 1]);
      var last := files[|files| - 1];
      if last.directory then rest else Wrap64(rest + last.size)
  }

  // The WalkDir callback over one selected object.
  method CollectRoot(lib: Library, root: Node, chunkSize: int, files0: seq<File>, seen0: set<string>,
      ghost done: seq<Visit>)
    returns (ok: bool, files: seq<File>, seen: set<string>)
    requires 0 < chunkSize && Recorded(lib, done, chunkSize, files0, seen0)
    ensures ok ==> Recorded(lib, done + Walk("", root), chunkSize, files, seen)
    ensures !ok ==> !Selectable(lib, done + Walk("", root))
  {
    hide Recorded, ValidRelative, Selectable, Walk, Item;
    files, seen := files0, seen0;
    var visits := Walk("", root);
    assert done + visits[..0] == done;
    for j := 0 to |visits|
      invariant Recorded(lib, done + visits[..j], chunkSize, files, seen)
    {
      var v := visits[j];
      ghost var before := done + visits[..j];
      assert done + visits[..j + 1] == before + [v];
      RecordOne(lib, before, chunkSize, files, seen, v);
      if v.node.Symlink? || !ValidRelative(v.relative) || lib.lower(v.relative) in seen || v.node.Special? {
        assert before + [v] <= done + visits;
        PrefixNotSelectable(lib, before + [v], done + visits);
        return false, files, seen;
      }
      seen := seen + {lib.lower(v.relative)};
      files := files + [Item(lib, v, |files|, chunkSize)];
    }
    assert visits[..|visits|] == visits;
    return true, files, seen;
  }

  lemma PrefixNotSelectable(lib: Library, prefix: seq<Visit>, all: seq<Visit>)
    requires prefix <= all && !Selectable(lib, prefix)
    ensures !Selectable(lib, all)
  {
    assert forall i :: 0 <= i < |prefix| ==> prefix[i] == all[i];
  }

  method SumRegular(files: seq<File>) returns (total: int)
    ensures total == RegularTotal(files)
  {
    total := 0;
    for k := 0 to |files|
      invariant total == RegularTotal(files[..k])
    {
      assert files[..k + 1][..k] == files[..k];
      if !files[k].directory {
        total := Wrap64(total + files[k].size);
      }
    }
    assert files[..|files|] == files;
  }

  // buildManifest: refuses exactly the selections that are empty, have an
  // invalid chunk size, or contain a path or object that cannot be sent.
  method BuildManifest(lib: Library, roots: seq<Node>, chunkSize: int)
    returns (r: Result<(seq<File>, int), Failure>)
    ensures r.Ok? <==> roots != [] && 0 < chunkSize <= MAXIMUM_CHUNK_SIZE && Selectable(lib, Visits(roots))
    ensures r.Ok? ==> r.value.0 == Sort(Items(lib, Visits(roots), chunkSize), ByPath())
    ensures r.Ok? ==> r.value.1 == RegularTotal(r.value.0)
    ensures r.Err? ==> r == Err(InvalidRequest)
  {
    hide Recorded, Selectable, Walk, Items, Sort, RegularTotal;
    if roots == [] || chunkSize <= 0 || MAXIMUM_CHUNK_SIZE < chunkSize {
      return Err(InvalidRequest);
    }
    NothingRecorded(lib, chunkSize);
    assert roots[..0] == [];
    var files: seq<File> := [];
    var seen: set<string> := {};
    for i := 0 to |roots|
      invariant Recorded(lib, Visits(roots[..i]), chunkSize, files, seen)
    {
      assert roots[..i + 1][..i] == roots[..i];
      var ok;
      ok, files, seen := CollectRoot(lib, roots[i], chunkSize, files, seen, Visits(roots[..i]));
      if !ok {
        Continue(roots, i + 1);
        PrefixNotSelectable(lib, Visits(roots[..i + 1]), Visits(roots));
        return Err(InvalidRequest);
      }
    }
    assert roots[..|roots|] == roots;
    RecordedItems(lib, Visits(roots), chunkSize, files, seen);
    files := Sort(files, ByPath());
    var total := SumRegular(files);
    return Ok((files, total));
  }

  function FoldedVisits(lib: Library, visits: seq<Visit>): set<string> {
    set v | v in visits :: lib.lower(v.relative)
  }

  ghost predicate Recorded(lib: Library, done: seq<Visit>, chunkSize: int, files: seq<File>, seen: set<string>)
    requires 0 < chunkSize
  {
    files == Items(lib, done, chunkSize) && Selectable(lib, done) && seen == FoldedVisits(lib, done)
  }

  lemma NothingRecorded(lib: Library, chunkSize: int)
    requires 0 < chunkSize
    ensures Recorded(lib, [], chunkSize, [], {})
  {
  }

  lemma RecordedItems(lib: Library, done: seq<Visit>, chunkSize: int, files: seq<File>, seen: set<string>)
    requires 0 < chunkSize && Recorded(lib, done, chunkSize, files, seen)
    ensures files == Items(lib, done, chunkSize) && Selectable(lib, done)
  {
  }

  lemma SelectableExtend(lib: Library, done: seq<Visit>, v: Visit)
    requires Selectable(lib, done)
    ensures Selectable(lib, done + [v]) <==> Transferable(v) && lib.lower(v.relative) !in FoldedVisits(lib, done)
    ensures FoldedVisits(lib, done + [v]) == FoldedVisits(lib, done) + {lib.lower(v.relative)}
  {
    var more := done + [v];
    assert more[|done|] == v;
    assert forall i :: 0 <= i < |done| ==> more[i] == done[i];
  }

  lemma RecordOne(lib: Library, done: seq<Visit>, chunkSize: int, files: seq<File>, seen: set<string>, v: Visit)
    requires 0 < chunkSize && Recorded(lib, done, chunkSize, files, seen)
    ensures Selectable(lib, done + [v]) <==> Transferable(v) && lib.lower(v.relative) !in seen
    ensures Selectable(lib, done + [v]) ==>
      Recorded(lib, done + [v], chunkSize, files + [Item(lib, v, |files|, chunkSize)], seen + {lib.lower(v.relative)})
  {
    hide Item, Transferable;
    SelectableExtend(lib, done, v);
    ItemsExtend(lib, done, chunkSize, v);
  }

  lemma ItemsExtend(lib: Library, done: seq<Visit>, chunkSize: int, v: Visit)
    requires 0 < chunkSize
    ensures Items(lib, done + [v], chunkSize) == Items(lib, done, chunkSize) + [Item(lib, v, |done|, chunkSize)]
    ensures |Items(lib, done, chunkSize)| == |done|
  {
    hide Item;
  }

  lemma {:induction false} Continue(roots: seq<Node>, k: nat)
    requires k <= |roots|
    ensures Visits(roots[..k]) <= Visits(roots)
    decreases |roots| - k
  {
    if k == |roots| {
      assert roots[..k] == roots;
    } else {
      Continue(roots, k + 1);
      assert roots[..k + 1][..k] == roots[..k];
    }
  }

  // --- the validator ---------------------------------------------------------------

  predicate EntryValid(lib: Library, f: File, chunkSize: int)
    requires 0 < chunkSize
  {
    && lib.isUuid(f.id)
    && ValidRelative(f.path)
    && 0 <= f.size && f.chunkSize == chunkSize && f.chunkCount == ChunkCount(f.size, chunkSize)
    && (!f.directory ==> ValidSHA256(f.checksum))
    && (f.directory ==> f.size == 0 && f.chunkCount == 0)
  }

  predicate CaseDistinct(lib: Library, files: seq<File>) {
    forall i, j :: 0 <= i < j < |files| ==> lib.lower(files[i].path) != lib.lower(files[j].path)
  }

  predicate EntriesValid(lib: Library, files: seq<File>, chunkSize: int)
    requires 0 < chunkSize
  {
    (forall f :: f in files ==> EntryValid(lib, f, chunkSize)) && CaseDistinct(lib, files)
  }

  predicate ManifestValid(lib: Library, files: seq<File>, chunkSize: int, size: int) {
    && 0 < chunkSize <= MAXIMUM_CHUNK_SIZE && files != []
    && EntriesValid(lib, files, chunkSize)
    && Total64(files) == size
  }

  method CheckEntry(lib: Library, file: File, chunkSize: int) returns (ok: bool)
    requires 0 < chunkSize
    ensures ok <==> EntryValid(lib, file, chunkSize)
  {
    if !lib.isUuid(file.id) { return false; }
    if !ValidRelative(file.path) { return false; }
    if file.size < 0 || file.chunkSize != chunkSize || file.chunkCount != ChunkCount(file.size, file.chunkSize) {
      return false;
    }
    if !file.directory && !ValidSHA256(file.checksum) { return false; }
    return !(file.directory && (file.size != 0 || file.chunkCount != 0));
  }

  // The manifest loop of ReceiveOffer accepts exactly the valid manifests.
  method CheckManifest(lib: Library, files: seq<File>, chunkSize: int, size: int) returns (accepted: bool)
    ensures accepted <==> ManifestValid(lib, files, chunkSize, size)
  {
    hide EntriesValid, EntryValid, Wrap64, Total64, FoldedPaths;
    if chunkSize <= 0 || MAXIMUM_CHUNK_SIZE < chunkSize || |files| == 0 {
      return false;
    }
    NothingChecked(lib, chunkSize);
    var total := 0;
    var seen: set<string> := {};
    ghost var done: seq<File> := [];
    for i := 0 to |files|
      invariant done == files[..i]
      invariant total == Total64(done) && seen == FoldedPaths(lib, done) && EntriesValid(lib, done, chunkSize)
    {
      var file := files[i];
      TotalExtend(done, file);
      EntriesExtend(lib, done, file, chunkSize);
      var entryValid := CheckEntry(lib, file, chunkSize);
      var key := lib.lower(file.path);
      if !entryValid || key in seen {
        EntriesPrefix(lib, done, file, files, chunkSize);
        return false;
      }
      seen := seen + {key};
      total := Wrap64(total + file.size);
      done := done + [file];
    }
    assert files[..|files|] == files;
    return total == size;
  }

  lemma NothingChecked(lib: Library, chunkSize: int)
    requires 0 < chunkSize
    ensures Total64([]) == 0 && FoldedPaths(lib, []) == {} && EntriesValid(lib, [], chunkSize)
  {
  }

  lemma TotalExtend(files: seq<File>, f: File)
    ensures Total64(files + [f]) == Wrap64(Total64(files) + f.size)
  {
    assert (files + [f])[..|files|] == files;
  }

  lemma EntriesExtend(lib: Library, files: seq<File>, f: File, chunkSize: int)
    requires 0 < chunkSize && EntriesValid(lib, files, chunkSize)
    ensures EntriesValid(lib, files + [f], chunkSize) <==>
            EntryValid(lib, f, chunkSize) && lib.lower(f.path) !in FoldedPaths(lib, files)
    ensures FoldedPaths(lib, files + [f]) == FoldedPaths(lib, files) + {lib.lower(f.path)}
  {
    hide EntryValid;
    CaseDistinctExtend(lib, files, f);
    assert f in files + [f];
  }

  lemma EntriesPrefix(lib: Library, done: seq<File>, f: File, files: seq<File>, chunkSize: int)
    requires 0 < chunkSize && done + [f] <= files && !EntriesValid(lib, done + [f], chunkSize)
    ensures !EntriesValid(lib, files, chunkSize)
  {
    hide EntryValid;
    assert forall i :: 0 <= i < |done + [f]| ==> (done + [f])[i] == files[i];
  }

  function FoldedPaths(lib: Library, files: seq<File>): set<string> {
    set f | f in files :: lib.lower(f.path)
  }

  lemma CaseDistinctExtend(lib: Library, files: seq<File>, f: File)
    ensures CaseDistinct(lib, files + [f]) <==> CaseDistinct(lib, files) && lib.lower(f.path) !in FoldedPaths(lib, files)
    ensures FoldedPaths(lib, files + [f]) == FoldedPaths(lib, files) + {lib.lower(f.path)}
  {
    var more := files + [f];
    assert more[|files|] == f;
    assert forall i :: 0 <= i < |files| ==> more[i] == files[i];
  }

  // --- producer meets validator -------------------------------------------------------

  lemma ByPathPreorder()
    ensures Preorder(ByPath())
  {
    var le := ByPath();
    forall x, y ensures le(x, y) || le(y, x) {
      LessTotal(x.path, y.path);
    }
    forall x, y, z | le(x, y) && le(y, z) ensures le(x, z) {
      LessTotal(x.path, y.path);
      LessTotal(y.path, z.path);
      if Less(z.path, x.path) {
        if Less(x.path, y.path) {
          LessTransitive(z.path, x.path, y.path);
        }
        LessTotal(z.path, y.path);
      }
    }
  }

  // Directories have size zero, so both sides compute the same total.
  lemma {:induction false} TotalsAgree(files: seq<File>)
    requires forall f :: f in files && f.directory ==> f.size == 0
    ensures RegularTotal(files) == Total64(files)
    ensures Wrap64(Total64(files)) == Total64(files)
  {
    if files != [] {
      TotalsAgree(files[..|files| - 1]);
    }
  }

  lemma ItemValid(lib: Library, v: Visit, n: nat, chunkSize: int)
    requires Sane(lib) && 0 < chunkSize && Transferable(v)
    ensures EntryValid(lib, Item(lib, v, n, chunkSize), chunkSize)
  {
    if v.node.Regular? {
      HexShape(lib.sha256(v.node.contents));
    }
  }

  lemma ItemsDistinct(lib: Library, visits: seq<Visit>, chunkSize: int, folded: File -> string,
      identity: File -> string)
    requires Sane(lib) && 0 < chunkSize && Selectable(lib, visits)
    requires forall f: File :: folded(f) == lib.lower(f.path) && identity(f) == f.id
    ensures DistinctBy(Items(lib, visits, chunkSize), folded)
    ensures DistinctBy(Items(lib, visits, chunkSize), identity)
  {
    var items := Items(lib, visits, chunkSize);
    forall i, j | 0 <= i < j < |items|
      ensures folded(items[i]) != folded(items[j]) && identity(items[i]) != identity(items[j])
    {
      assert items[i].path == visits[i].relative && items[j].path == visits[j].relative;
      assert items[i].id == lib.newId(i) && items[j].id == lib.newId(j);
    }
  }

  lemma SortedItems(lib: Library, visits: seq<Visit>, chunkSize: int)
    requires Sane(lib) && 0 < chunkSize && Selectable(lib, visits)
    ensures var files := Sort(Items(lib, visits, chunkSize), ByPath());
      && multiset(files) == multiset(Items(lib, visits, chunkSize)) && |files| == |visits|
      && CaseDistinct(lib, files) && Store.PathSorted(files) && DistinctIds(files)
  {
    var items := Items(lib, visits, chunkSize);
    var files := Sort(items, ByPath());
    ByPathPreorder();
    SortCorrect(items, ByPath());
    assert |files| == |multiset(files)| == |multiset(items)| == |items|;
    var folded := (f: File) => lib.lower(f.path);
    var identity := (f: File) => f.id;
    ItemsDistinct(lib, visits, chunkSize, folded, identity);
    DistinctPermuted(items, files, folded);
    DistinctPermuted(items, files, identity);
    hide Items, Sort, Selectable;
    assert CaseDistinct(lib, files) by {
      assert forall i, j :: 0 <= i < j < |files| ==> folded(files[i]) != folded(files[j]);
    }
    assert DistinctIds(files) by {
      assert forall i, j :: 0 <= i < j < |files| ==> identity(files[i]) != identity(files[j]);
    }
    SortedDistinct(lib, files);
  }

  lemma SortedItemsValid(lib: Library, visits: seq<Visit>, chunkSize: int, f: File)
    requires Sane(lib) && 0 < chunkSize && Selectable(lib, visits)
    requires f in Items(lib, visits, chunkSize)
    ensures EntryValid(lib, f, chunkSize)
  {
    var items := Items(lib, visits, chunkSize);
    var i :| 0 <= i < |items| && items[i] == f;
    assert Transferable(visits[i]);
    ItemValid(lib, visits[i], i, chunkSize);
  }

  // Every manifest buildManifest returns passes every check of ReceiveOffer,
  // for any selection; its entries are sorted by path with distinct IDs.
  lemma ProducerMeetsValidator(lib: Library, visits: seq<Visit>, chunkSize: int)
    requires Sane(lib) && 0 < chunkSize <= MAXIMUM_CHUNK_SIZE && visits != [] && Selectable(lib, visits)
    ensures var files := Sort(Items(lib, visits, chunkSize), ByPath());
      && ManifestValid(lib, files, chunkSize, RegularTotal(files))
      && multiset(files) == multiset(Items(lib, visits, chunkSize))
      && Store.PathSorted(files) && DistinctIds(files)
  {
    var items := Items(lib, visits, chunkSize);
    var files := Sort(items, ByPath());
    SortedItems(lib, visits, chunkSize);
    forall f | f in files ensures EntryValid(lib, f, chunkSize) {
      assert f in multiset(items);
      SortedItemsValid(lib, visits, chunkSize, f);
    }
    TotalsAgree(files);
  }

  // The entry of a visited object: a regular file with its size and checksum, or a
  // directory.
  predicate Describes(lib: Library, f: File, v: Visit) {
    && f.path == v.relative && (f.directory <==> v.node.Dir?)
    && (v.node.Regular? ==> f.size == |v.node.contents| && f.checksum == Hex(lib.sha256(v.node.contents)))
  }

  // What can be sent is exactly a walk over regular files and directories, at valid
  // paths that differ however they are capitalised.
  lemma SelectableIff(lib: Library, visits: seq<Visit>)
    ensures Selectable(lib, visits) <==>
      && (forall v :: v in visits ==> ValidRelative(v.relative) && !v.node.Symlink? && !v.node.Special?)
      && (forall i, j :: 0 <= i < j < |visits| ==> lib.lower(visits[i].relative) != lib.lower(visits[j].relative))
  {
    hide ValidRelative;
    if forall v :: v in visits ==> ValidRelative(v.relative) && !v.node.Symlink? && !v.node.Special? {
      forall i | 0 <= i < |visits| ensures Transferable(visits[i]) {
        assert visits[i] in visits;
      }
    }
  }

  // And the manifest describes exactly what was walked, each object once.
  lemma ManifestDescribes(lib: Library, visits: seq<Visit>, chunkSize: int)
    requires Sane(lib) && 0 < chunkSize && Selectable(lib, visits)
    ensures var files := Sort(Items(lib, visits, chunkSize), ByPath());
      && |files| == |visits|
      && (forall v :: v in visits ==> exists f :: f in files && Describes(lib, f, v))
      && (forall f :: f in files ==> exists v :: v in visits && Describes(lib, f, v))
  {
    var items := Items(lib, visits, chunkSize);
    var files := Sort(items, ByPath());
    SortedItems(lib, visits, chunkSize);
    hide Sort, Selectable, Item, Describes, Sane;
    forall v | v in visits ensures exists f :: f in files && Describes(lib, f, v) {
      var i :| 0 <= i < |visits| && visits[i] == v;
      ItemDescribes(lib, visits, i, chunkSize);
      assert items[i] in multiset(files);
    }
    forall f | f in files ensures exists v :: v in visits && Describes(lib, f, v) {
      assert f in multiset(items);
      var i :| 0 <= i < |items| && items[i] == f;
      ItemDescribes(lib, visits, i, chunkSize);
    }
  }

  lemma ItemDescribes(lib: Library, visits: seq<Visit>, i: nat, chunkSize: int)
    requires Selectable(lib, visits) && i < |visits| && 0 < chunkSize
    ensures Describes(lib, Item(lib, visits[i], i, chunkSize), visits[i])
  {
    assert Transferable(visits[i]);
  }

  // What the validator accepts, entry by entry: a directory has no bytes and no
  // chunks, a file a checksum of 64 hexadecimal digits, and as many chunks of the
  // one size of at most 16 MiB as just cover it, unless the arithmetic wraps.
  predicate AcceptableEntry(lib: Library, f: File, chunkSize: int) {
    && lib.isUuid(f.id) && ValidRelative(f.path) && f.chunkSize == chunkSize
    && (f.directory ==> f.size == f.chunkCount == 0)
    && (!f.directory ==> 0 <= f.size && |f.checksum| == 64 && forall c :: c in f.checksum ==> IsHexDigit(c))
  }

  lemma AcceptedIff(lib: Library, files: seq<File>, chunkSize: int, size: int)
    requires forall f :: f in files ==> f.size <= 0x7FFF_FFFF_FF00_0000
    ensures ManifestValid(lib, files, chunkSize, size) <==>
      && 0 < chunkSize <= 16_777_216 && files != [] && Total64(files) == size && CaseDistinct(lib, files)
      && forall f :: f in files ==> AcceptableEntry(lib, f, chunkSize) && JustCovers(f.chunkCount, f.size, chunkSize)
  {
    hide ValidRelative, Total64, CaseDistinct;
    if 0 < chunkSize <= 16_777_216 {
      forall f | f in files
        ensures EntryValid(lib, f, chunkSize) <==>
          AcceptableEntry(lib, f, chunkSize) && JustCovers(f.chunkCount, f.size, chunkSize)
      {
        if 0 <= f.size {
          FittingCountCovers(f.size, chunkSize);
          if JustCovers(f.chunkCount, f.size, chunkSize) {
            CoverUnique(f.chunkCount, ChunkCount(f.size, chunkSize), f.size, chunkSize);
          }
        }
      }
    }
  }

  lemma CoverUnique(m: int, n: int, size: int, chunkSize: int)
    requires 0 < chunkSize && JustCovers(m, size, chunkSize) && JustCovers(n, size, chunkSize)
    ensures m == n
  {
    if m < n {
      MulOrder(m, n - 1, chunkSize);
    } else if n < m {
      MulOrder(n, m - 1, chunkSize);
    }
  }

  lemma MulOrder(a: int, b: int, c: int)
    requires a <= b && 0 < c
    ensures a * c <= b * c
  {
    assert (b - a) * c >= 0;
  }

  lemma SortedDistinct(lib: Library, files: seq<File>)
    requires Sorted(files, ByPath()) && CaseDistinct(lib, files)
    ensures Store.PathSorted(files)
  {
    forall i, j | 0 <= i < j < |files| ensures Less(files[i].path, files[j].path) {
      assert ByPath()(files[i], files[j]);
      LessTotal(files[i].path, files[j].path);
    }
  }
}
