// The partial files of all sessions: however chunks arrive, whole or torn, and
// whatever the senders are, each stays within its manifest size and reaches the
// end of every chunk recorded for it, until a commit takes it away.
module Staging {
  import opened Results
  import opened Transfers
  import opened Chunking
  import opened Receiving
  import opened Paths
  import opened Disk
  import opened Committing
  import opened Lifecycle
  import opened Sessions
  import opened Approval

  // What commits have taken from the staging directory, as it was the first time.
  type Taken = map<Path, Bytes>

  predicate Collides(contents: Bytes, other: Bytes, hash: Bytes -> string) {
    contents != other && hash(contents) == hash(other)
  }

  // Exactly as long as the manifest says, or a commit has taken the partial before
  // and these are other bytes with the digest of those.
  predicate Sized(f: File, contents: Bytes, taken: Taken, part: Path, hash: Bytes -> string) {
    |contents| == f.size || (part in taken && Collides(contents, taken[part], hash))
  }

  ghost predicate PartialSound(
      f: File, complete: set<Part>, tree: Tree, part: Path, taken: Taken, hash: Bytes -> string)
  {
    && |ContentsAt(tree, part)| <= f.size
    && if part in taken then hash(taken[part]) == f.checksum && |taken[part]| == f.size
       else Covers(f, complete, ContentsAt(tree, part))
  }

  ghost predicate SessionStaged(
      base: Path, files: seq<File>, complete: set<Part>, tree: Tree, taken: Taken, hash: Bytes -> string)
  {
    forall f :: f in files && !f.directory ==> PartialSound(f, complete, tree, PartOf(base, f), taken, hash)
  }

  ghost predicate KnownPart(incoming: Path, transfers: map<string, Transfer>, q: Path) {
    exists id, f :: id in transfers && f in transfers[id].files && q == PartOf(incoming + [id], f)
  }

  // Every session's partials are sound, no destination lies in the staging
  // directory, and only known partials have been taken.
  ghost predicate StagingSound(
      incoming: Path, transfers: map<string, Transfer>, rows: map<string, Rows>, tree: Tree, taken: Taken,
      hash: Bytes -> string)
  {
    && (forall id :: id in transfers ==>
          SessionStaged(incoming + [id], transfers[id].files, CompleteRows(RowsOf(rows, id)), tree, taken, hash))
    && (forall id :: id in transfers ==> Outside(incoming, transfers[id].files))
    && (forall q :: q in taken ==> KnownPart(incoming, transfers, q))
  }

  lemma PartsApart(incoming: Path, a: string, f: File, b: string, g: File)
    ensures PartOf(incoming + [a], f) == PartOf(incoming + [b], g) ==> a == b
    ensures incoming < PartOf(incoming + [a], f)
  {
    assert PartOf(incoming + [a], f)[|incoming|] == a && PartOf(incoming + [b], g)[|incoming|] == b;
  }

  // --- chunks ---------------------------------------------------------------------------

  // What one chunk call may have done to the disk and the rows.
  ghost predicate ChunkEffect(
      f: File, index: int, data: Bytes, complete: set<Part>, complete': set<Part>, partial: Bytes, partial': Bytes)
  {
    && 0 <= index < f.chunkCount && |data| == ChunkLength(f.size, f.chunkSize, index) && 0 <= index * f.chunkSize
    && TornWrite(partial, index * f.chunkSize, data, partial')
    && (complete' == complete
        || (complete' == complete + {Part(f.id, index)} && partial' == WriteAt(partial, index * f.chunkSize, data)))
  }

  lemma ChunkKeepsPartial(
      f: File, g: File, index: int, data: Bytes, complete: set<Part>, complete': set<Part>, tree: Tree, after: Tree,
      base: Path, taken: Taken, hash: Bytes -> string)
    requires WellFormedFile(f) && (f == g || (f.id != g.id && f.path != g.path))
    requires OnlyTouches(tree, after, {PartOf(base, f)})
    requires ChunkEffect(f, index, data, complete, complete', ContentsAt(tree, PartOf(base, f)), ContentsAt(after, PartOf(base, f)))
    requires PartialSound(g, complete, tree, PartOf(base, g), taken, hash)
    ensures PartialSound(g, complete', after, PartOf(base, g), taken, hash)
  {
    hide TornWrite, WriteAt;
    var partial, partial' := ContentsAt(tree, PartOf(base, f)), ContentsAt(after, PartOf(base, f));
    if f == g {
      TornKeepsLength(f, complete, partial, index, data, partial');
      WrittenIsCovered(f, complete, partial, index, data);
    } else {
      PartOfInjective(base, f, g);
      ContentsKept(tree, after, {PartOf(base, f)}, PartOf(base, g));
    }
  }

  lemma ContentsKept(tree: Tree, after: Tree, touched: set<Path>, q: Path)
    requires OnlyTouches(tree, after, touched) && q !in touched
    ensures ContentsAt(after, q) == ContentsAt(tree, q)
  {
  }

  lemma MemberFiles(files: seq<File>, f: File, g: File)
    requires DistinctIds(files) && DistinctRelative(files) && f in files && g in files
    ensures f == g || (f.id != g.id && f.path != g.path)
  {
    var i :| 0 <= i < |files| && files[i] == f;
    var j :| 0 <= j < |files| && files[j] == g;
  }

  lemma ChunkKeepsSession(
      f: File, index: int, data: Bytes, files: seq<File>, complete: set<Part>, complete': set<Part>, tree: Tree,
      after: Tree,
      base: Path, taken: Taken, hash: Bytes -> string)
    requires Acceptable(files) && f in files && OnlyTouches(tree, after, {PartOf(base, f)})
    requires ChunkEffect(f, index, data, complete, complete', ContentsAt(tree, PartOf(base, f)), ContentsAt(after, PartOf(base, f)))
    requires SessionStaged(base, files, complete, tree, taken, hash)
    ensures SessionStaged(base, files, complete', after, taken, hash)
  {
    hide ChunkEffect, PartialSound, OnlyTouches, WellFormedFile, DistinctIds, DistinctRelative;
    forall g | g in files && !g.directory ensures PartialSound(g, complete', after, PartOf(base, g), taken, hash) {
      MemberFiles(files, f, g);
      ChunkKeepsPartial(f, g, index, data, complete, complete', tree, after, base, taken, hash);
    }
  }

  // Another session's partials are elsewhere.
  lemma OthersKeepSession(
      incoming: Path, id: string, f: File, other: string, files: seq<File>, complete: set<Part>, tree: Tree,
      after: Tree,
      taken: Taken, hash: Bytes -> string)
    requires id != other && OnlyTouches(tree, after, {PartOf(incoming + [id], f)})
    requires SessionStaged(incoming + [other], files, complete, tree, taken, hash)
    ensures SessionStaged(incoming + [other], files, complete, after, taken, hash)
  {
    hide OnlyTouches, PartialSound;
    forall g | g in files && !g.directory
      ensures PartialSound(g, complete, after, PartOf(incoming + [other], g), taken, hash)
    {
      PartsApart(incoming, id, f, other, g);
      ContentsKept(tree, after, {PartOf(incoming + [id], f)}, PartOf(incoming + [other], g));
      SameContents(g, complete, tree, after, PartOf(incoming + [other], g), taken, hash);
    }
  }

  lemma SameContents(
      g: File, complete: set<Part>, tree: Tree, after: Tree, part: Path, taken: Taken, hash: Bytes -> string)
    requires ContentsAt(after, part) == ContentsAt(tree, part)
    ensures PartialSound(g, complete, tree, part, taken, hash) ==> PartialSound(g, complete, after, part, taken, hash)
  {
  }

  lemma ChunkKeepsStaging(
      incoming: Path, transfers: map<string, Transfer>, rows: map<string, Rows>, rows': map<string, Rows>, tree: Tree,
      after: Tree,
      taken: Taken, hash: Bytes -> string, id: string, f: File, index: int, data: Bytes)
    requires StagingSound(incoming, transfers, rows, tree, taken, hash)
    requires id in transfers && Acceptable(transfers[id].files) && f in transfers[id].files
    requires OnlyTouches(tree, after, {PartOf(incoming + [id], f)})
    requires forall other :: other != id ==> RowsOf(rows', other) == RowsOf(rows, other)
    requires ChunkEffect(f, index, data, CompleteRows(RowsOf(rows, id)), CompleteRows(RowsOf(rows', id)),
               ContentsAt(tree, PartOf(incoming + [id], f)), ContentsAt(after, PartOf(incoming + [id], f)))
    ensures StagingSound(incoming, transfers, rows', after, taken, hash)
  {
    hide ChunkEffect, SessionStaged, OnlyTouches, Acceptable, RowsOf, CompleteRows, KnownPart;
    forall other | other in transfers
      ensures SessionStaged(incoming + [other], transfers[other].files, CompleteRows(RowsOf(rows', other)), after, taken, hash)
    {
      if other == id {
        ChunkKeepsSession(f, index, data, transfers[id].files, CompleteRows(RowsOf(rows, id)), CompleteRows(RowsOf(rows', id)),
          tree, after, incoming + [id], taken, hash);
      } else {
        OthersKeepSession(incoming, id, f, other, transfers[other].files, CompleteRows(RowsOf(rows, other)), tree,
          after, taken, hash);
      }
    }
  }

  // One call of StoreChunk, whatever became of it.
  lemma ChunkStaged(
      incoming: Path, transfers: map<string, Transfer>, rows: map<string, Rows>, rows': map<string, Rows>, tree: Tree,
      after: Tree,
      taken: Taken, hash: Bytes -> string, id: string, f: File, index: int, data: Bytes, row: Chunk, stored: bool)
    requires StoreSound(transfers, rows) && StagingSound(incoming, transfers, rows, tree, taken, hash)
    requires id in transfers && f in transfers[id].files && row.status.ChunkComplete?
    requires 0 <= index < f.chunkCount && |data| == ChunkLength(f.size, f.chunkSize, index) && 0 <= index * f.chunkSize
    requires OnlyTouches(tree, after, {PartOf(incoming + [id], f)})
    requires TornWrite(ContentsAt(tree, PartOf(incoming + [id], f)), index * f.chunkSize, data,
               ContentsAt(after, PartOf(incoming + [id], f)))
    requires !stored ==> rows' == rows
    requires stored ==>
      && rows' == RowAdded(rows, id, Part(f.id, index), row)
      && ChunkOnDisk(tree, after, PartOf(incoming + [id], f), index * f.chunkSize, data)
    ensures StagingSound(incoming, transfers, rows', after, taken, hash)
  {
    hide StagingSound, Acceptable, RowsSound, TornWrite, WriteAt, OnlyTouches;
    RowsOfSound(transfers, rows, id);
    if stored {
      assert CompleteRows(RowsOf(rows', id)) == CompleteRows(RowsOf(rows, id)) + {Part(f.id, index)};
    }
    ChunkKeepsStaging(incoming, transfers, rows, rows', tree, after, taken, hash, id, f, index, data);
  }

  // --- records ---------------------------------------------------------------------------

  // A record that keeps its files keeps the staging directory sound.
  lemma RecordKeepsStaging(
      incoming: Path, transfers: map<string, Transfer>, rows: map<string, Rows>, tree: Tree, taken: Taken,
      hash: Bytes -> string,
      t: Transfer)
    requires StagingSound(incoming, transfers, rows, tree, taken, hash)
    requires t.id in transfers && t.files == transfers[t.id].files
    ensures StagingSound(incoming, transfers[t.id := t], rows, tree, taken, hash)
  {
    hide SessionStaged, KnownPart;
    StillKnown(incoming, transfers, transfers[t.id := t], taken);
  }

  // Records may change in everything but their files.
  ghost predicate SameFiles(before: map<string, Transfer>, after: map<string, Transfer>) {
    && before.Keys == after.Keys
    && forall id :: id in before ==>
        after[id].id == before[id].id && after[id].files == before[id].files && after[id].size == before[id].size
  }

  lemma SameFilesKeepStaging(
      incoming: Path, before: map<string, Transfer>, after: map<string, Transfer>, rows: map<string, Rows>, tree: Tree,
      taken: Taken, hash: Bytes -> string)
    requires SameFiles(before, after) && StoreSound(before, rows) && StagingSound(incoming, before, rows, tree, taken, hash)
    ensures StoreSound(after, rows) && StagingSound(incoming, after, rows, tree, taken, hash)
  {
    hide SessionStaged, KnownPart, Acceptable, RowsSound, TotalSize, SamePaths, Outside;
    forall id | id in before ensures SamePaths(before[id].files, after[id].files) {
      PathsThemselves(before[id].files);
    }
    StillKnown(incoming, before, after, taken);
  }

  // No lifecycle call but an acceptance touches the files of a record.
  lemma OutcomeKeepsStaging(
      incoming: Path, before: map<string, Transfer>, after: map<string, Transfer>, rows: map<string, Rows>, tree: Tree,
      taken: Taken, hash: Bytes -> string, id: string, call: Call, now: int, r: Result<Transfer, Failure>)
    requires StoreSound(before, rows) && StagingSound(incoming, before, rows, tree, taken, hash)
    requires Outcome(before, after, id, call, now, r) && !call.Accept?
    ensures StoreSound(after, rows) && StagingSound(incoming, after, rows, tree, taken, hash)
  {
    OutcomeKeepsFiles(before, after, id, call, now, r);
    SameFilesKeepStaging(incoming, before, after, rows, tree, taken, hash);
  }

  lemma OutcomeKeepsFiles(
      before: map<string, Transfer>, after: map<string, Transfer>, id: string, call: Call, now: int,
      r: Result<Transfer, Failure>)
    requires Outcome(before, after, id, call, now, r) && !call.Accept?
    ensures SameFiles(before, after)
  {
    hide Called;
    if id in before {
      CalledKeepsFiles(before[id], call, now);
    }
  }

  lemma CalledKeepsFiles(t: Transfer, call: Call, now: int)
    requires !call.Accept?
    ensures var next := Called(t, call, now);
      next.Some? ==> next.value.id == t.id && next.value.files == t.files && next.value.size == t.size
  {
  }

  lemma StillKnown(incoming: Path, transfers: map<string, Transfer>, after: map<string, Transfer>, taken: Taken)
    requires forall q :: q in taken ==> KnownPart(incoming, transfers, q)
    requires forall id :: id in transfers ==> id in after && SamePaths(transfers[id].files, after[id].files)
    ensures forall q :: q in taken ==> KnownPart(incoming, after, q)
  {
    forall q | q in taken ensures KnownPart(incoming, after, q) {
      var id, f :| id in transfers && f in transfers[id].files && q == PartOf(incoming + [id], f);
      var i :| 0 <= i < |transfers[id].files| && transfers[id].files[i] == f;
      assert after[id].files[i] in after[id].files && PartOf(incoming + [id], after[id].files[i]) == q;
    }
  }

  predicate SamePaths(a: seq<File>, b: seq<File>) {
    |a| == |b| && forall i :: 0 <= i < |a| ==> a[i].path == b[i].path
  }

  // A new session starts sound exactly when no file that an earlier session left
  // at one of its partial paths is longer than the manifest says: chunks never
  // shorten a file.
  ghost predicate NothingLeftOver(base: Path, files: seq<File>, tree: Tree) {
    forall f :: f in files && !f.directory ==> |ContentsAt(tree, PartOf(base, f))| <= f.size
  }

  lemma NewSessionStagedIff(
      incoming: Path, transfers: map<string, Transfer>, rows: map<string, Rows>, tree: Tree, taken: Taken,
      hash: Bytes -> string,
      t: Transfer)
    requires StagingSound(incoming, transfers, rows, tree, taken, hash) && t.id !in transfers && t.id !in rows
    requires forall f :: f in t.files ==> f.destination.None?
    ensures StagingSound(incoming, transfers[t.id := t], rows, tree, taken, hash)
            <==> NothingLeftOver(incoming + [t.id], t.files, tree)
  {
    hide SessionStaged, NothingLeftOver, KnownPart, SamePaths, PartOf;
    forall id | id in transfers ensures SamePaths(transfers[id].files, transfers[id].files) {
      PathsThemselves(transfers[id].files);
    }
    StillKnown(incoming, transfers, transfers[t.id := t], taken);
    forall f | f in t.files ensures PartOf(incoming + [t.id], f) !in taken {
      if PartOf(incoming + [t.id], f) in taken {
        NotYetTaken(incoming, transfers, taken, t.id, f);
      }
    }
    assert CompleteRows(RowsOf(rows, t.id)) == {};
    FreshSession(incoming + [t.id], t.files, tree, taken, hash);
  }

  lemma PathsThemselves(files: seq<File>)
    ensures SamePaths(files, files)
  {
  }

  lemma FreshSession(base: Path, files: seq<File>, tree: Tree, taken: Taken, hash: Bytes -> string)
    requires forall f :: f in files ==> PartOf(base, f) !in taken
    ensures SessionStaged(base, files, {}, tree, taken, hash) <==> NothingLeftOver(base, files, tree)
  {
    forall f | f in files && !f.directory
      ensures PartialSound(f, {}, tree, PartOf(base, f), taken, hash) <==> |ContentsAt(tree, PartOf(base, f))| <= f.size
    {
    }
  }

  lemma NotYetTaken(incoming: Path, transfers: map<string, Transfer>, taken: Taken, id: string, f: File)
    requires (forall q :: q in taken ==> KnownPart(incoming, transfers, q)) && PartOf(incoming + [id], f) in taken
    ensures id in transfers
  {
    var other, g :| other in transfers && g in transfers[other].files && PartOf(incoming + [id], f) == PartOf(incoming + [other], g);
    PartsApart(incoming, id, f, other, g);
  }

  // Approval keeps it sound when no destination lies in the staging directory;
  // it creates only directories.
  lemma ApprovalKeepsStaging(
      incoming: Path, transfers: map<string, Transfer>, rows: map<string, Rows>, tree: Tree, after: Tree, taken: Taken,
      hash: Bytes -> string, t: Transfer, root: Path)
    requires StagingSound(incoming, transfers, rows, tree, taken, hash) && OnlyTouches(tree, after, {})
    requires t.id in transfers && t.files == Destined(transfers[t.id].files, root) && Outside(incoming, t.files)
    ensures StagingSound(incoming, transfers[t.id := t], rows, after, taken, hash)
  {
    hide SessionStaged, PartialSound, OnlyTouches, Outside, KnownPart;
    FoldersKeepStaging(incoming, transfers, rows, tree, after, taken, hash);
    StillKnown(incoming, transfers, transfers[t.id := t], taken);
    DestinedStaged(incoming + [t.id], transfers[t.id].files, root, CompleteRows(RowsOf(rows, t.id)), after, taken,
      hash);
  }

  lemma DestinedStaged(
      base: Path, files: seq<File>, root: Path, complete: set<Part>, tree: Tree, taken: Taken, hash: Bytes -> string)
    requires SessionStaged(base, files, complete, tree, taken, hash)
    ensures SessionStaged(base, Destined(files, root), complete, tree, taken, hash)
  {
    hide Covers;
    forall g | g in Destined(files, root) && !g.directory
      ensures PartialSound(g, complete, tree, PartOf(base, g), taken, hash)
    {
      var i :| 0 <= i < |files| && Destined(files, root)[i] == g;
      assert files[i] in files && PartialSound(files[i], complete, tree, PartOf(base, files[i]), taken, hash);
      DestinedSound(files[i], g, complete, tree, PartOf(base, g), taken, hash);
    }
  }

  lemma DestinedSound(
      f: File, g: File, complete: set<Part>, tree: Tree, part: Path, taken: Taken, hash: Bytes -> string)
    requires PartialSound(f, complete, tree, part, taken, hash) && g == f.(destination := g.destination)
    ensures PartialSound(g, complete, tree, part, taken, hash)
  {
  }

  // --- files appear and disappear -----------------------------------------------------------

  lemma FoldersKeepStaging(
      incoming: Path, transfers: map<string, Transfer>, rows: map<string, Rows>, tree: Tree, after: Tree,
      taken: Taken, hash: Bytes -> string)
    requires StagingSound(incoming, transfers, rows, tree, taken, hash) && OnlyTouches(tree, after, {})
    ensures StagingSound(incoming, transfers, rows, after, taken, hash)
  {
    forall q ensures ContentsAt(after, q) == ContentsAt(tree, q) {}
    ContentsKeepStaging(incoming, transfers, rows, tree, after, taken, hash);
  }

  lemma ContentsKeepStaging(
      incoming: Path, transfers: map<string, Transfer>, rows: map<string, Rows>, tree: Tree, after: Tree,
      taken: Taken, hash: Bytes -> string)
    requires StagingSound(incoming, transfers, rows, tree, taken, hash)
    requires forall q :: ContentsAt(after, q) == ContentsAt(tree, q)
    ensures StagingSound(incoming, transfers, rows, after, taken, hash)
  {
    hide PartialSound, KnownPart, Outside, RowsOf, CompleteRows;
    forall id, f | id in transfers && f in transfers[id].files && !f.directory
      ensures PartialSound(f, CompleteRows(RowsOf(rows, id)), after, PartOf(incoming + [id], f), taken, hash)
    {
      assert SessionStaged(incoming + [id], transfers[id].files, CompleteRows(RowsOf(rows, id)), tree, taken, hash);
      SameContents(f, CompleteRows(RowsOf(rows, id)), tree, after, PartOf(incoming + [id], f), taken, hash);
    }
  }

  // A verified file has exactly its manifest size; only where an earlier commit took
  // the partial is that left to the hash function.
  lemma VerifiedIsSized(
      files: seq<File>, f: File, complete: set<Part>, tree: Tree, part: Path, taken: Taken, hash: Bytes -> string)
    requires Acceptable(files) && f in files && !f.directory && complete <= AllParts(files)
    requires PartialSound(f, complete, tree, part, taken, hash)
    requires IsRegular(tree, part) && FileVerified(f, complete, Some(tree[part].contents), hash)
    ensures Sized(f, tree[part].contents, taken, part, hash)
  {
    hide AllParts, ValidRelative, Covers;
    assert WellFormedFile(f);
    if part in taken {
      assert hash(taken[part]) == hash(tree[part].contents);
    } else {
      FittingCountCovers(f.size, f.chunkSize);
      CountImpliesComplete(files, complete, f);
      CompleteLength(f, complete, tree[part].contents);
    }
  }

  // The partials a commit has taken, with what they held when verified.
  function TakenBy(base: Path, files: seq<File>, verified: Tree, after: Tree): Taken {
    map f | f in files && !f.directory && IsRegular(verified, PartOf(base, f)) && !IsRegular(after, PartOf(base, f)) ::
      PartOf(base, f) := verified[PartOf(base, f)].contents
  }

  lemma CommitKeepsPartial(
      base: Path, files: seq<File>, complete: set<Part>, verified: Tree, after: Tree, taken: Taken,
      hash: Bytes -> string, f: File)
    requires Acceptable(files) && f in files && !f.directory && complete <= AllParts(files)
    requires PartialSound(f, complete, verified, PartOf(base, f), taken, hash)
    requires IsRegular(verified, PartOf(base, f))
    requires FileVerified(f, complete, Some(verified[PartOf(base, f)].contents), hash)
    requires IsRegular(after, PartOf(base, f)) ==> ContentsAt(after, PartOf(base, f)) == ContentsAt(verified, PartOf(base, f))
    ensures PartialSound(f, complete, after, PartOf(base, f), TakenBy(base, files, verified, after) + taken, hash)
  {
    hide AllParts, Covers, FileVerified;
    var part := PartOf(base, f);
    VerifiedIsSized(files, f, complete, verified, part, taken, hash);
    VerifiedHash(f, complete, verified[part].contents, hash);
    assert part in TakenBy(base, files, verified, after) <==> !IsRegular(after, part);
  }

  lemma VerifiedHash(f: File, complete: set<Part>, contents: Bytes, hash: Bytes -> string)
    requires FileVerified(f, complete, Some(contents), hash)
    ensures hash(contents) == f.checksum
  {
  }

  // Every file of the session has its chunks counted and its bytes hashed.
  ghost predicate AllVerified(base: Path, files: seq<File>, complete: set<Part>, tree: Tree, hash: Bytes -> string) {
    forall f :: f in files && !f.directory ==>
      IsRegular(tree, PartOf(base, f)) && FileVerified(f, complete, Some(tree[PartOf(base, f)].contents), hash)
  }

  lemma CommitKeepsSession(
      incoming: Path, base: Path, files: seq<File>, complete: set<Part>, verified: Tree, after: Tree, taken: Taken,
      hash: Bytes -> string)
    requires Acceptable(files) && complete <= AllParts(files) && incoming < base
    requires SessionStaged(base, files, complete, verified, taken, hash) && AllVerified(base, files, complete, verified, hash)
    requires OnlyTakesParts(incoming, base, files, verified, after)
    ensures SessionStaged(base, files, complete, after, TakenBy(base, files, verified, after) + taken, hash)
  {
    hide Acceptable, AllParts, PartialSound, FileVerified;
    forall f | f in files && !f.directory
      ensures PartialSound(f, complete, after, PartOf(base, f), TakenBy(base, files, verified, after) + taken, hash)
    {
      assert incoming < PartOf(base, f);
      CommitKeepsPartial(base, files, complete, verified, after, taken, hash, f);
    }
  }

  lemma CommitKeepsOthers(
      incoming: Path, id: string, files: seq<File>, other: string, theirs: seq<File>, complete: set<Part>,
      verified: Tree, after: Tree, taken: Taken, hash: Bytes -> string)
    requires other != id && OnlyTakesParts(incoming, incoming + [id], files, verified, after)
    requires SessionStaged(incoming + [other], theirs, complete, verified, taken, hash)
    ensures SessionStaged(incoming + [other], theirs, complete, after,
              TakenBy(incoming + [id], files, verified, after) + taken, hash)
  {
    hide Covers;
    forall g | g in theirs && !g.directory
      ensures PartialSound(g, complete, after, PartOf(incoming + [other], g),
                TakenBy(incoming + [id], files, verified, after) + taken, hash)
    {
      forall f ensures PartOf(incoming + [id], f) != PartOf(incoming + [other], g) {
        PartsApart(incoming, id, f, other, g);
      }
      PartsApart(incoming, other, g, other, g);
      assert !IsPart(incoming + [id], files, PartOf(incoming + [other], g));
      assert PartialSound(g, complete, verified, PartOf(incoming + [other], g), taken, hash);
    }
  }

  // A commit, finished or not, keeps the staging directory sound.
  lemma CommitKeepsStaging(
      incoming: Path, transfers: map<string, Transfer>, rows: map<string, Rows>, verified: Tree, after: Tree,
      taken: Taken,
      hash: Bytes -> string, id: string)
    requires StoreSound(transfers, rows) && StagingSound(incoming, transfers, rows, verified, taken, hash) && id in transfers
    requires AllVerified(incoming + [id], transfers[id].files, CompleteRows(RowsOf(rows, id)), verified, hash)
    requires OnlyTakesParts(incoming, incoming + [id], transfers[id].files, verified, after)
    ensures StagingSound(incoming, transfers, rows, after, TakenBy(incoming + [id], transfers[id].files, verified, after) + taken, hash)
  {
    hide SessionStaged, AllVerified, OnlyTakesParts, Acceptable, RowsSound, AllParts, TakenBy;
    var files := transfers[id].files;
    RowsOfSound(transfers, rows, id);
    CompleteRowsGenuine(files, RowsOf(rows, id));
    forall other | other in transfers
      ensures SessionStaged(incoming + [other], transfers[other].files, CompleteRows(RowsOf(rows, other)), after,
                TakenBy(incoming + [id], files, verified, after) + taken, hash)
    {
      if other == id {
        CommitKeepsSession(incoming, incoming + [id], files, CompleteRows(RowsOf(rows, id)), verified, after, taken,
          hash);
      } else {
        CommitKeepsOthers(incoming, id, files, other, transfers[other].files, CompleteRows(RowsOf(rows, other)),
          verified, after, taken, hash);
      }
    }
    TakenAreKnown(incoming, transfers, id, verified, after);
  }

  lemma TakenAreKnown(incoming: Path, transfers: map<string, Transfer>, id: string, verified: Tree, after: Tree)
    requires id in transfers
    ensures forall q :: q in TakenBy(incoming + [id], transfers[id].files, verified, after) ==> KnownPart(incoming, transfers, q)
  {
  }

  // Deleting the history forgets what was taken for the deleted sessions; their
  // files stay where they are.
  lemma DeletionKeepsStaging(
      incoming: Path, transfers: map<string, Transfer>, rows: map<string, Rows>, tree: Tree, taken: Taken,
      hash: Bytes -> string,
      kept: set<string>)
    requires StagingSound(incoming, transfers, rows, tree, taken, hash)
    ensures var transfers' := map id | id in transfers && id in kept :: transfers[id];
      var rows' := map id | id in rows && id in kept :: rows[id];
      StagingSound(incoming, transfers', rows', tree, KnownOnly(incoming, transfers', taken), hash)
  {
    hide SessionStaged, Outside;
    var transfers' := map id | id in transfers && id in kept :: transfers[id];
    var rows' := map id | id in rows && id in kept :: rows[id];
    forall id | id in transfers'
      ensures SessionStaged(incoming + [id], transfers'[id].files, CompleteRows(RowsOf(rows', id)), tree,
                KnownOnly(incoming, transfers', taken), hash)
    {
      assert RowsOf(rows', id) == RowsOf(rows, id);
      SurvivorStaged(incoming, transfers', id, CompleteRows(RowsOf(rows, id)), tree, taken, hash);
    }
  }

  lemma SurvivorStaged(
      incoming: Path, transfers: map<string, Transfer>, id: string, complete: set<Part>, tree: Tree, taken: Taken,
      hash: Bytes -> string)
    requires id in transfers && SessionStaged(incoming + [id], transfers[id].files, complete, tree, taken, hash)
    ensures SessionStaged(incoming + [id], transfers[id].files, complete, tree, KnownOnly(incoming, transfers, taken), hash)
  {
    hide Covers;
    forall f | f in transfers[id].files
      ensures PartOf(incoming + [id], f) in KnownOnly(incoming, transfers, taken) <==> PartOf(incoming + [id], f) in taken
    {
      assert KnownPart(incoming, transfers, PartOf(incoming + [id], f));
    }
  }

  ghost function KnownOnly(incoming: Path, transfers: map<string, Transfer>, taken: Taken): Taken {
    map q | q in taken && KnownPart(incoming, transfers, q) :: taken[q]
  }
}
