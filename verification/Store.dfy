// The SQLite transfer store: the canonical rows, the file and chunk tables and
// the four state mirrors, and the simple map of transfers they stand for.
module Store {
  import opened Results
  import opened Transfers
  import opened Sorting

  datatype FileKey = FileKey(transfer: string, file: string)

  datatype Mirror = QueuedMirror | HistoryMirror | FailedMirror | PausedMirror

  datatype MirrorRow =
    | QueuedRow(priority: int, at: int)
    | HistoryRow(status: Status, at: int)
    | FailedRow(error: string, at: int)
    | PausedRow(at: int)

  datatype Tables = Tables(
    transfers: map<string, Transfer>,
    files: map<FileKey, File>,
    chunks: map<ChunkKey, Chunk>,
    mirrors: map<Mirror, map<string, MirrorRow>>)

  const ALL_MIRRORS: seq<Mirror> := [QueuedMirror, HistoryMirror, FailedMirror, PausedMirror]

  const EMPTY := Tables(map[], map[], map[], map m: Mirror | m in ALL_MIRRORS :: map[])

  predicate HasMirrors(t: Tables) {
    forall m :: m in ALL_MIRRORS ==> m in t.mirrors
  }

  // The mirror a status belongs to; Sending, Receiving and Verifying have none.
  function MirrorOf(s: Status): Option<Mirror> {
    match s
    case Queued | Preparing | Connecting | Negotiating | Resuming => Some(QueuedMirror)
    case Completed | Cancelled => Some(HistoryMirror)
    case Failed => Some(FailedMirror)
    case Paused => Some(PausedMirror)
    case Sending | Receiving | Verifying => None
  }

  function RowIn(m: Mirror, t: Transfer): MirrorRow {
    match m
    case QueuedMirror => QueuedRow(t.priority, t.updatedAt)
    case HistoryMirror => HistoryRow(t.status, if t.finishedAt.Some? then t.finishedAt.value else t.updatedAt)
    case FailedMirror => FailedRow(t.error, t.updatedAt)
    case PausedMirror => PausedRow(t.updatedAt)
  }

  // --- the three writes, statement by statement ----------------------------

  // The upsert leaves created_at of an existing row alone.
  function Stored(transfers: map<string, Transfer>, t: Transfer): Transfer {
    if t.id in transfers then t.(createdAt := transfers[t.id].createdAt) else t
  }

  function WithFiles(files: map<FileKey, File>, id: string, added: seq<File>): map<FileKey, File> {
    if added == [] then files
    else
      var last := added[|added| - 1];
      WithFiles(files, id, added[..|added| - 1])[FileKey(id, last.id) := last]
  }

  function Cleared(mirrors: map<Mirror, map<string, MirrorRow>>, done: seq<Mirror>,
      id: string): map<Mirror, map<string, MirrorRow>> {
    map m | m in mirrors :: if m in done then mirrors[m] - {id} else mirrors[m]
  }

  function Mirrored(mirrors: map<Mirror, map<string, MirrorRow>>, t: Transfer): map<Mirror, map<string, MirrorRow>> {
    match MirrorOf(t.status)
    case None => mirrors
    case Some(m) => if m in mirrors then mirrors[m := mirrors[m][t.id := RowIn(m, t)]] else mirrors
  }

  function WithRow(transfers: map<string, Transfer>, t: Transfer): map<string, Transfer> {
    transfers[t.id := Stored(transfers, t).(files := [])]
  }

  function Saved(tables: Tables, t: Transfer): Tables {
    Tables(
      WithRow(tables.transfers, t),
      WithFiles(tables.files, t.id, t.files),
      tables.chunks,
      Mirrored(Cleared(tables.mirrors, ALL_MIRRORS, t.id), t))
  }

  function TerminalIds(transfers: map<string, Transfer>): set<string> {
    set id | id in transfers && Terminal(transfers[id].status)
  }

  function HistoryDeleted(tables: Tables): Tables
    requires HasMirrors(tables)
  {
    var gone := TerminalIds(tables.transfers);
    Tables(
      tables.transfers - gone,
      map k | k in tables.files && k.transfer !in gone :: tables.files[k],
      map k | k in tables.chunks && k.transfer !in gone :: tables.chunks[k],
      tables.mirrors[HistoryMirror := map[]][FailedMirror := map[]])
  }

  function ChunkSaved(tables: Tables, key: ChunkKey, c: Chunk): Tables {
    tables.(chunks := tables.chunks[key := c])
  }

  // steady: no statement and no commit fails.
  class SqliteStore {
    const steady: bool
    var tables: Tables

    constructor (steady: bool)
      ensures tables == EMPTY && this.steady == steady
    {
      this.steady := steady;
      tables := EMPTY;
    }

    // One transaction: either all of it is committed or nothing changes.
    method SaveTransfer(t: Transfer) returns (ok: bool)
      requires HasMirrors(tables)
      modifies this
      ensures tables == if ok then Saved(old(tables), t) else old(tables)
      ensures steady ==> ok
    {
      var tx := tables;
      ghost var was := tables;
      tx := tx.(transfers := tx.transfers[t.id := Stored(tx.transfers, t).(files := [])]);
      var i := 0;
      while i < |t.files|
        invariant 0 <= i <= |t.files|
        invariant tx == Tables(WithRow(was.transfers, t), WithFiles(was.files, t.id, t.files[..i]), was.chunks, was.mirrors)
      {
        assert t.files[..i + 1][..i] == t.files[..i];
        tx := tx.(files := tx.files[FileKey(t.id, t.files[i].id) := t.files[i]]);
        var failed: bool := *;
        if failed && !steady {
          return false;
        }
        i := i + 1;
      }
      assert t.files[..i] == t.files;
      var mirrors := ClearMirrors(tx.mirrors, t.id);
      tx := tx.(mirrors := mirrors);
      match MirrorOf(t.status) {
        case None =>
        case Some(m) => tx := tx.(mirrors := tx.mirrors[m := tx.mirrors[m][t.id := RowIn(m, t)]]);
      }
      var commitFailed: bool := *;
      if commitFailed && !steady {
        return false;
      }
      tables := tx;
      return true;
    }

    // DELETE FROM each mirror table in turn.
    method ClearMirrors(mirrors: map<Mirror, map<string, MirrorRow>>, id: string)
      returns (r: map<Mirror, map<string, MirrorRow>>)
      requires forall m :: m in ALL_MIRRORS ==> m in mirrors
      ensures r == Cleared(mirrors, ALL_MIRRORS, id)
    {
      r := mirrors;
      for table := 0 to |ALL_MIRRORS|
        invariant r == Cleared(mirrors, ALL_MIRRORS[..table], id)
      {
        var m := ALL_MIRRORS[table];
        assert ALL_MIRRORS[..table + 1] == ALL_MIRRORS[..table] + [m];
        r := r[m := r[m] - {id}];
      }
      assert ALL_MIRRORS[..|ALL_MIRRORS|] == ALL_MIRRORS;
    }

    // The foreign key refuses chunks of files the store does not know.
    method SaveChunk(key: ChunkKey, c: Chunk) returns (ok: bool)
      modifies this
      ensures ok ==> FileKey(key.transfer, key.file) in old(tables).files
      ensures tables == if ok then ChunkSaved(old(tables), key, c) else old(tables)
      ensures steady && FileKey(key.transfer, key.file) in old(tables).files ==> ok
    {
      var failed: bool := *;
      if (failed && !steady) || FileKey(key.transfer, key.file) !in tables.files {
        return false;
      }
      tables := tables.(chunks := tables.chunks[key := c]);
      return true;
    }

    method DeleteHistory() returns (ok: bool)
      requires HasMirrors(tables)
      modifies this
      ensures tables == if ok then HistoryDeleted(old(tables)) else old(tables)
      ensures steady ==> ok
    {
      var tx := tables;
      var gone := set id | id in tx.transfers && Terminal(tx.transfers[id].status);
      tx := tx.(chunks := map k | k in tx.chunks && k.transfer !in gone :: tx.chunks[k]);
      tx := tx.(files := map k | k in tx.files && k.transfer !in gone :: tx.files[k]);
      tx := tx.(transfers := tx.transfers - gone);
      tx := tx.(mirrors := tx.mirrors[HistoryMirror := map[]]);
      tx := tx.(mirrors := tx.mirrors[FailedMirror := map[]]);
      var commitFailed: bool := *;
      if commitFailed && !steady {
        return false;
      }
      tables := tx;
      return true;
    }

    // SELECT the row, then its files ordered by relative path.
    method GetTransfer(id: string) returns (r: Option<Transfer>)
      requires DistinctPaths(tables.files, id) && KeyedById(tables.files)
      ensures r.None? <==> id !in tables.transfers
      ensures r.Some? ==> Reads(tables, id, r.value)
    {
      if id !in tables.transfers {
        return None;
      }
      var files: seq<File> := [];
      var pending := set k | k in tables.files && k.transfer == id;
      ghost var all := pending;
      while pending != {}
        invariant pending <= all
        invariant forall f :: f in files <==> FileKey(id, f.id) in all - pending && tables.files[FileKey(id, f.id)] == f
        invariant PathSorted(files)
        decreases |pending|
      {
        var k :| k in pending;
        var row := tables.files[k];
        assert k == FileKey(id, row.id);
        forall f | f in files ensures f.path != row.path {
          assert FileKey(id, f.id) in all - pending;
        }
        InsertByPath(row, files);
        files := InsertPath(row, files);
        pending := pending - {k};
      }
      return Some(tables.transfers[id].(files := files));
    }
  }

  // --- reading a transfer back ----------------------------------------------

  ghost predicate PathSorted(files: seq<File>) {
    forall i, j :: 0 <= i < j < |files| ==> Less(files[i].path, files[j].path)
  }

  ghost predicate DistinctPaths(files: map<FileKey, File>, id: string) {
    forall j, k :: j in files && k in files && j.transfer == id && k.transfer == id && j != k
      ==> files[j].path != files[k].path
  }

  ghost predicate KeyedById(files: map<FileKey, File>) {
    forall k :: k in files ==> files[k].id == k.file
  }

  function InsertPath(f: File, files: seq<File>): seq<File> {
    if files == [] || Less(f.path, files[0].path) then [f] + files
    else [files[0]] + InsertPath(f, files[1..])
  }

  lemma {:induction false} InsertByPath(f: File, files: seq<File>)
    requires PathSorted(files) && forall g :: g in files ==> g.path != f.path
    ensures PathSorted(InsertPath(f, files))
    ensures forall g :: g in InsertPath(f, files) <==> g == f || g in files
  {
    if files == [] {
    } else if Less(f.path, files[0].path) {
      forall j | 1 <= j < |files| ensures Less(f.path, files[j].path) {
        LessTransitive(f.path, files[0].path, files[j].path);
      }
    } else {
      LessTotal(f.path, files[0].path);
      assert files == [files[0]] + files[1..];
      InsertByPath(f, files[1..]);
      var rest := InsertPath(f, files[1..]);
      forall j | 0 <= j < |rest| ensures Less(files[0].path, rest[j].path) {
        assert rest[j] in rest;
      }
    }
  }

  ghost predicate Reads(tables: Tables, id: string, t: Transfer) {
    && id in tables.transfers
    && t == tables.transfers[id].(files := t.files)
    && PathSorted(t.files)
    && forall f :: f in t.files <==> FileKey(id, f.id) in tables.files && tables.files[FileKey(id, f.id)] == f
  }

  lemma TailMembers(a: seq<File>)
    requires PathSorted(a) && a != []
    ensures PathSorted(a[1..]) && forall f :: f in a[1..] <==> f in a && f != a[0]
  {
    assert a == [a[0]] + a[1..];
    forall f | f in a[1..] ensures f != a[0] {
      LessTotal(f.path, f.path);
    }
  }

  // Files sorted strictly by path are determined by their set.
  lemma {:induction false} SortedUnique(a: seq<File>, b: seq<File>)
    requires PathSorted(a) && PathSorted(b) && forall f :: f in a <==> f in b
    ensures a == b
  {
    assert b != [] ==> b[0] in b;
    if a != [] {
      assert a[0] in b;
      assert b[0] in a;
      LessTotal(a[0].path, b[0].path);
      TailMembers(a);
      TailMembers(b);
      assert a[0] == b[0];
      SortedUnique(a[1..], b[1..]);
    }
  }

  // --- the mirrors and the foreign keys -------------------------------------

  predicate InMirror(tables: Tables, m: Mirror, id: string) {
    m in tables.mirrors && id in tables.mirrors[m]
  }

  ghost predicate MirrorsAgree(tables: Tables) {
    && HasMirrors(tables)
    && (forall m, id :: InMirror(tables, m, id) <==>
          id in tables.transfers && MirrorOf(tables.transfers[id].status) == Some(m))
    && (forall m, id :: InMirror(tables, m, id) ==>
          tables.mirrors[m][id] == RowIn(m, tables.transfers[id]))
  }

  ghost predicate KeysAgree(tables: Tables) {
    && (forall id :: id in tables.transfers ==> tables.transfers[id].id == id && tables.transfers[id].files == [])
    && KeyedById(tables.files)
    && (forall k :: k in tables.files ==> k.transfer in tables.transfers)
    && (forall k :: k in tables.chunks ==> FileKey(k.transfer, k.file) in tables.files)
  }

  datatype Write = Save(transfer: Transfer) | SaveRow(key: ChunkKey, chunk: Chunk) | Purge

  function Written(tables: Tables, w: Write): (r: Tables)
    requires HasMirrors(tables)
    ensures HasMirrors(r)
  {
    match w
    case Save(t) => Saved(tables, t)
    case SaveRow(k, c) => if FileKey(k.transfer, k.file) in tables.files then ChunkSaved(tables, k, c) else tables
    case Purge => HistoryDeleted(tables)
  }

  // The tables after a sequence of committed writes (a failed one changes nothing).
  function After(writes: seq<Write>): (r: Tables)
    ensures HasMirrors(r)
  {
    if writes == [] then EMPTY else Written(After(writes[..|writes| - 1]), writes[|writes| - 1])
  }

  ghost predicate Adds(id: string, added: seq<File>, k: FileKey) {
    k.transfer == id && exists f :: f in added && f.id == k.file
  }

  lemma {:induction false} WithFilesContents(files: map<FileKey, File>, id: string, added: seq<File>)
    ensures forall k :: k in WithFiles(files, id, added) <==> k in files || Adds(id, added, k)
    ensures forall k | k in files && !Adds(id, added, k) :: WithFiles(files, id, added)[k] == files[k]
    ensures forall k | Adds(id, added, k) ::
      WithFiles(files, id, added)[k].id == k.file && WithFiles(files, id, added)[k] in added
  {
    if added != [] {
      var front, last := added[..|added| - 1], added[|added| - 1];
      WithFilesContents(files, id, front);
      assert added == front + [last];
      forall k ensures Adds(id, added, k) <==> Adds(id, front, k) || k == FileKey(id, last.id) {
        if k == FileKey(id, last.id) {
          assert last in added;
        }
      }
    }
  }

  lemma KnownMirror(tables: Tables, m: Mirror)
    requires HasMirrors(tables)
    ensures m in ALL_MIRRORS && m in tables.mirrors
  {
    match m { case QueuedMirror => case HistoryMirror => case FailedMirror => case PausedMirror => }
    assert m == ALL_MIRRORS[0] || m == ALL_MIRRORS[1] || m == ALL_MIRRORS[2] || m == ALL_MIRRORS[3];
  }

  lemma SavedMirror(tables: Tables, t: Transfer, m: Mirror)
    requires HasMirrors(tables)
    ensures m in tables.mirrors && m in Saved(tables, t).mirrors
    ensures Saved(tables, t).mirrors[m] ==
            if MirrorOf(t.status) == Some(m) then (tables.mirrors[m] - {t.id})[t.id := RowIn(m, t)]
            else tables.mirrors[m] - {t.id}
  {
    KnownMirror(tables, m);
    assert Cleared(tables.mirrors, ALL_MIRRORS, t.id)[m] == tables.mirrors[m] - {t.id};
  }

  lemma SaveAgrees(tables: Tables, t: Transfer)
    requires MirrorsAgree(tables)
    ensures MirrorsAgree(Saved(tables, t))
  {
    var after := Saved(tables, t);
    forall m | m in ALL_MIRRORS ensures m in after.mirrors {
      SavedMirror(tables, t, m);
    }
    forall m, id
      ensures InMirror(after, m, id) <==> id in after.transfers && MirrorOf(after.transfers[id].status) == Some(m)
      ensures InMirror(after, m, id) ==> after.mirrors[m][id] == RowIn(m, after.transfers[id])
    {
      SavedMirror(tables, t, m);
      assert InMirror(tables, m, id) <==> id in tables.transfers && MirrorOf(tables.transfers[id].status) == Some(m);
    }
  }

  lemma PurgeAgrees(tables: Tables)
    requires MirrorsAgree(tables)
    ensures MirrorsAgree(HistoryDeleted(tables))
  {
    var after := HistoryDeleted(tables);
    forall m, id
      ensures InMirror(after, m, id) <==> id in after.transfers && MirrorOf(after.transfers[id].status) == Some(m)
      ensures InMirror(after, m, id) ==> after.mirrors[m][id] == RowIn(m, after.transfers[id])
    {
      assert InMirror(tables, m, id) <==> id in tables.transfers && MirrorOf(tables.transfers[id].status) == Some(m);
    }
  }

  lemma SaveKeys(tables: Tables, t: Transfer)
    requires KeysAgree(tables)
    ensures KeysAgree(Saved(tables, t))
  {
    WithFilesContents(tables.files, t.id, t.files);
    var after := Saved(tables, t);
    forall k | k in after.files ensures after.files[k].id == k.file && k.transfer in after.transfers {
      if !Adds(t.id, t.files, k) {
        assert k in tables.files;
      }
    }
  }

  lemma WriteKeepsAgreement(tables: Tables, w: Write)
    requires MirrorsAgree(tables) && KeysAgree(tables)
    ensures MirrorsAgree(Written(tables, w)) && KeysAgree(Written(tables, w))
  {
    match w
    case Save(t) => SaveAgrees(tables, t); SaveKeys(tables, t);
    case SaveRow(k, c) =>
      forall m, id ensures InMirror(Written(tables, w), m, id) == InMirror(tables, m, id) {}
    case Purge => PurgeAgrees(tables);
  }

  // After any sequence of saves, chunk rows and history deletions, every ID is
  // in exactly the mirror its status dictates, with that status's data.
  lemma {:induction false} MirrorsAlwaysAgree(writes: seq<Write>)
    ensures MirrorsAgree(After(writes)) && KeysAgree(After(writes))
    decreases |writes|
  {
    if writes == [] {
      forall m, id ensures !InMirror(EMPTY, m, id) {}
    } else {
      MirrorsAlwaysAgree(writes[..|writes| - 1]);
      WriteKeepsAgreement(After(writes[..|writes| - 1]), writes[|writes| - 1]);
    }
  }

  // The row of an ID in a mirror table.
  function Row(tables: Tables, m: Mirror, id: string): Option<MirrorRow> {
    if InMirror(tables, m, id) then Some(tables.mirrors[m][id]) else None
  }

  // So the four tables say, column by column.
  lemma MirrorsAreRead(writes: seq<Write>, id: string)
    ensures var tables := After(writes);
      var (queued, history) := (Row(tables, QueuedMirror, id), Row(tables, HistoryMirror, id));
      var (failed, paused) := (Row(tables, FailedMirror, id), Row(tables, PausedMirror, id));
      if id in tables.transfers then
        var t := tables.transfers[id];
        && queued == (if t.status in {Queued, Preparing, Connecting, Negotiating, Resuming}
                      then Some(QueuedRow(t.priority, t.updatedAt)) else None)
        && history == (if t.status !in {Completed, Cancelled} then None
                       else if t.finishedAt == None then Some(HistoryRow(t.status, t.updatedAt))
                       else Some(HistoryRow(t.status, t.finishedAt.value)))
        && failed == (if t.status == Status.Failed then Some(FailedRow(t.error, t.updatedAt)) else None)
        && paused == (if t.status == Paused then Some(PausedRow(t.updatedAt)) else None)
      else
        queued == history == failed == paused == None
  {
    hide After, HasMirrors, InMirror;
    MirrorsAlwaysAgree(writes);
    OneRow(After(writes), QueuedMirror, id);
    OneRow(After(writes), HistoryMirror, id);
    OneRow(After(writes), FailedMirror, id);
    OneRow(After(writes), PausedMirror, id);
    hide MirrorsAgree, KeysAgree;
  }

  lemma OneRow(tables: Tables, m: Mirror, id: string)
    requires MirrorsAgree(tables)
    ensures Row(tables, m, id) ==
      if id in tables.transfers && MirrorOf(tables.transfers[id].status) == Some(m)
      then Some(RowIn(m, tables.transfers[id])) else None
  {
    assert InMirror(tables, m, id) <==> id in tables.transfers && MirrorOf(tables.transfers[id].status) == Some(m);
  }

  lemma SaveKeepsTime(tables: Tables, w: Write, id: string)
    requires HasMirrors(tables) && id in tables.transfers && !w.Purge?
    ensures id in Written(tables, w).transfers
    ensures Written(tables, w).transfers[id].createdAt == tables.transfers[id].createdAt
    ensures w.Save? && w.transfer.id == id ==>
      Written(tables, w).transfers[id] == w.transfer.(files := [], createdAt := tables.transfers[id].createdAt)
  {
    hide HasMirrors, WithFiles, Mirrored, Cleared;
  }

  // A transfer keeps the creation time of its first save until the history is
  // deleted; all else is as saved last.
  lemma {:induction false} CreationIsKept(writes: seq<Write>, more: seq<Write>, id: string)
    requires id in After(writes).transfers && Purge !in more
    ensures id in After(writes + more).transfers
    ensures After(writes + more).transfers[id].createdAt == After(writes).transfers[id].createdAt
    ensures more != [] && more[|more| - 1].Save? && more[|more| - 1].transfer.id == id ==>
      var t := more[|more| - 1].transfer;
      After(writes + more).transfers[id] == t.(files := [], createdAt := After(writes).transfers[id].createdAt)
    decreases |more|
  {
    hide Written, HasMirrors;
    if more == [] {
      assert writes + more == writes;
    } else {
      var front := more[..|more| - 1];
      CreationIsKept(writes, front, id);
      assert (writes + more)[..|writes + more| - 1] == writes + front;
      SaveKeepsTime(After(writes + front), more[|more| - 1], id);
    }
  }

  // A chunk row of a known file is stored, one of an unknown file is refused, and
  // nothing else changes.
  lemma ChunkIsSaved(writes: seq<Write>, key: ChunkKey, c: Chunk)
    ensures var (before, after) := (After(writes), After(writes + [SaveRow(key, c)]));
      && after == before.(chunks := after.chunks)
      && (FileKey(key.transfer, key.file) in before.files ==> after.chunks == before.chunks[key := c])
      && (FileKey(key.transfer, key.file) !in before.files ==> after == before)
  {
    assert (writes + [SaveRow(key, c)])[..|writes|] == writes;
  }

  lemma WriteKeepsChunk(tables: Tables, w: Write, key: ChunkKey)
    requires HasMirrors(tables) && key in tables.chunks && !w.Purge? && (w.SaveRow? ==> w.key != key)
    ensures key in Written(tables, w).chunks && Written(tables, w).chunks[key] == tables.chunks[key]
  {
    hide HasMirrors, WithFiles, Mirrored, Cleared, WithRow;
  }

  // It stays as it is until it is saved again or the history is deleted.
  lemma {:induction false} ChunkIsKept(writes: seq<Write>, more: seq<Write>, key: ChunkKey)
    requires key in After(writes).chunks && Purge !in more
    requires forall w :: w in more && w.SaveRow? ==> w.key != key
    ensures key in After(writes + more).chunks && After(writes + more).chunks[key] == After(writes).chunks[key]
    decreases |more|
  {
    hide HasMirrors, Written;
    if more == [] {
      assert writes + more == writes;
    } else {
      var front := more[..|more| - 1];
      ChunkIsKept(writes, front, key);
      assert (writes + more)[..|writes + more| - 1] == writes + front;
      assert more[|more| - 1] in more;
      WriteKeepsChunk(After(writes + front), more[|more| - 1], key);
    }
  }

  // Everything that belongs to the given transfers, in every table.
  ghost function Restrict(tables: Tables, keep: set<string>): Tables {
    Tables(
      map id | id in tables.transfers && id in keep :: tables.transfers[id],
      map k | k in tables.files && k.transfer in keep :: tables.files[k],
      map k | k in tables.chunks && k.transfer in keep :: tables.chunks[k],
      map m | m in tables.mirrors :: map id | id in tables.mirrors[m] && id in keep :: tables.mirrors[m][id])
  }

  lemma PurgedMirror(tables: Tables, m: Mirror)
    requires MirrorsAgree(tables)
    ensures m in tables.mirrors && m in HistoryDeleted(tables).mirrors
    ensures HistoryDeleted(tables).mirrors[m]
            == Restrict(tables, tables.transfers.Keys - TerminalIds(tables.transfers)).mirrors[m]
  {
    KnownMirror(tables, m);
    var live := tables.transfers.Keys - TerminalIds(tables.transfers);
    forall id | id in tables.mirrors[m]
      ensures id in tables.transfers && (id in live <==> m != HistoryMirror && m != FailedMirror)
    {
      assert InMirror(tables, m, id);
    }
  }

  // DeleteHistory empties two mirror tables outright; given the agreement that
  // is the same as removing the terminal transfers from all seven tables.
  lemma DeleteHistoryExact(tables: Tables)
    requires MirrorsAgree(tables) && KeysAgree(tables)
    ensures HistoryDeleted(tables) == Restrict(tables, tables.transfers.Keys - TerminalIds(tables.transfers))
  {
    var live := tables.transfers.Keys - TerminalIds(tables.transfers);
    var after, want := HistoryDeleted(tables), Restrict(tables, live);
    assert after.transfers == want.transfers;
    assert after.files == want.files;
    forall k | k in tables.chunks ensures k.transfer in tables.transfers {
      assert FileKey(k.transfer, k.file) in tables.files;
    }
    assert after.chunks == want.chunks;
    forall m ensures m in after.mirrors && m in want.mirrors && after.mirrors[m] == want.mirrors[m] {
      PurgedMirror(tables, m);
    }
    assert after.mirrors == want.mirrors;
  }

  // --- the tables stand for a plain map of transfers ------------------------

  ghost predicate Represents(tables: Tables, view: map<string, Transfer>) {
    && view.Keys == tables.transfers.Keys
    && forall id :: id in view ==> Reads(tables, id, view[id])
  }

  ghost predicate Canonical(t: Transfer) {
    PathSorted(t.files) && DistinctIds(t.files)
  }

  ghost predicate KeepsFiles(view: map<string, Transfer>, t: Transfer) {
    t.id in view ==> forall f :: f in view[t.id].files ==> exists g :: g in t.files && g.id == f.id
  }

  lemma SavedReadsBack(tables: Tables, view: map<string, Transfer>, t: Transfer)
    requires KeysAgree(tables) && Represents(tables, view) && Canonical(t) && KeepsFiles(view, t)
    ensures Reads(Saved(tables, t), t.id, Stored(view, t))
  {
    WithFilesContents(tables.files, t.id, t.files);
    var files := Saved(tables, t).files;
    forall f ensures f in t.files <==> FileKey(t.id, f.id) in files && files[FileKey(t.id, f.id)] == f {
      var k := FileKey(t.id, f.id);
      if f in t.files {
        assert Adds(t.id, t.files, k);
        FindFileMember(t.files, f);
        FindFileMember(t.files, files[k]);
      } else if k in files && files[k] == f {
        StaleRowImpossible(tables, view, t, f);
      }
    }
    if t.id in view {
      assert Reads(tables, t.id, view[t.id]);
    }
  }

  lemma StaleRowImpossible(tables: Tables, view: map<string, Transfer>, t: Transfer, f: File)
    requires KeysAgree(tables) && Represents(tables, view) && KeepsFiles(view, t)
    requires FileKey(t.id, f.id) in tables.files
    ensures exists g :: g in t.files && g.id == f.id
  {
    var row := tables.files[FileKey(t.id, f.id)];
    assert Reads(tables, t.id, view[t.id]);
    assert row in view[t.id].files;
  }

  lemma OthersReadBack(tables: Tables, t: Transfer, id: string, u: Transfer)
    requires id != t.id && Reads(tables, id, u)
    ensures Reads(Saved(tables, t), id, u)
  {
    WithFilesContents(tables.files, t.id, t.files);
    var files := Saved(tables, t).files;
    forall f ensures f in u.files <==> FileKey(id, f.id) in files && files[FileKey(id, f.id)] == f {
      assert !Adds(t.id, t.files, FileKey(id, f.id));
    }
  }

  // Saving a transfer whose manifest has not lost a file reads back as saved,
  // and every other transfer reads back as before.
  lemma SaveRefines(tables: Tables, view: map<string, Transfer>, t: Transfer)
    requires KeysAgree(tables) && Represents(tables, view) && Canonical(t) && KeepsFiles(view, t)
    ensures Represents(Saved(tables, t), view[t.id := Stored(view, t)])
  {
    forall id | id in view && id != t.id ensures Reads(Saved(tables, t), id, view[id]) {
      OthersReadBack(tables, t, id, view[id]);
    }
    SavedReadsBack(tables, view, t);
  }

  lemma PurgeRefines(tables: Tables, view: map<string, Transfer>)
    requires HasMirrors(tables) && Represents(tables, view)
    ensures Represents(HistoryDeleted(tables), view - TerminalIds(view))
  {
    var after := HistoryDeleted(tables);
    assert TerminalIds(view) == TerminalIds(tables.transfers) by {
      forall id | id in view ensures view[id].status == tables.transfers[id].status {
        assert Reads(tables, id, view[id]);
      }
    }
    forall id | id in view - TerminalIds(view) ensures Reads(after, id, view[id]) {
      forall f ensures f in view[id].files <==> FileKey(id, f.id) in after.files && after.files[FileKey(id, f.id)] == f {
        assert Reads(tables, id, view[id]);
      }
    }
  }

  // What GetTransfer returns is what the map holds.
  lemma ReadMatchesView(tables: Tables, view: map<string, Transfer>, id: string, t: Transfer)
    requires Represents(tables, view) && Reads(tables, id, t)
    ensures t == view[id]
  {
    SortedUnique(t.files, view[id].files);
  }
}
