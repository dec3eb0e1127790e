// What a session's progress counts: the bytes of its complete chunks, so that it
// never falls.
module Accounts {
  import opened Results
  import opened Transfers
  import opened Chunking
  import opened Sums
  import opened Lifecycle
  import opened Receiving
  import opened Sessions
  import opened Approval
  import opened Committing
  import opened Staging

  // The bytes of the complete chunks.
  ghost function Counted(files: seq<File>, rows: Rows): nat {
    Total(CompleteRows(rows), Weight(files))
  }

  // No session claims more than was counted.
  ghost predicate Accounted(transfers: map<string, Transfer>, rows: map<string, Rows>) {
    forall id :: id in transfers ==> transfers[id].progress <= Counted(transfers[id].files, RowsOf(rows, id))
  }

  ghost predicate NotLess(before: map<string, Transfer>, after: map<string, Transfer>) {
    forall id :: id in before && id in after ==> before[id].progress <= after[id].progress
  }

  lemma RecordAccounted(transfers: map<string, Transfer>, rows: map<string, Rows>, t: Transfer)
    requires Accounted(transfers, rows) && t.progress <= Counted(t.files, RowsOf(rows, t.id))
    requires t.id in transfers ==> transfers[t.id].progress <= t.progress
    ensures Accounted(transfers[t.id := t], rows) && NotLess(transfers, transfers[t.id := t])
  {
    hide Counted;
  }

  lemma SameAccount(transfers: map<string, Transfer>, rows: map<string, Rows>, t: Transfer)
    requires Accounted(transfers, rows) && t.id in transfers
    requires t.files == transfers[t.id].files && t.progress == transfers[t.id].progress
    ensures Accounted(transfers[t.id := t], rows) && NotLess(transfers, transfers[t.id := t])
  {
    hide Counted;
    RecordAccounted(transfers, rows, t);
  }

  // A chunk row, new or again, never lowers the count.
  lemma RowCounts(files: seq<File>, rows: map<string, Rows>, id: string, other: string, part: Part, row: Chunk)
    requires row.status.ChunkComplete?
    ensures Counted(files, RowsOf(rows, other)) <= Counted(files, RowsOf(RowAdded(rows, id, part, row), other))
  {
    ProgressMonotone(files, CompleteRows(RowsOf(rows, other)),
      CompleteRows(RowsOf(RowAdded(rows, id, part, row), other)));
  }

  lemma RowAccounted(transfers: map<string, Transfer>, rows: map<string, Rows>, id: string, part: Part, row: Chunk)
    requires Accounted(transfers, rows) && row.status.ChunkComplete?
    ensures Accounted(transfers, RowAdded(rows, id, part, row))
  {
    hide Counted, RowAdded, RowsOf;
    forall other | other in transfers
      ensures transfers[other].progress <= Counted(transfers[other].files, RowsOf(RowAdded(rows, id, part, row), other))
    {
      RowCounts(transfers[other].files, rows, id, other, part, row);
    }
  }

  // Destinations do not count.
  lemma DestinedCounts(files: seq<File>, root: Path, rows: Rows)
    ensures Counted(Destined(files, root), rows) == Counted(files, rows)
  {
    hide Destined;
    forall p | p in CompleteRows(rows) ensures Weight(Destined(files, root))(p) == Weight(files)(p) {
      DestinedFind(files, root, p.file);
    }
    TotalAgree(CompleteRows(rows), Weight(Destined(files, root)), Weight(files));
  }

  lemma ApprovalAccounted(transfers: map<string, Transfer>, rows: map<string, Rows>, t: Transfer, root: Path)
    requires Accounted(transfers, rows) && t.id in transfers && t.progress == transfers[t.id].progress
    requires t.files == Destined(transfers[t.id].files, root)
    ensures Accounted(transfers[t.id := t], rows) && NotLess(transfers, transfers[t.id := t])
  {
    hide Counted, Destined;
    DestinedCounts(transfers[t.id].files, root, RowsOf(rows, t.id));
    RecordAccounted(transfers, rows, t);
  }

  lemma DeletionAccounted(transfers: map<string, Transfer>, rows: map<string, Rows>, kept: set<string>)
    requires Accounted(transfers, rows)
    ensures var transfers' := map id | id in transfers && id in kept :: transfers[id];
      var rows' := map id | id in rows && id in kept :: rows[id];
      Accounted(transfers', rows') && NotLess(transfers, transfers')
  {
    hide Counted;
    var transfers' := map id | id in transfers && id in kept :: transfers[id];
    var rows' := map id | id in rows && id in kept :: rows[id];
    forall id | id in transfers' ensures RowsOf(rows', id) == RowsOf(rows, id) {}
  }

  // No lifecycle call touches the progress.
  lemma OutcomeAccounted(
      before: map<string, Transfer>, after: map<string, Transfer>, rows: map<string, Rows>, id: string, call: Call,
      now: int, r: Result<Transfer, Failure>)
    requires Accounted(before, rows) && Outcome(before, after, id, call, now, r)
    requires id in before ==> before[id].id == id
    requires !call.Accept? && !call.Chunk? && !call.Finalize?
    ensures Accounted(after, rows) && NotLess(before, after)
  {
    hide Counted, Called;
    if id in before && after != before {
      CalledKeepsFiles(before[id], call, now);
      CalledKeepsProgress(before[id], call, now);
      SameAccount(before, rows, Called(before[id], call, now).value);
    }
  }

  lemma CalledKeepsProgress(t: Transfer, call: Call, now: int)
    requires !call.Chunk? && !call.Finalize?
    ensures Called(t, call, now).Some? ==> Called(t, call, now).value.progress == t.progress
  {
  }

  // Nor does the recovery after a restart, however far it got.
  lemma RecoveryAccounted(before: map<string, Transfer>, after: map<string, Transfer>, rows: map<string, Rows>, now: int)
    requires after.Keys == before.Keys
    requires forall id :: id in after ==> after[id] == Recovered(before[id], now) || after[id] == before[id]
    ensures Accounted(before, rows) ==> Accounted(after, rows) && NotLess(before, after)
  {
    hide Counted;
  }

  // A session all of whose files have their chunks counted has counted its size.
  lemma VerifiedCounts(files: seq<File>, size: int, rows: Rows)
    requires Acceptable(files) && RowsSound(files, rows) && size == TotalSize(files)
    requires forall f :: f in files && !f.directory ==> |CompleteIndexes(CompleteRows(rows), f.id)| == f.chunkCount
    ensures CompleteRows(rows) == AllParts(files) && Counted(files, rows) == size
  {
    hide Weight, AllParts, CompleteIndexes, RowsSound;
    CompleteRowsGenuine(files, rows);
    forall p | p in AllParts(files) ensures p in CompleteRows(rows) {
      InAllParts(files, p);
      var f :| f in files && f.id == p.file && 0 <= p.index < f.chunkCount;
      FileCounted(files, f, CompleteRows(rows));
    }
    ProgressExact(files, size, CompleteRows(rows));
  }

  lemma FileCounted(files: seq<File>, f: File, complete: set<Part>)
    requires Acceptable(files) && f in files && complete <= AllParts(files)
    requires !f.directory ==> |CompleteIndexes(complete, f.id)| == f.chunkCount
    ensures forall i :: 0 <= i < f.chunkCount ==> Part(f.id, i) in complete
  {
    hide AllParts, CompleteIndexes;
    assert WellFormedFile(f);
    FittingCountCovers(f.size, f.chunkSize);
    CountImpliesComplete(files, complete, f);
  }

  lemma CountedWithin(files: seq<File>, size: int, rows: Rows)
    requires Acceptable(files) && RowsSound(files, rows) && size == TotalSize(files)
    ensures 0 <= Counted(files, rows) <= size
    ensures Counted(files, rows) == size <==> CompleteRows(rows) == AllParts(files)
  {
    hide AllParts, Weight;
    CompleteRowsGenuine(files, rows);
    ProgressExact(files, size, CompleteRows(rows));
  }
}
