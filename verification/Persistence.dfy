// The service on its store: whatever sessions are offered, changed and deleted,
// the tables read back exactly the records the service works with.
module Persistence {
  import opened Results
  import opened Transfers
  import opened Chunking
  import opened Lifecycle
  import opened Sessions
  import opened Offers
  import opened Approval
  import opened Committing
  import opened Store
  import Manifests

  // A save of a session the store already has: its files are the same, or got
  // their destinations from an approval.
  ghost predicate SavesOver(before: Transfer, t: Transfer) {
    && t.id == before.id && t.size == before.size && t.createdAt == before.createdAt
    && (t.files == before.files || exists root :: t.files == Destined(before.files, root))
  }

  // Every lifecycle call saves in that way, and so does the status Verifying
  // that Finalize stores first.
  lemma CallSavesOver(t: Transfer, call: Call, now: int)
    requires call.Accept? ==> exists root :: call.files == Destined(t.files, root)
    ensures Called(t, call, now).Some? ==> SavesOver(t, Called(t, call, now).value)
    ensures SavesOver(t, t.(status := Verifying, updatedAt := now))
  {
    hide Destined, Terminal;
  }

  datatype Event =
    | Added(offer: Offer, tokenHash: string, now: int)
    | Updated(session: Transfer)
    | RowStored(key: ChunkKey, chunk: Chunk)
    | HistoryGone

  ghost predicate Lawful(lib: Manifests.Library, held: map<string, Transfer>, e: Event) {
    match e
    case Added(offer, _, _) =>
      offer.transferId !in held && Manifests.ManifestValid(lib, offer.files, offer.chunkSize, offer.size) && Unambiguous(offer)
    case Updated(t) => t.id in held && SavesOver(held[t.id], t)
    case RowStored(key, _) => key.transfer in held && Part(key.file, key.index) in AllParts(held[key.transfer].files)
    case HistoryGone => true
  }

  // The service's records before and after, and the event that leads from the one
  // to the other, if any.
  ghost predicate Makes(
      lib: Manifests.Library, before: map<string, Transfer>, after: map<string, Transfer>, e: Option<Event>)
  {
    if e.None? then after == before else Lawful(lib, before, e.value) && after == Holding(before, e.value)
  }

  // The records the service holds after an event.
  function Holding(held: map<string, Transfer>, e: Event): map<string, Transfer> {
    match e
    case Added(offer, tokenHash, now) => held[offer.transferId := Offered(offer, tokenHash, now)]
    case Updated(t) => held[t.id := t]
    case RowStored(_, _) => held
    case HistoryGone => held - TerminalIds(held)
  }

  // The write it makes.
  function WriteOf(e: Event): Write {
    match e
    case Added(offer, tokenHash, now) => Save(Offered(offer, tokenHash, now))
    case Updated(t) => Save(t)
    case RowStored(key, chunk) => SaveRow(key, chunk)
    case HistoryGone => Purge
  }

  // --- what the service's methods promise is such an event ------------------------------

  lemma OutcomeIsEvent(lib: Manifests.Library, before: map<string, Transfer>, after: map<string, Transfer>, id: string,
      call: Call, now: int, r: Result<Transfer, Failure>) returns (e: Option<Event>)
    requires Outcome(before, after, id, call, now, r) && (id in before ==> before[id].id == id)
    requires call.Accept? && id in before ==> exists root :: call.files == Destined(before[id].files, root)
    ensures Makes(lib, before, after, e)
  {
    hide SavesOver, Called;
    e := None;
    if after != before {
      CallSavesOver(before[id], call, now);
      e := Some(Updated(Called(before[id], call, now).value));
      SameId(before[id], e.value.session);
    }
  }

  lemma SameId(t: Transfer, u: Transfer)
    requires SavesOver(t, u)
    ensures u.id == t.id
  {
  }

  // ReceiveOffer of a new session.
  lemma OfferIsEvent(
      lib: Manifests.Library, before: map<string, Transfer>, offer: Offer, peer: Standing, tokenHash: string, now: int)
    requires offer.transferId !in before && WellOffered(lib, offer, peer) && Unambiguous(offer)
    ensures Makes(lib, before, before[offer.transferId := Offered(offer, tokenHash, now)], Some(Added(offer, tokenHash, now)))
  {
  }

  // ReceiveChunk, Finalize and Recover.
  lemma RecordIsEvent(lib: Manifests.Library, before: map<string, Transfer>, t: Transfer, progress: int,
      message: string, now: int)
    requires t.id in before && before[t.id] == t
    ensures Makes(lib, before, before[t.id := Refreshed(t, progress, now)], Some(Updated(Refreshed(t, progress, now))))
    ensures var u := t.(status := Verifying, updatedAt := now); Makes(lib, before, before[t.id := u], Some(Updated(u)))
    ensures var u := Finished(t, Failed, message, now); Makes(lib, before, before[t.id := u], Some(Updated(u)))
    ensures var u := Finished(t.(progress := t.size), Completed, "", now);
      Makes(lib, before, before[t.id := u], Some(Updated(u)))
    ensures Makes(lib, before, before[t.id := Recovered(t, now)], Some(Updated(Recovered(t, now))))
  {
  }

  lemma DeletionIsEvent(lib: Manifests.Library, before: map<string, Transfer>)
    ensures Makes(lib, before, Live(before), Some(HistoryGone))
  {
  }

  function Held(events: seq<Event>): map<string, Transfer> {
    if events == [] then map[] else Holding(Held(events[..|events| - 1]), events[|events| - 1])
  }

  function Writes(events: seq<Event>): seq<Write> {
    if events == [] then [] else Writes(events[..|events| - 1]) + [WriteOf(events[|events| - 1])]
  }

  ghost predicate LawfulRun(lib: Manifests.Library, events: seq<Event>) {
    forall i :: 0 <= i < |events| ==> Lawful(lib, Held(events[..i]), events[i])
  }

  ghost predicate WellHeld(held: map<string, Transfer>) {
    forall id :: id in held ==>
      held[id].id == id && Acceptable(held[id].files) && held[id].size == TotalSize(held[id].files)
  }

  lemma AcceptableIsCanonical(t: Transfer)
    requires Acceptable(t.files)
    ensures Canonical(t)
  {
  }

  lemma SavesOverAcceptable(before: Transfer, t: Transfer)
    requires SavesOver(before, t) && Acceptable(before.files)
    ensures Acceptable(t.files) && TotalSize(t.files) == TotalSize(before.files)
    ensures forall f :: f in before.files ==> exists g :: g in t.files && g.id == f.id
  {
    hide Acceptable, TotalSize;
    if t.files != before.files {
      var root :| t.files == Destined(before.files, root);
      DestinedAcceptable(before.files, root);
      DestinedParts(before.files, root);
      forall f | f in before.files ensures exists g :: g in t.files && g.id == f.id {
        var i :| 0 <= i < |before.files| && before.files[i] == f;
        assert t.files[i] in t.files && t.files[i].id == f.id;
      }
    }
  }

  lemma EventKeepsHeld(lib: Manifests.Library, held: map<string, Transfer>, e: Event)
    requires WellHeld(held) && Lawful(lib, held, e)
    ensures WellHeld(Holding(held, e))
  {
    hide Acceptable, TotalSize, Unambiguous, Manifests.ManifestValid, SavesOver;
    match e
    case Added(offer, _, _) => OfferedAcceptable(lib, offer);
    case Updated(t) => UpdateHeld(held, t);
    case RowStored(_, _) =>
    case HistoryGone =>
  }

  lemma UpdateHeld(held: map<string, Transfer>, t: Transfer)
    requires WellHeld(held) && t.id in held && SavesOver(held[t.id], t)
    ensures WellHeld(held[t.id := t])
  {
    hide Acceptable, TotalSize;
    SavesOverAcceptable(held[t.id], t);
  }

  lemma EventRefines(lib: Manifests.Library, tables: Tables, held: map<string, Transfer>, e: Event)
    requires HasMirrors(tables) && KeysAgree(tables) && Represents(tables, held) && WellHeld(held) && Lawful(lib, held, e)
    ensures Represents(Written(tables, WriteOf(e)), Holding(held, e))
  {
    hide Acceptable, TotalSize, Unambiguous, Manifests.ManifestValid, KeysAgree, HasMirrors, Saved, HistoryDeleted;
    hide Canonical;
    match e
    case Added(offer, tokenHash, now) =>
      OfferedAcceptable(lib, offer);
      AcceptableIsCanonical(Offered(offer, tokenHash, now));
      SaveRefines(tables, held, Offered(offer, tokenHash, now));
    case Updated(t) =>
      SavesOverAcceptable(held[t.id], t);
      AcceptableIsCanonical(t);
      SaveRefines(tables, held, t);
      assert Stored(held, t) == t;
    case RowStored(key, chunk) => RowRefines(tables, held, key, chunk);
    case HistoryGone => PurgeRefines(tables, held);
  }

  lemma RowRefines(tables: Tables, held: map<string, Transfer>, key: ChunkKey, chunk: Chunk)
    requires HasMirrors(tables) && Represents(tables, held)
    ensures Represents(Written(tables, SaveRow(key, chunk)), held)
  {
    forall id | id in held ensures Reads(Written(tables, SaveRow(key, chunk)), id, held[id]) {
      assert Reads(tables, id, held[id]);
    }
  }

  // After every run the tables stand for the service's own records, file order
  // and creation times included.
  lemma {:induction false} SessionsReadBack(lib: Manifests.Library, events: seq<Event>)
    requires LawfulRun(lib, events)
    ensures WellHeld(Held(events)) && Represents(After(Writes(events)), Held(events))
    decreases |events|
  {
    hide Acceptable, TotalSize, Lawful, Reads, Written, Holding, WriteOf, KeysAgree, MirrorsAgree, LawfulRun;
    MirrorsAlwaysAgree(Writes(events));
    if events != [] {
      var n := |events| - 1;
      EarlierLawful(lib, events);
      SessionsReadBack(lib, events[..n]);
      MirrorsAlwaysAgree(Writes(events[..n]));
      EventKeepsHeld(lib, Held(events[..n]), events[n]);
      EventRefines(lib, After(Writes(events[..n])), Held(events[..n]), events[n]);
      assert Writes(events)[..n] == Writes(events[..n]) by { WritesLength(events[..n]); }
      WritesLength(events);
    }
  }

  lemma {:induction false} WritesLength(events: seq<Event>)
    ensures |Writes(events)| == |events|
    decreases |events|
  {
    if events != [] {
      WritesLength(events[..|events| - 1]);
    }
  }

  lemma EarlierLawful(lib: Manifests.Library, events: seq<Event>)
    requires LawfulRun(lib, events) && events != []
    ensures LawfulRun(lib, events[..|events| - 1]) && Lawful(lib, Held(events[..|events| - 1]), events[|events| - 1])
  {
    hide Lawful, Held;
    var front := events[..|events| - 1];
    forall i | 0 <= i < |front| ensures Lawful(lib, Held(front[..i]), front[i]) {
      assert front[..i] == events[..i];
    }
  }

  // Reading a session returns the very record the service holds, and the foreign
  // key refuses no chunk row that the service writes.
  lemma StoreAnswersForService(lib: Manifests.Library, events: seq<Event>, id: string, read: Transfer, part: Part)
    requires LawfulRun(lib, events) && id in Held(events)
    ensures Reads(After(Writes(events)), id, read) ==> read == Held(events)[id]
    ensures part in AllParts(Held(events)[id].files) ==> FileKey(id, part.file) in After(Writes(events)).files
  {
    hide Acceptable, TotalSize, LawfulRun, Held, Writes, AllParts;
    SessionsReadBack(lib, events);
    var tables, held := After(Writes(events)), Held(events);
    if Reads(tables, id, read) {
      ReadMatchesView(tables, held, id, read);
    }
    if part in AllParts(held[id].files) {
      assert Reads(tables, id, held[id]);
      AcceptableFiles(held[id].files);
      InAllParts(held[id].files, part);
      assert FindFile(held[id].files, part.file).Some?;
    }
  }

  lemma AcceptableFiles(files: seq<File>)
    requires Acceptable(files)
    ensures WellFormedFiles(files)
  {
  }
}
