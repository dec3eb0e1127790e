// The receiving side of the transfer service: offers, approval, lifecycle calls,
// chunk receipt, progress, recovery, and Finalize with its verification and
// commit loops.
module Service {
  import opened Results
  import opened Transfers
  import opened Chunking
  import opened Sums
  import opened Lifecycle
  import opened Receiving
  import opened Paths
  import opened Disk
  import opened Committing
  import opened Replay
  import opened Sessions
  import opened Offers
  import opened Approval
  import opened Staging
  import opened Verifying
  import opened Accounts
  import Manifests

  // What a sender is told when it asks where a transfer stands.
  datatype ResumeMap = ResumeMap(status: Status, approved: bool, chunks: set<Part>)

  // On a steady store no write fails.
  class TransferService {
    const disk: FileSystem
    const steady: bool
    const incoming: Path
    const hash: Bytes -> string
    const hashToken: string -> string
    var transfers: map<string, Transfer>
    var rows: map<string, Rows>
    const nonces: NonceCache
    // what commits have taken from the staging directory, for the statements
    ghost var taken: Taken

    ghost predicate Staged()
      reads this, disk
    {
      StagingSound(incoming, transfers, rows, disk.tree, taken, hash)
    }

    constructor (
      disk: FileSystem, incoming: Path, hash: Bytes -> string, hashToken: string -> string, steady: bool)
      ensures this.disk == disk && this.steady == steady && transfers == map[] && rows == map[] && taken == map[]
      ensures this.incoming == incoming && this.hash == hash && this.hashToken == hashToken
      ensures StoreSound(transfers, rows) && Staged() && fresh(nonces) && nonces.nonces == map[]
    {
      this.disk := disk;
      this.steady := steady;
      this.nonces := new NonceCache();
      this.incoming := incoming;
      this.hash := hash;
      this.hashToken := hashToken;
      transfers := map[];
      rows := map[];
      taken := map[];
    }

    method SaveTransfer(t: Transfer) returns (ok: bool)
      modifies this`transfers
      ensures transfers == if ok then old(transfers)[t.id := t] else old(transfers)
      ensures steady ==> ok
    {
      ok := *;
      ok := ok || steady;
      if ok {
        transfers := transfers[t.id := t];
      }
    }

    // An offer is authenticated, its nonce spent, its manifest checked, and a
    // known ID answered with the stored session; only then is a new session
    // stored, queued and unapproved.
    method ReceiveOffer(
      lib: Manifests.Library, offer: Offer, auth: Authentication, peer: Standing, checkedAt: int, usedAt: int, now: int)
      returns (r: Result<Transfer, Failure>)
      requires StoreSound(transfers, rows)
      modifies this`transfers, nonces
      ensures !Authentic(lib, offer, auth, peer, checkedAt) ==>
        r.Err? && transfers == old(transfers) && nonces.nonces == old(nonces.nonces)
      ensures Authentic(lib, offer, auth, peer, checkedAt) ==>
        nonces.nonces == Used(old(nonces.nonces), auth.nonce, usedAt)
      ensures r.Err? ==> transfers == old(transfers)
      ensures r.Ok? ==> Vouched(offer, auth, peer) && Supported(lib, offer, peer)
      ensures r.Ok? && Plausible(auth.seconds, checkedAt) ==> IsRecent(auth.seconds, checkedAt)
      ensures steady && Plausible(auth.seconds, checkedAt) ==>
        (r.Ok? <==>
           lib.isUuid(offer.transferId) && lib.isUuid(offer.deviceId) && Vouched(offer, auth, peer)
           && IsRecent(auth.seconds, checkedAt)
           && (auth.nonce in old(nonces.nonces) ==> 300_000_000_000 < usedAt - old(nonces.nonces)[auth.nonce])
           && Supported(lib, offer, peer))
      ensures !lib.isUuid(offer.transferId) || !lib.isUuid(offer.deviceId) ==> r == Err(InvalidRequest)
      ensures Authentic(lib, offer, auth, peer, checkedAt) && auth.nonce !in Pruned(old(nonces.nonces), usedAt) ==>
        && (!peer.atDiscoveredAddress ==> r == Err(UntrustedDevice))
        && (peer.atDiscoveredAddress && !Supported(lib, offer, peer) ==> r == Err(InvalidRequest))
      ensures lib.isUuid(offer.transferId) && lib.isUuid(offer.deviceId) && !peer.trusted ==> r == Err(UntrustedDevice)
      ensures lib.isUuid(offer.transferId) && lib.isUuid(offer.deviceId) && peer.trusted
        && !(Authentic(lib, offer, auth, peer, checkedAt) && auth.nonce !in Pruned(old(nonces.nonces), usedAt))
        ==> r == Err(Unauthorized)
      ensures r.Ok? ==>
        && Authentic(lib, offer, auth, peer, checkedAt) && auth.nonce !in Pruned(old(nonces.nonces), usedAt)
        && WellOffered(lib, offer, peer)
        && if offer.transferId in old(transfers)
           then r.value == old(transfers)[offer.transferId] && transfers == old(transfers)
           else
             r.value == Offered(offer, hashToken(offer.token), now)
             && transfers == old(transfers)[offer.transferId := r.value]
      ensures Authentic(lib, offer, auth, peer, checkedAt) && WellOffered(lib, offer, peer)
        && auth.nonce !in Pruned(old(nonces.nonces), usedAt)
        ==> r.Ok? || (r == Err(StorageFailure) && offer.transferId !in transfers && !steady)
      ensures Unambiguous(offer) ==> StoreSound(transfers, rows)
      ensures old(Accounted(transfers, rows)) ==> Accounted(transfers, rows) && NotLess(old(transfers), transfers)
      ensures old(Staged()) && r.Ok? && offer.transferId !in old(transfers) && Unambiguous(offer) ==>
        (Staged() <==> NothingLeftOver(incoming + [offer.transferId], r.value.files, disk.tree))
    {
      hide StoreSound, StagingSound, NothingLeftOver, ValidProtocolTime, Manifests.ManifestValid, Unambiguous, Pruned;
      hide Accounted, NotLess;
      SameProgress(transfers);
      AuthenticIff(lib, offer, auth, peer, checkedAt);
      NonceFresh(nonces.nonces, auth.nonce, usedAt);
      if !lib.isUuid(offer.transferId) || !lib.isUuid(offer.deviceId) { return Err(InvalidRequest); }
      if !peer.trusted { return Err(UntrustedDevice); }
      if auth.deviceId != offer.deviceId || !ValidProtocolTime(auth.seconds, checkedAt) || auth.nonce == "" {
        return Err(Unauthorized);
      }
      if !peer.keyKnown || !auth.signed { return Err(Unauthorized); }
      var unused := nonces.Use(auth.nonce, usedAt);
      if !unused { return Err(Unauthorized); }
      if !peer.atDiscoveredAddress { return Err(UntrustedDevice); }
      if !offer.labelled { return Err(InvalidRequest); }
      if offer.version != PROTOCOL_VERSION || offer.size < 0 || |offer.token| < MINIMUM_TOKEN {
        return Err(InvalidRequest);
      }
      var accepted := Manifests.CheckManifest(lib, offer.files, offer.chunkSize, offer.size);
      if !accepted { return Err(InvalidRequest); }
      if offer.transferId in transfers {
        return Ok(transfers[offer.transferId]);
      }
      var t := Offered(offer, hashToken(offer.token), now);
      if Unambiguous(offer) {
        OfferedIsSound(lib, transfers, rows, offer, hashToken(offer.token), now);
        OfferedIsFresh(lib, transfers, rows, offer, hashToken(offer.token), now);
        if Staged() {
          NewSessionStagedIff(incoming, transfers, rows, disk.tree, taken, hash, t);
        }
      }
      if Accounted(transfers, rows) {
        RecordAccounted(transfers, rows, t);
      }
      var saved := SaveTransfer(t);
      return if saved then Ok(t) else Err(StorageFailure);
    }

    // The destination loop of Accept; under the prompt policy the first file
    // whose destination exists ends it.
    method ChooseDestinations(root: string, files: seq<File>, policy: Policy) returns (r: Result<seq<File>, Failure>)
      requires IsAbs(root)
      ensures PathsValid(files) && (policy.Prompt? ==> AllFree(Destined(files, Components(root)), disk.tree)) ==> r.Ok?
      ensures r.Ok? ==> PathsValid(files)
      ensures r.Err? ==> r.error in {PathTraversal, ConflictResolution, StorageFailure}
      ensures r == Err(PathTraversal) ==> !PathsValid(files)
      ensures r.Ok? ==> r.value == Destined(files, Components(root))
      ensures r.Ok? && policy.Prompt? ==> AllFree(r.value, disk.tree)
      ensures r == Err(ConflictResolution) ==>
        policy.Prompt? && exists f :: f in files && Components(root) + Split(f.path) in disk.tree
    {
      hide ValidRelative, SecureJoin, Components, IsAbs;
      var placed: seq<File> := [];
      for i := 0 to |files|
        invariant placed == Destined(files, Components(root))[..i]
        invariant forall j :: 0 <= j < i ==> ValidRelative(files[j].path)
        invariant policy.Prompt? ==> AllFree(placed, disk.tree)
      {
        assert files[i] in files && Destined(files, Components(root))[i] in Destined(files, Components(root));
        SecureJoinPlaces(root, files[i].path);
        var joined := SecureJoin(root, files[i].path);
        if joined.Err? { return Err(joined.error); }
        var target := Components(joined.value);
        placed := placed + [files[i].(destination := Some(target))];
        if policy.Prompt? {
          if target in disk.tree { return Err(ConflictResolution); }
          if Obstructed(disk.tree, target) { return Err(StorageFailure); }
        }
      }
      assert Destined(files, Components(root))[..|files|] == Destined(files, Components(root));
      return Ok(placed);
    }

    // The approval that Accept stores.
    method Approve(id: string, ghost root: Path, files: seq<File>, policy: Policy, now: int)
      returns (r: Result<Transfer, Failure>)
      requires StoreSound(transfers, rows) && id in transfers && Unanswered(transfers[id])
      requires files == Destined(transfers[id].files, root)
      modifies this`transfers
      ensures StoreSound(transfers, rows)
      ensures r.Ok? ==>
        Called(old(transfers)[id], Call.Accept(files, policy), now) == Some(r.value)
        && transfers == old(transfers)[id := r.value]
      ensures r.Err? ==> r == Err(StorageFailure) && transfers == old(transfers)
      ensures steady ==> r.Ok?
      ensures old(Staged()) && (r.Ok? ==> Outside(incoming, files)) ==> Staged()
      ensures old(Accounted(transfers, rows)) ==> Accounted(transfers, rows) && NotLess(old(transfers), transfers)
    {
      hide StoreSound, StagingSound, Outside, ValidRelative, OnlyTouches, Accounted, NotLess, Destined;
      OnlyTouchesReflexive(disk.tree);
      SameProgress(transfers);
      var t := transfers[id].(files := files, approved := true, policy := policy, status := Receiving, updatedAt := now);
      KeyedById(transfers, rows, id);
      ApprovalKeepsSound(transfers, rows, t, root);
      if Accounted(transfers, rows) {
        ApprovalAccounted(transfers, rows, t, root);
      }
      if Staged() && Outside(incoming, files) {
        ApprovalKeepsStaging(incoming, transfers, rows, disk.tree, disk.tree, taken, hash, t, root);
      }
      var saved := SaveTransfer(t);
      return if saved then Ok(t) else Err(StorageFailure);
    }

    // root: the absolute form of the requested directory, None when it is blank.
    // available: the free bytes there, or nothing positive when that is not known.
    method Accept(id: string, root: Option<string>, policy: Policy, available: int, now: int)
      returns (r: Result<Transfer, Failure>)
      requires StoreSound(transfers, rows) && (root.Some? ==> IsAbs(root.value))
      modifies this`transfers, disk
      ensures StoreSound(transfers, rows)
      ensures OnlyTouches(old(disk.tree), disk.tree, {})
      ensures r.Err? ==> transfers == old(transfers)
      ensures r.Ok? ==>
        && id in old(transfers) && root.Some?
        && var files := Destined(old(transfers)[id].files, Components(root.value));
        && Called(old(transfers)[id], Call.Accept(files, policy), now) == Some(r.value)
        && transfers == old(transfers)[id := r.value]
        && (policy.Prompt? ==> AllFree(files, disk.tree))
        && IsFolder(disk.tree, Components(root.value)) && (0 < available ==> r.value.size <= available)
      ensures id !in old(transfers) ==> r == Err(NotFound) && disk.tree == old(disk.tree)
      ensures id in old(transfers) && !Unanswered(old(transfers)[id]) ==>
        r == Err(InvalidState) && disk.tree == old(disk.tree)
      ensures id in old(transfers) && Unanswered(old(transfers)[id]) && root.None? ==>
        r == Err(InvalidRequest) && disk.tree == old(disk.tree)
      ensures id in old(transfers) && Unanswered(old(transfers)[id]) && root.Some? && r.Err? ==>
        r.error == StorageFailure || (r.error == ConflictResolution && policy.Prompt?
          && exists f :: f in old(transfers)[id].files && Components(root.value) + Split(f.path) in disk.tree)
      ensures steady && disk.reliable && id in old(transfers) && Unanswered(old(transfers)[id]) && root.Some?
        && (0 < available ==> old(transfers)[id].size <= available) && !Blocked(old(disk.tree), Components(root.value))
        && (policy.Prompt? ==> AllFree(Destined(old(transfers)[id].files, Components(root.value)), disk.tree))
        ==> r.Ok?
      ensures old(Staged()) && (r.Ok? ==> Outside(incoming, r.value.files)) ==> Staged()
      ensures old(Accounted(transfers, rows)) ==> Accounted(transfers, rows) && NotLess(old(transfers), transfers)
    {
      hide StoreSound, StagingSound, Outside, ValidRelative, Components, OnlyTouches, IsAbs, Accounted, NotLess, AllFree;
      hide PathsValid, Blocked;
      OnlyTouchesReflexive(disk.tree);
      SameProgress(transfers);
      if id !in transfers { return Err(NotFound); }
      var t := transfers[id];
      if !t.direction.Inbound? || !t.status.Queued? || !t.approvalRequired { return Err(InvalidState); }
      if root.None? { return Err(InvalidRequest); }
      var made := disk.MkdirAll(Components(root.value));
      if old(Staged()) {
        FoldersKeepStaging(incoming, transfers, rows, old(disk.tree), disk.tree, taken, hash);
      }
      if !made || (0 < available && available < t.size) { return Err(StorageFailure); }
      StoredPathsValid(transfers, rows, id);
      var chosen := ChooseDestinations(root.value, t.files, policy);
      if chosen.Err? { return Err(chosen.error); }
      r := Approve(id, Components(root.value), chosen.value, policy, now);
    }

    method Reject(id: string, now: int) returns (r: Result<Transfer, Failure>)
      requires id in transfers ==> transfers[id].id == id
      modifies this`transfers
      ensures Outcome(old(transfers), transfers, id, Call.Reject, now, r)
      ensures steady ==> r != Err(StorageFailure)
    {
      if id !in transfers { return Err(NotFound); }
      var t := transfers[id];
      if !t.direction.Inbound? || t.approved || !t.status.Queued? { return Err(InvalidState); }
      r := Finish(t, Cancelled, "", now);
    }

    method Pause(id: string, now: int) returns (r: Result<Transfer, Failure>)
      requires id in transfers ==> transfers[id].id == id
      modifies this`transfers
      ensures Outcome(old(transfers), transfers, id, Call.Pause, now, r)
      ensures steady ==> r != Err(StorageFailure)
    {
      if id !in transfers { return Err(NotFound); }
      var t := transfers[id];
      match t.status {
        case Sending | Receiving | Connecting | Negotiating | Preparing | Resuming =>
        case _ => return Err(InvalidState);
      }
      t := t.(status := Paused, updatedAt := now);
      var ok := SaveTransfer(t);
      return if ok then Ok(t) else Err(StorageFailure);
    }

    method Resume(id: string, now: int) returns (r: Result<Transfer, Failure>)
      requires id in transfers ==> transfers[id].id == id
      modifies this`transfers
      ensures Outcome(old(transfers), transfers, id, Call.Resume, now, r)
      ensures steady ==> r != Err(StorageFailure)
    {
      if id !in transfers { return Err(NotFound); }
      var t := transfers[id];
      if !t.status.Paused? { return Err(InvalidState); }
      t := t.(status := Resuming, error := "", updatedAt := now);
      if t.direction.Inbound? {
        t := t.(status := Receiving);
      }
      var ok := SaveTransfer(t);
      return if ok then Ok(t) else Err(StorageFailure);
    }

    method Finish(t: Transfer, status: Status, message: string, now: int) returns (r: Result<Transfer, Failure>)
      modifies this`transfers
      ensures r.Ok? ==> r.value == Finished(t, status, message, now) && transfers == old(transfers)[t.id := r.value]
      ensures r.Err? ==> r == Err(StorageFailure) && transfers == old(transfers)
      ensures steady ==> r.Ok?
    {
      var done := t.(status := status, error := message, updatedAt := now, finishedAt := Some(now));
      var ok := SaveTransfer(done);
      return if ok then Ok(done) else Err(StorageFailure);
    }

    method Cancel(id: string, now: int) returns (r: Result<Transfer, Failure>)
      requires id in transfers ==> transfers[id].id == id
      modifies this`transfers
      ensures Outcome(old(transfers), transfers, id, Call.Cancel, now, r)
      ensures steady ==> r != Err(StorageFailure)
    {
      if id !in transfers { return Err(NotFound); }
      var t := transfers[id];
      if t.status.Completed? || t.status.Cancelled? { return Err(InvalidState); }
      r := Finish(t, Cancelled, "", now);
    }

    // The sender's cancellation, authorised by the session token.
    method ProtocolCancel(id: string, token: string, now: int) returns (r: Result<Transfer, Failure>)
      requires id in transfers ==> transfers[id].id == id
      modifies this`transfers
      ensures id in old(transfers) && old(transfers)[id].tokenHash != hashToken(token) ==>
        r == Err(Unauthorized) && transfers == old(transfers)
      ensures id in old(transfers) ==> old(transfers)[id].tokenHash == hashToken(token) ==>
        Outcome(old(transfers), transfers, id, Call.PeerCancel, now, r)
      ensures steady ==> r != Err(StorageFailure)
      ensures id !in old(transfers) ==> r == Err(NotFound) && transfers == old(transfers)
    {
      if id !in transfers { return Err(NotFound); }
      var t := transfers[id];
      if t.tokenHash != hashToken(token) { return Err(Unauthorized); }
      if t.status.Completed? || t.status.Cancelled? { return Err(InvalidState); }
      r := Finish(t, Cancelled, "cancelled by sender", now);
    }

    // The holder of the session token learns the status, whether the transfer is
    // approved, and exactly the chunks that need not be sent again.
    method ProtocolStatus(id: string, token: string) returns (r: Result<ResumeMap, Failure>)
      ensures id !in transfers ==> r == Err(NotFound)
      ensures id in transfers && transfers[id].tokenHash != hashToken(token) ==> r == Err(Unauthorized)
      ensures id in transfers && transfers[id].tokenHash == hashToken(token) ==>
        && r.Ok? && r.value.status == transfers[id].status && r.value.approved == transfers[id].approved
        && (forall p :: p in r.value.chunks <==>
              id in rows && p in rows[id] && rows[id][p].status.ChunkComplete?)
    {
      if id !in transfers { return Err(NotFound); }
      var t := transfers[id];
      if t.tokenHash != hashToken(token) { return Err(Unauthorized); }
      var listed := RowsOf(rows, id);
      var chunks: set<Part> := {};
      var pending := listed.Keys;
      while pending != {}
        invariant pending <= listed.Keys
        invariant forall p :: p in chunks <==> p in listed && p !in pending && listed[p].status.ChunkComplete?
        decreases |pending|
      {
        var p :| p in pending;
        pending := pending - {p};
        if listed[p].status.ChunkComplete? {
          chunks := chunks + {p};
        }
      }
      return Ok(ResumeMap(t.status, t.approved, chunks));
    }

    method Retry(id: string, now: int) returns (r: Result<Transfer, Failure>)
      requires id in transfers ==> transfers[id].id == id
      modifies this`transfers
      ensures Outcome(old(transfers), transfers, id, Call.Retry, now, r)
      ensures steady ==> r != Err(StorageFailure)
    {
      if id !in transfers { return Err(NotFound); }
      var t := transfers[id];
      if !t.status.Failed? { return Err(InvalidState); }
      t := t.(error := "", finishedAt := None, status := Queued, updatedAt := now);
      if t.direction.Inbound? && t.approved {
        t := t.(status := Receiving);
      }
      var ok := SaveTransfer(t);
      return if ok then Ok(t) else Err(StorageFailure);
    }

    method RecoverOne(id: string, now: int) returns (ok: bool)
      requires id in transfers && transfers[id].id == id
      modifies this`transfers
      ensures transfers == if ok then old(transfers)[id := Recovered(old(transfers)[id], now)] else old(transfers)
      ensures steady ==> ok
    {
      ok := true;
      var t := transfers[id];
      if t.direction.Outbound? {
        match t.status {
          case Preparing | Connecting | Negotiating | Sending | Resuming =>
            ok := SaveTransfer(t.(status := Queued, updatedAt := now, error := "recovered after restart"));
          case _ =>
        }
      } else if t.status.Verifying? {
        ok := SaveTransfer(t.(status := Receiving, updatedAt := now));
      }
    }

    // recover: interrupted outbound work is queued again, an interrupted
    // verification goes back to receiving, and nothing else is touched.
    method Recover(now: int) returns (ok: bool)
      requires forall id :: id in transfers ==> transfers[id].id == id
      modifies this`transfers
      ensures old(StoreSound(transfers, rows)) ==> StoreSound(transfers, rows) && (old(Staged()) ==> Staged())
      ensures steady ==> ok
      ensures transfers.Keys == old(transfers).Keys
      ensures forall id :: id in transfers ==>
        transfers[id] == Recovered(old(transfers)[id], now) || (!ok && transfers[id] == old(transfers)[id])
      ensures old(Accounted(transfers, rows)) ==> Accounted(transfers, rows) && NotLess(old(transfers), transfers)
    {
      hide Recovered, StoreSound, StagingSound, Accounted, NotLess;
      ghost var was := transfers;
      var pending := transfers.Keys;
      while pending != {}
        invariant pending <= was.Keys == transfers.Keys
        invariant old(StoreSound(transfers, rows)) ==> StoreSound(transfers, rows) && (old(Staged()) ==> Staged())
        invariant forall id :: id in was ==>
          transfers[id] == if id in pending then was[id] else Recovered(was[id], now)
        decreases |pending|
      {
        var id :| id in pending;
        RecoveredStaged(incoming, transfers, rows, disk.tree, taken, hash, id, now);
        var saved := RecoverOne(id, now);
        if !saved {
          RecoveryAccounted(was, transfers, rows, now);
          return false;
        }
        pending := pending - {id};
      }
      RecoveryAccounted(was, transfers, rows, now);
      return true;
    }

    // The sum over the transfer's complete rows.
    method SumRows(files: seq<File>, rows: Rows) returns (progress: int)
      requires WellFormedFiles(files) && RowsSound(files, rows)
      ensures progress == Total(CompleteRows(rows), Weight(files))
    {
      hide Weight, AllParts, WellFormedFiles;
      progress := 0;
      var pending := rows.Keys;
      ghost var done: set<Part> := {};
      ghost var w := Weight(files);
      while pending != {}
        invariant pending <= rows.Keys
        invariant forall p :: p in done <==> p in rows && p !in pending && rows[p].status.ChunkComplete?
        invariant progress == Total(done, w)
        decreases |pending|
      {
        var p :| p in pending;
        if rows[p].status.ChunkComplete? {
          TotalAdd(done, w, p);
          done := done + {p};
          progress := progress + rows[p].size;
        }
        pending := pending - {p};
      }
      assert done == CompleteRows(rows);
    }

    // The new progress is what the complete rows count: in [0, size], and the whole
    // size exactly when no chunk is missing.
    method RefreshProgress(id: string, now: int) returns (r: Result<Transfer, Failure>)
      requires StoreSound(transfers, rows)
      modifies this`transfers
      ensures StoreSound(transfers, rows)
      ensures r.Err? ==>
        r == Err(if id in old(transfers) then StorageFailure else NotFound) && transfers == old(transfers)
      ensures r.Ok? ==>
        && id in old(transfers)
        && r.value == Refreshed(old(transfers)[id], r.value.progress, now)
        && transfers == old(transfers)[id := r.value]
        && r.value.progress == Counted(r.value.files, RowsOf(rows, id))
        && 0 <= r.value.progress <= r.value.size
        && (r.value.progress == r.value.size <==> CompleteRows(RowsOf(rows, id)) == AllParts(r.value.files))
      ensures old(Accounted(transfers, rows)) ==> Accounted(transfers, rows) && NotLess(old(transfers), transfers)
      ensures steady && id in transfers ==> r.Ok?
    {
      hide RowsSound, WellFormedFiles, Accounted, NotLess, Acceptable, AllParts, Weight;
      SameProgress(transfers);
      if id !in transfers { return Err(NotFound); }
      KeyedById(transfers, rows, id);
      var t := transfers[id];
      RowsOfSound(transfers, rows, id);
      AcceptableWellFormed(t.files);
      var progress := SumRows(t.files, RowsOf(rows, id));
      CountedWithin(t.files, t.size, RowsOf(rows, id));
      if Accounted(transfers, rows) {
        ProgressOf(transfers, rows, id);
        RecordAccounted(transfers, rows, t.(progress := progress, updatedAt := now));
      }
      t := t.(progress := progress, updatedAt := now);
      UpdateKeepsSound(transfers, rows, t);
      var ok := SaveTransfer(t);
      return if ok then Ok(t) else Err(StorageFailure);
    }

    // The positional write into the partial file, then the chunk row; a write that
    // fails may have put any part of the chunk there.
    method StoreChunk(id: string, file: File, index: int, checksum: string, data: Bytes) returns (ok: bool)
      requires 0 <= index * file.chunkSize
      modifies this`rows, disk`tree
      ensures OnlyTouches(old(disk.tree), disk.tree, {PartOf(incoming + [id], file)})
      ensures TornWrite(ContentsAt(old(disk.tree), PartOf(incoming + [id], file)), index * file.chunkSize, data,
                ContentsAt(disk.tree, PartOf(incoming + [id], file)))
      ensures IsRegular(old(disk.tree), PartOf(incoming + [id], file)) ==>
        IsRegular(disk.tree, PartOf(incoming + [id], file))
      ensures !ok ==> rows == old(rows)
      ensures ok ==>
        && rows == RowAdded(old(rows), id, Part(file.id, index),
             Chunk.Chunk(index * file.chunkSize, |data|, checksum, ChunkComplete))
        && ChunkOnDisk(old(disk.tree), disk.tree, PartOf(incoming + [id], file), index * file.chunkSize, data)
      ensures steady && disk.reliable && Writable(old(disk.tree), PartOf(incoming + [id], file)) ==> ok
    {
      hide TornWrite, WriteAt, Writable;
      ok := disk.WriteChunk(PartOf(incoming + [id], file), index * file.chunkSize, data);
      if ok {
        ok := *;
        ok := ok || steady;
        if ok {
          var row := Chunk.Chunk(index * file.chunkSize, |data|, checksum, ChunkComplete);
          rows := rows[id := RowsOf(rows, id)[Part(file.id, index) := row]];
        }
      }
    }

    // A chunk is stored exactly when every check admits it and the disk and the
    // store take it; it never changes a status or another transfer, and whatever
    // happens keeps every partial file sound.
    method ReceiveChunk(id: string, fileId: string, token: string, index: int, expected: string, data: Bytes, now: int)
      returns (r: Result<Transfer, Failure>)
      requires StoreSound(transfers, rows)
      modifies this`transfers, this`rows, disk`tree
      ensures StoreSound(transfers, rows)
      ensures old(Staged()) ==> Staged()
      ensures r.Err? ==> transfers == old(transfers)
      ensures r.Ok? ==>
        && id in old(transfers) && transfers == old(transfers)[id := r.value]
        && r.value == Refreshed(old(transfers)[id], r.value.progress, now)
        && r.value.progress == Counted(r.value.files, RowsOf(rows, id))
      ensures old(Accounted(transfers, rows)) ==> Accounted(transfers, rows) && NotLess(old(transfers), transfers)
      ensures id !in old(transfers) ==> r == Err(NotFound) && rows == old(rows) && disk.tree == old(disk.tree)
      ensures id in old(transfers) ==>
        && var t := old(transfers)[id];
           var admitted := Admit(t, hashToken(token), fileId, index, expected, data, hash);
        && (admitted.Err? ==> r == Err(admitted.error) && rows == old(rows) && disk.tree == old(disk.tree))
        && (admitted.Ok? ==>
            && 0 <= index * admitted.value.chunkSize
            && var path := PartOf(incoming + [id], admitted.value);
               var row := Chunk.Chunk(index * admitted.value.chunkSize, |data|, expected, ChunkComplete);
            && OnlyTouches(old(disk.tree), disk.tree, {path})
            && (r.Ok? || (r == Err(StorageFailure) && !(steady && disk.reliable && Writable(old(disk.tree), path))))
            && (IsRegular(old(disk.tree), path) ==> IsRegular(disk.tree, path))
            && TornWrite(ContentsAt(old(disk.tree), path), index * admitted.value.chunkSize, data,
                         ContentsAt(disk.tree, path))
            && (r.Ok? || rows != old(rows) ==>
                && rows == RowAdded(old(rows), id, Part(fileId, index), row)
                && ChunkOnDisk(old(disk.tree), disk.tree, path, index * admitted.value.chunkSize, data)))
    {
      hide Admit, AllParts, Weight, ChunkOnDisk, OnlyTouches, StoreSound, StagingSound, TornWrite, Acceptable, RowAdded;
      hide Accounted, NotLess, Writable, Counted;
      SameProgress(transfers);
      if id !in transfers { return Err(NotFound); }
      var t := transfers[id];
      var admitted := Admit(t, hashToken(token), fileId, index, expected, data, hash);
      RowsOfSound(transfers, rows, id);
      AdmittedChunk(t, hashToken(token), fileId, index, expected, data, hash);
      if admitted.Err? { return Err(admitted.error); }
      var file := admitted.value;
      var row := Chunk.Chunk(index * file.chunkSize, |data|, expected, ChunkComplete);
      var stored := StoreChunk(id, file, index, expected, data);
      if old(Staged()) {
        ChunkStaged(incoming, transfers, old(rows), rows, old(disk.tree), disk.tree, taken, hash, id, file, index,
          data, row, stored);
      }
      if !stored { return Err(StorageFailure); }
      RowKeepsSound(transfers, old(rows), id, Part(fileId, index), row);
      if old(Accounted(transfers, rows)) {
        RowAccounted(transfers, old(rows), id, Part(fileId, index), row);
      }
      label Stored:
      r := RefreshProgress(id, now);
      if old(Staged()) && r.Ok? {
        KeyedById(transfers, rows, id);
        RecordKeepsStaging(incoming, old@Stored(transfers), rows, disk.tree, taken, hash, r.value);
      }
    }

    // --- Finalize -----------------------------------------------------------

    // Counts the rows and hashes the partial of one file; an empty file's partial is
    // created on the way. Missing chunks are reported before anything else, and a
    // failure of the disk only for a file that misses none.
    method VerifyFile(ghost files: seq<File>, base: Path, file: File, complete: set<Part>)
      returns (problem: Option<Failure>)
      requires file in files && !file.directory
      modifies disk`tree
      ensures OnlyCreatesParts(base, files, old(disk.tree), disk.tree)
      ensures problem == Some(MissingChunks) <==> |CompleteIndexes(complete, file.id)| != file.chunkCount
      ensures problem.None? ==>
        IsRegular(disk.tree, PartOf(base, file))
        && FileVerified(file, complete, Some(disk.tree[PartOf(base, file)].contents), hash)
      ensures problem == Some(ChecksumMismatch) ==>
        IsRegular(disk.tree, PartOf(base, file)) && hash(disk.tree[PartOf(base, file)].contents) != file.checksum
      ensures problem.Some? ==> problem.value in {MissingChunks, ChecksumMismatch, StorageFailure}
      ensures disk.reliable && IsRegular(disk.tree, PartOf(base, file)) && problem == Some(StorageFailure) ==>
        file.size == 0 && !Writable(old(disk.tree), PartOf(base, file))
      ensures Verifiable(base, files, complete, old(disk.tree), hash) ==>
        Verifiable(base, files, complete, disk.tree, hash) && (disk.reliable ==> problem.None?)
      ensures IsRegular(old(disk.tree), PartOf(base, file)) && IsFolder(old(disk.tree), Dir(PartOf(base, file))) ==>
        disk.tree == old(disk.tree)
    {
      hide Verifiable, Writable, CompleteIndexes, PartOf;
      ghost var fair := Verifiable(base, files, complete, disk.tree, hash);
      if fair {
        VerifiableFile(base, files, complete, disk.tree, hash, file);
      }
      if |CompleteIndexes(complete, file.id)| != file.chunkCount {
        return Some(MissingChunks);
      }
      var part := PartOf(base, file);
      PartNotEmpty(base, file);
      if file.size == 0 {
        assert part in disk.tree || IsPart(base, files, part);
        ghost var before := disk.tree;
        var created := disk.CreateEmpty(part);
        if fair {
          CreationKeepsVerifiable(before, disk.tree, base, files, file, complete, hash);
          VerifiableFile(base, files, complete, disk.tree, hash, file);
        }
        if !created { return Some(StorageFailure); }
      }
      var readable: bool := *;
      if (!readable && !disk.reliable) || !IsRegular(disk.tree, part) {
        return Some(StorageFailure);
      }
      if hash(disk.tree[part].contents) != file.checksum {
        return Some(ChecksumMismatch);
      }
      return None;
    }

    // The verification of every file, up to the first problem.
    method VerifyFiles(base: Path, files: seq<File>, complete: set<Part>) returns (problem: Option<Failure>)
      modifies disk`tree
      ensures OnlyCreatesParts(base, files, old(disk.tree), disk.tree)
      ensures problem.None? ==> AllVerified(base, files, complete, disk.tree, hash)
      ensures problem == Some(MissingChunks) ==>
        exists f :: f in files && !f.directory && |CompleteIndexes(complete, f.id)| != f.chunkCount
      ensures problem == Some(ChecksumMismatch) ==>
        exists f :: f in files && !f.directory && IsRegular(disk.tree, PartOf(base, f))
          && hash(disk.tree[PartOf(base, f)].contents) != f.checksum
      ensures problem == Some(StorageFailure) ==>
        exists f :: f in files && !f.directory && |CompleteIndexes(complete, f.id)| == f.chunkCount
      ensures problem.Some? ==> problem.value in {MissingChunks, ChecksumMismatch, StorageFailure}
      ensures disk.reliable && Verifiable(base, files, complete, old(disk.tree), hash) ==> problem.None?
      ensures PartsThere(base, files, old(disk.tree)) ==> disk.tree == old(disk.tree)
    {
      hide Verifiable, Writable, CompleteIndexes, PartOf;
      problem := None;
      var i := 0;
      ghost var fair := Verifiable(base, files, complete, disk.tree, hash);
      while i < |files|
        invariant 0 <= i <= |files|
        invariant OnlyCreatesParts(base, files, old(disk.tree), disk.tree)
        invariant PartsThere(base, files, old(disk.tree)) ==> disk.tree == old(disk.tree)
        invariant fair ==> Verifiable(base, files, complete, disk.tree, hash)
        invariant forall j :: 0 <= j < i && !files[j].directory ==>
          IsRegular(disk.tree, PartOf(base, files[j]))
          && FileVerified(files[j], complete, Some(disk.tree[PartOf(base, files[j])].contents), hash)
      {
        var file := files[i];
        if !file.directory {
          problem := VerifyFile(files, base, file, complete);
          if problem.Some? { return problem; }
        }
        i := i + 1;
      }
      return None;
    }

    // Moves every verified partial to its resolved target. Whatever the outcome,
    // bystanders are spared and the staging directory only loses these partials.
    // A commit that runs to its end has placed every entry if it was safe, and has
    // left every file at a target of its own only if it was; nothing but the disk
    // can stop an unhindered one.
    method CommitFiles(base: Path, files: seq<File>, policy: Policy)
      returns (problem: Option<Failure>, ghost targets: seq<Path>)
      requires DistinctRelative(files) && incoming < base
      requires forall f :: f in files && f.destination.Some? ==> f.destination.value != []
      requires forall f :: f in files && !f.directory ==> IsRegular(disk.tree, PartOf(base, f))
      modifies disk`tree
      ensures Spared(base, files, policy, old(disk.tree), disk.tree)
      ensures Outside(incoming, files) ==> OnlyTakesParts(incoming, base, files, old(disk.tree), disk.tree)
      ensures problem.None? ==>
        && |targets| == |files|
        && (CommitSafe(base, files, policy) ==> Progressed(base, files, policy, old(disk.tree), disk.tree, targets))
        && (EachAtTarget(files, disk.tree, targets) ==> CommitSafe(base, files, policy))
      ensures disk.reliable && Unhindered(base, files, policy, old(disk.tree)) ==> problem.None?
      ensures problem.Some? ==> problem.value in {StorageFailure, ConflictResolution}
    {
      hide Progressed, Spared, CommitSafe, DistinctRelative, OnlyTouches, Advancing, Unhindered, Outside;
      hide OnlyTakesParts, EachAtTarget, Blocked, MovedNext, Took;
      targets := [];
      ghost var orig := disk.tree;
      ghost var fair := disk.reliable && Unhindered(base, files, policy, orig);
      AdvancingStarts(incoming, base, files, policy, fair, orig);
      var i := 0;
      while i < |files|
        invariant 0 <= i == |targets| <= |files|
        invariant Advancing(incoming, base, files, policy, fair, orig, disk.tree, targets)
      {
        AdvancingSpares(incoming, base, files, policy, fair, orig, disk.tree, targets);
        var file := files[i];
        ghost var before := disk.tree;
        NextIsOpen(incoming, base, files, policy, fair, orig, before, targets);
        if file.destination.None? {
          return Some(StorageFailure), targets;
        }
        var target := file.destination.value;
        if file.directory {
          var made := disk.MkdirAll(target);
          if !made {
            FolderSpares(incoming, base, files, policy, orig, before, disk.tree);
            return Some(StorageFailure), targets;
          }
          FolderAdvances(incoming, base, files, policy, fair, orig, before, targets, target, disk.tree);
        } else {
          var resolved := disk.ResolveConflict(target, policy);
          if resolved.Err? {
            return Some(resolved.error), targets;
          }
          target := resolved.value;
          var moved := disk.CommitFile(PartOf(base, file), target, policy.Overwrite?);
          if !moved {
            TookWhenFailed(incoming, base, files, file, before, target, disk.tree);
            FailureSpares(incoming, base, files, policy, fair, orig, before, targets, file, target, disk.tree);
            return Some(StorageFailure), targets;
          }
          MovedWhole(base, file, policy, before, target, disk.tree);
          FileAdvances(incoming, base, files, policy, fair, orig, before, targets, target, disk.tree);
        }
        targets := targets + [target];
        i := i + 1;
      }
      AdvancingSpares(incoming, base, files, policy, fair, orig, disk.tree, targets);
      CommitEnds(incoming, base, files, policy, fair, orig, disk.tree, targets);
      return None, targets;
    }

    // The two phases of Finalize on the disk.
    method VerifyAndCommit(id: string) returns (problem: Option<Failure>, ghost targets: seq<Path>)
      requires StoreSound(transfers, rows) && id in transfers
      modifies disk`tree, this`taken
      ensures Spared(incoming + [id], transfers[id].files, transfers[id].policy, old(disk.tree), disk.tree)
      ensures old(Staged()) ==> Staged()
      ensures TakesOnce(incoming + [id], transfers[id].files, old(taken), taken, disk.tree)
      ensures problem.None? ==>
        CompleteRows(RowsOf(rows, id)) == AllParts(transfers[id].files)
        && Counted(transfers[id].files, RowsOf(rows, id)) == transfers[id].size
        && Hashed(incoming + [id], transfers[id].files, old(disk.tree), hash)
      ensures problem.Some? ==> problem.value in {MissingChunks, ChecksumMismatch, ConflictResolution, StorageFailure}
      ensures problem == Some(MissingChunks) ==> CompleteRows(RowsOf(rows, id)) != AllParts(transfers[id].files)
      ensures problem == Some(ChecksumMismatch) ==> !Hashed(incoming + [id], transfers[id].files, old(disk.tree), hash)
      ensures disk.reliable
        && Committable(incoming + [id], transfers[id], CompleteRows(RowsOf(rows, id)), old(disk.tree), hash)
        ==> problem.None?
      ensures problem.None? ==>
        && var t := transfers[id];
        && (AllPlaced(t.files, disk.tree, targets, CompleteRows(RowsOf(rows, id)), hash)
            <==> CommitSafe(incoming + [id], t.files, t.policy))
        && (CommitSafe(incoming + [id], t.files, t.policy) ==>
              AllMoved(incoming + [id], t.files, t.policy, old(disk.tree), disk.tree, targets))
        && (CommitSafe(incoming + [id], t.files, t.policy) && old(Staged()) ==>
              AllSized(incoming + [id], t.files, disk.tree, targets, old(taken), hash))
    {
      hide Spared, OnlyCreatesParts, CommitSafe, AllPlaced, AllMoved, AllSized, AllVerified, Acceptable, RowsSound;
      hide StoreSound;
      hide StagingSound, Progressed, OnlyTakesParts, EachAtTarget, Outside, TakenBy, Unhindered, Verifiable;
      hide PartsThere, Rooted, Hashed, AllParts, Counted, RowsOf, CompleteRows, TakesOnce;
      targets := [];
      var t := transfers[id];
      var base := incoming + [id];
      RowsOfSound(transfers, rows, id);
      ReadyToCommit(base, t.files, disk.tree);
      if Committable(base, t, CompleteRows(RowsOf(rows, id)), disk.tree, hash) {
        VerifiedIsVerifiable(base, t.files, CompleteRows(RowsOf(rows, id)), disk.tree, hash);
      }
      problem := VerifyFiles(base, t.files, CompleteRows(RowsOf(rows, id)));
      ghost var verified := disk.tree;
      CreationSpares(base, t.files, t.policy, old(disk.tree), verified);
      TakesNothing(base, t.files, taken, disk.tree);
      ProblemMeans(base, t.files, t.size, RowsOf(rows, id), old(disk.tree), verified, hash, problem);
      if old(Staged()) {
        CreationKeepsStaging(base, t.files, incoming, transfers, rows, old(disk.tree), verified, taken, hash);
        StagedOutside(incoming, transfers, rows, verified, taken, hash, id);
      }
      if problem.None? {
        VerifiedRegular(base, t.files, CompleteRows(RowsOf(rows, id)), verified, hash);
        problem, targets := CommitFiles(base, t.files, t.policy);
        SparedTransitive(base, t.files, t.policy, old(disk.tree), verified, disk.tree);
        if old(Staged()) {
          CommitKeepsStaging(incoming, transfers, rows, verified, disk.tree, taken, hash, id);
        }
        if problem.None? {
          if CommitSafe(base, t.files, t.policy) {
            PlacedMoved(base, t.files, t.policy, old(disk.tree), verified, disk.tree, targets);
          }
          PlacedIffSafe(base, t.files, t.policy, verified, disk.tree, targets, RowsOf(rows, id), hash);
          if old(Staged()) && CommitSafe(base, t.files, t.policy) {
            PlacedSized(incoming, transfers, rows, id, verified, disk.tree, targets, taken, hash);
          }
        }
        TakenOnce(base, t.files, taken, verified, disk.tree);
        taken := TakenBy(base, t.files, verified, disk.tree) + taken;
      }
    }

    // The first save of Finalize.
    method StartVerifying(id: string, now: int) returns (ok: bool)
      requires StoreSound(transfers, rows) && id in transfers
      modifies this`transfers
      ensures StoreSound(transfers, rows) && (old(Staged()) ==> Staged())
      ensures transfers ==
        if ok then old(transfers)[id := old(transfers)[id].(status := Verifying, updatedAt := now)] else old(transfers)
      ensures steady ==> ok
      ensures old(Accounted(transfers, rows)) ==> Accounted(transfers, rows) && NotLess(old(transfers), transfers)
    {
      hide StoreSound, StagingSound, Accounted, NotLess;
      KeyedById(transfers, rows, id);
      SameProgress(transfers);
      var t := transfers[id].(status := Verifying, updatedAt := now);
      UpdateKeepsSound(transfers, rows, t);
      if Staged() {
        RecordKeepsStaging(incoming, transfers, rows, disk.tree, taken, hash, t);
      }
      if Accounted(transfers, rows) {
        SameAccount(transfers, rows, t);
      }
      ok := SaveTransfer(t);
    }

    // The last save of Finalize: the transfer is completed or has failed.
    method Conclude(id: string, problem: Option<Failure>, now: int) returns (r: Result<Transfer, Failure>)
      requires StoreSound(transfers, rows) && id in transfers
      requires problem.None? ==> Counted(transfers[id].files, RowsOf(rows, id)) == transfers[id].size
      requires problem.Some? ==> problem.value in {MissingChunks, ChecksumMismatch, ConflictResolution, StorageFailure}
      modifies this`transfers
      ensures StoreSound(transfers, rows) && (old(Staged()) ==> Staged())
      ensures r.Ok? ==>
        && problem.None? && transfers == old(transfers)[id := r.value]
        && r.value == old(transfers)[id].(
             progress := r.value.size, status := Completed, error := "", updatedAt := now, finishedAt := Some(now))
      ensures r.Err? ==>
        || (r.error == StorageFailure && !steady && transfers == old(transfers))
        || (problem == Some(r.error) && id in transfers && transfers == old(transfers)[id := transfers[id]]
            && transfers[id] == old(transfers)[id].(
                 status := Status.Failed, error := transfers[id].error, updatedAt := now, finishedAt := Some(now)))
      ensures steady && problem.None? ==> r.Ok?
      ensures forall before :: old(Accounted(transfers, rows)) && old(NotLess(before, transfers)) ==>
        Accounted(transfers, rows) && NotLess(before, transfers)
    {
      hide StoreSound, StagingSound, Accounted, NotLess, Counted;
      KeyedById(transfers, rows, id);
      var t := transfers[id];
      var message: string := *;
      var done := if problem.Some? then t else t.(progress := t.size);
      var status := if problem.Some? then Status.Failed else Completed;
      message := if problem.Some? then message else "";
      UpdateKeepsSound(transfers, rows, Finished(done, status, message, now));
      if Staged() {
        RecordKeepsStaging(incoming, transfers, rows, disk.tree, taken, hash, Finished(done, status, message, now));
      }
      forall before | Accounted(transfers, rows) && NotLess(before, transfers)
        ensures Accounted(transfers[id := Finished(done, status, message, now)], rows)
        ensures NotLess(before, transfers[id := Finished(done, status, message, now)])
      {
        FinishedAccounted(before, transfers, rows, Finished(done, status, message, now));
      }
      r := Finish(done, status, message, now);
      if problem.Some? && r.Ok? {
        r := Err(problem.value);
      }
    }

    // Finalize past its guards.
    method FinalizeAdmitted(id: string, now: int)
      returns (r: Result<Transfer, Failure>, ghost targets: seq<Path>)
      requires StoreSound(transfers, rows) && id in transfers
      modifies this`transfers, this`taken, disk`tree
      ensures StoreSound(transfers, rows)
      ensures old(Staged()) ==> Staged()
      ensures Spared(incoming + [id], old(transfers)[id].files, old(transfers)[id].policy, old(disk.tree), disk.tree)
      ensures r.Ok? ==>
        && var t := old(transfers)[id];
        && transfers == old(transfers)[id := r.value]
        && r.value == t.(
             progress := t.size, status := Completed, error := "", updatedAt := now, finishedAt := Some(now))
        && (AllPlaced(t.files, disk.tree, targets, CompleteRows(RowsOf(rows, id)), hash)
            <==> CommitSafe(incoming + [id], t.files, t.policy))
        && (CommitSafe(incoming + [id], t.files, t.policy) ==>
              AllMoved(incoming + [id], t.files, t.policy, old(disk.tree), disk.tree, targets))
        && (CommitSafe(incoming + [id], t.files, t.policy) && old(Staged()) ==>
              AllSized(incoming + [id], t.files, disk.tree, targets, old(taken), hash))
      ensures TakesOnce(incoming + [id], old(transfers)[id].files, old(taken), taken, disk.tree)
      ensures steady && disk.reliable
        && Committable(incoming + [id], old(transfers)[id], CompleteRows(RowsOf(rows, id)), old(disk.tree), hash)
        ==> r.Ok?
      ensures r.Ok? ==>
        && CompleteRows(RowsOf(rows, id)) == AllParts(old(transfers)[id].files)
        && Hashed(incoming + [id], old(transfers)[id].files, old(disk.tree), hash)
      ensures r == Err(MissingChunks) ==> CompleteRows(RowsOf(rows, id)) != AllParts(old(transfers)[id].files)
      ensures r == Err(ChecksumMismatch) ==> !Hashed(incoming + [id], old(transfers)[id].files, old(disk.tree), hash)
      ensures r.Err? ==>
        id in transfers && transfers == old(transfers)[id := transfers[id]]
        && ((r.error == StorageFailure && !steady && transfers[id] == old(transfers)[id])
            || (r.error == StorageFailure && !steady
                && transfers[id] == old(transfers)[id].(status := Verifying, updatedAt := now))
            || transfers[id] == old(transfers)[id].(
                 status := Status.Failed, error := transfers[id].error, updatedAt := now, finishedAt := Some(now)))
      ensures old(Accounted(transfers, rows)) ==> Accounted(transfers, rows) && NotLess(old(transfers), transfers)
    {
      hide Spared, CommitSafe, AllPlaced, AllMoved, AllSized, StoreSound, StagingSound, AllVerified, Unhindered;
      hide Rooted, TakesOnce, Accounted, NotLess, Hashed, AllParts, Counted, RowsOf, CompleteRows;
      targets := [];
      SparedReflexive(incoming + [id], transfers[id].files, transfers[id].policy, disk.tree);
      TakesNothing(incoming + [id], transfers[id].files, taken, disk.tree);
      var started := StartVerifying(id, now);
      if !started { return Err(StorageFailure), targets; }
      var problem;
      problem, targets := VerifyAndCommit(id);
      r := Conclude(id, problem, now);
      ThroughVerifying(old(transfers), transfers, id, now);
    }

    // A transfer reported Completed has, for every file, exactly its chunks
    // 0 .. n-1 and committed bytes that hash to the manifest checksum and have the
    // manifest size, at distinct targets - exactly when, under overwrite, no
    // earlier destination was a later partial. Under rename and prompt nothing
    // that existed before is changed, whatever the outcome.
    method Finalize(id: string, token: string, now: int)
      returns (r: Result<Transfer, Failure>, ghost targets: seq<Path>)
      requires StoreSound(transfers, rows)
      modifies this`transfers, this`taken, disk`tree
      ensures StoreSound(transfers, rows)
      ensures old(Staged()) ==> Staged()
      ensures id !in old(transfers) ==> r == Err(NotFound) && transfers == old(transfers) && disk.tree == old(disk.tree)
      ensures id in old(transfers) ==>
        Spared(incoming + [id], old(transfers)[id].files, old(transfers)[id].policy, old(disk.tree), disk.tree)
      ensures id in old(transfers)
        && (old(transfers)[id].tokenHash != hashToken(token) || !MayReceive(old(transfers)[id]))
        ==> transfers == old(transfers) && disk.tree == old(disk.tree)
            && r == Err(if old(transfers)[id].tokenHash != hashToken(token) then Unauthorized
                        else if !old(transfers)[id].approved then ApprovalRequired else InvalidState)
      ensures r.Ok? ==>
        && var t := old(transfers)[id];
        && transfers == old(transfers)[id := r.value]
        && r.value == t.(
             progress := t.size, status := Completed, error := "", updatedAt := now, finishedAt := Some(now))
        && (AllPlaced(t.files, disk.tree, targets, CompleteRows(RowsOf(rows, id)), hash)
            <==> CommitSafe(incoming + [id], t.files, t.policy))
        && (CommitSafe(incoming + [id], t.files, t.policy) ==>
              AllMoved(incoming + [id], t.files, t.policy, old(disk.tree), disk.tree, targets))
        && (CommitSafe(incoming + [id], t.files, t.policy) && old(Staged()) ==>
              AllSized(incoming + [id], t.files, disk.tree, targets, old(taken), hash))
      ensures id in old(transfers) ==> TakesOnce(incoming + [id], old(transfers)[id].files, old(taken), taken, disk.tree)
      ensures id in old(transfers) && steady && disk.reliable
        && old(transfers)[id].tokenHash == hashToken(token) && MayReceive(old(transfers)[id])
        && Committable(incoming + [id], old(transfers)[id], CompleteRows(RowsOf(rows, id)), old(disk.tree), hash)
        ==> r.Ok?
      ensures r.Ok? ==>
        && CompleteRows(RowsOf(rows, id)) == AllParts(r.value.files)
        && Hashed(incoming + [id], r.value.files, old(disk.tree), hash)
      ensures r == Err(MissingChunks) ==>
        id in transfers && CompleteRows(RowsOf(rows, id)) != AllParts(transfers[id].files)
      ensures r == Err(ChecksumMismatch) ==>
        id in transfers && !Hashed(incoming + [id], transfers[id].files, old(disk.tree), hash)
      ensures r.Err? && id in transfers ==>
        id in old(transfers) && transfers == old(transfers)[id := transfers[id]]
        && (transfers[id] == old(transfers)[id]
            || (!steady && transfers[id] == old(transfers)[id].(status := Verifying, updatedAt := now))
            || transfers[id] == old(transfers)[id].(
                 status := Status.Failed, error := transfers[id].error, updatedAt := now, finishedAt := Some(now)))
      // an admitted call that does not succeed is recorded as failed, unless a write is
      ensures r.Err? && id in old(transfers)
        && old(transfers)[id].tokenHash == hashToken(token) && MayReceive(old(transfers)[id])
        && (steady || r.error != StorageFailure)
        ==> id in transfers && transfers[id].status == Status.Failed && transfers[id].finishedAt == Some(now)
      ensures old(Accounted(transfers, rows)) ==> Accounted(transfers, rows) && NotLess(old(transfers), transfers)
    {
      hide Spared, CommitSafe, AllPlaced, AllMoved, AllSized, StoreSound, StagingSound, AllVerified, Unhindered;
      hide Rooted, TakesOnce, Accounted, NotLess, Hashed, AllParts, Counted, RowsOf, CompleteRows;
      targets := [];
      SameProgress(transfers);
      if id !in transfers { return Err(NotFound), targets; }
      KeyedById(transfers, rows, id);
      var t := transfers[id];
      SparedReflexive(incoming + [id], t.files, t.policy, disk.tree);
      TakesNothing(incoming + [id], t.files, taken, disk.tree);
      if t.tokenHash != hashToken(token) { return Err(Unauthorized), targets; }
      if !t.approved { return Err(ApprovalRequired), targets; }
      if !t.status.Receiving? && !t.status.Resuming? { return Err(InvalidState), targets; }
      r, targets := FinalizeAdmitted(id, now);
    }

    // DeleteHistory: the terminal sessions and their rows go; their files stay.
    method DeleteHistory() returns (ok: bool)
      requires StoreSound(transfers, rows)
      modifies this`transfers, this`rows, this`taken
      ensures StoreSound(transfers, rows)
      ensures old(Staged()) ==> Staged()
      ensures old(Accounted(transfers, rows)) ==> Accounted(transfers, rows) && NotLess(old(transfers), transfers)
      ensures !ok ==> transfers == old(transfers) && rows == old(rows)
      ensures ok ==> transfers == Live(old(transfers)) && rows == LiveRows(old(transfers), old(rows))
      ensures steady ==> ok
      ensures forall q :: q in taken ==> q in old(taken) && taken[q] == old(taken)[q]
    {
      hide StoreSound, StagingSound, Accounted, NotLess, Live, LiveRows, KnownPart;
      SameProgress(transfers);
      ok := *;
      ok := ok || steady;
      if !ok { return; }
      DeletionSound(incoming, transfers, rows, disk.tree, taken, hash);
      rows := LiveRows(transfers, rows);
      transfers := Live(transfers);
      taken := KnownOnly(incoming, transfers, taken);
    }
  }

  lemma DeletionSound(
      incoming: Path, transfers: map<string, Transfer>, rows: map<string, Rows>, tree: Tree, taken: Taken,
      hash: Bytes -> string)
    requires StoreSound(transfers, rows)
    ensures StoreSound(Live(transfers), LiveRows(transfers, rows))
    ensures StagingSound(incoming, transfers, rows, tree, taken, hash) ==>
      StagingSound(incoming, Live(transfers), LiveRows(transfers, rows), tree,
        KnownOnly(incoming, Live(transfers), taken), hash)
    ensures Accounted(transfers, rows) ==>
      Accounted(Live(transfers), LiveRows(transfers, rows)) && NotLess(transfers, Live(transfers))
  {
    var live := set id | id in transfers && !Terminal(transfers[id].status);
    RowsBelong(transfers, rows);
    assert Live(transfers) == map id | id in transfers && id in live :: transfers[id];
    assert LiveRows(transfers, rows) == map id | id in rows && id in live :: rows[id];
    hide StoreSound, StagingSound, Accounted, NotLess, Live, LiveRows, KnownOnly, Terminal;
    DeletionKeepsSound(transfers, rows, live);
    if StagingSound(incoming, transfers, rows, tree, taken, hash) {
      DeletionKeepsStaging(incoming, transfers, rows, tree, taken, hash, live);
    }
    if Accounted(transfers, rows) {
      DeletionAccounted(transfers, rows, live);
    }
  }

  lemma RecoveredKeeps(t: Transfer, now: int)
    ensures Recovered(t, now).id == t.id && Recovered(t, now).files == t.files && Recovered(t, now).size == t.size
  {
  }

  lemma RecoveredStaged(
      incoming: Path, transfers: map<string, Transfer>, rows: map<string, Rows>, tree: Tree, taken: Taken,
      hash: Bytes -> string, id: string, now: int)
    requires id in transfers && transfers[id].id == id
    ensures StoreSound(transfers, rows) ==> StoreSound(transfers[id := Recovered(transfers[id], now)], rows)
    ensures StagingSound(incoming, transfers, rows, tree, taken, hash) ==>
      StagingSound(incoming, transfers[id := Recovered(transfers[id], now)], rows, tree, taken, hash)
  {
    hide StoreSound, StagingSound, Recovered;
    RecoveredKeeps(transfers[id], now);
    if StoreSound(transfers, rows) {
      UpdateKeepsSound(transfers, rows, Recovered(transfers[id], now));
    }
    if StagingSound(incoming, transfers, rows, tree, taken, hash) {
      RecordKeepsStaging(incoming, transfers, rows, tree, taken, hash, Recovered(transfers[id], now));
    }
  }

  lemma OnlyTouchesReflexive(tree: Tree)
    ensures OnlyTouches(tree, tree, {})
  {
  }

  // A session whose files are all verified and whose commit nothing in the tree
  // hinders.
  ghost predicate Committable(base: Path, t: Transfer, complete: set<Part>, tree: Tree, hash: Bytes -> string) {
    Rooted(tree) && AllVerified(base, t.files, complete, tree, hash) && Unhindered(base, t.files, t.policy, tree)
  }

  // The record of what commits took only grows, by this session's partials that
  // are gone now, and keeps what it has.
  ghost predicate TakesOnce(base: Path, files: seq<File>, before: Taken, after: Taken, tree: Tree) {
    && (forall q :: q in before ==> q in after && after[q] == before[q])
    && (forall q :: q in after && q !in before ==> IsPart(base, files, q) && !IsRegular(tree, q))
  }

  // Going through Verifying leaves no trace but in the last record.
  lemma ThroughVerifying(before: map<string, Transfer>, after: map<string, Transfer>, id: string, now: int)
    requires id in before && id in after
    ensures after == before[id := before[id].(status := Verifying, updatedAt := now)][id := after[id]] ==>
      after == before[id := after[id]]
  {
  }

  // No destination exists, and none is behind a file.
  ghost predicate AllFree(files: seq<File>, tree: Tree) {
    forall f :: f in files && f.destination.Some? ==> f.destination.value !in tree && !Obstructed(tree, f.destination.value)
  }

  // An offer that waits for the user's answer.
  predicate Unanswered(t: Transfer) {
    t.direction == Inbound && t.status == Queued && t.approvalRequired
  }

  lemma StoredPathsValid(transfers: map<string, Transfer>, rows: map<string, Rows>, id: string)
    requires StoreSound(transfers, rows) && id in transfers
    ensures PathsValid(transfers[id].files)
  {
  }

  lemma SameProgress(transfers: map<string, Transfer>)
    ensures NotLess(transfers, transfers)
  {
  }

  lemma ProgressOf(transfers: map<string, Transfer>, rows: map<string, Rows>, id: string)
    requires Accounted(transfers, rows) && id in transfers
    ensures transfers[id].progress <= Counted(transfers[id].files, RowsOf(rows, id))
  {
  }

  lemma AcceptableWellFormed(files: seq<File>)
    requires Acceptable(files)
    ensures WellFormedFiles(files)
  {
  }

  // A failed transfer keeps its progress; a completed one has counted all of it.
  lemma FinishedAccounted(
      before: map<string, Transfer>, transfers: map<string, Transfer>, rows: map<string, Rows>, t: Transfer)
    requires Accounted(transfers, rows) && NotLess(before, transfers) && t.id in transfers
    requires t.files == transfers[t.id].files
    requires t.progress == transfers[t.id].progress
      || t.progress == Counted(t.files, RowsOf(rows, t.id))
    ensures Accounted(transfers[t.id := t], rows) && NotLess(before, transfers[t.id := t])
  {
    hide Counted;
    RecordAccounted(transfers, rows, t);
  }

  // What each outcome of the verification says about the rows and the partials.
  lemma ProblemMeans(
      base: Path, files: seq<File>, size: int, rows: Rows, before: Tree, after: Tree, hash: Bytes -> string,
      problem: Option<Failure>)
    requires Acceptable(files) && RowsSound(files, rows) && size == TotalSize(files)
    requires OnlyCreatesParts(base, files, before, after)
    requires problem.None? ==> AllVerified(base, files, CompleteRows(rows), after, hash)
    requires problem == Some(MissingChunks) ==>
      exists f :: f in files && !f.directory && |CompleteIndexes(CompleteRows(rows), f.id)| != f.chunkCount
    requires problem == Some(ChecksumMismatch) ==>
      exists f :: f in files && !f.directory && IsRegular(after, PartOf(base, f))
        && hash(after[PartOf(base, f)].contents) != f.checksum
    ensures problem.None? ==>
      CompleteRows(rows) == AllParts(files) && Counted(files, rows) == size && Hashed(base, files, before, hash)
    ensures problem == Some(MissingChunks) ==> CompleteRows(rows) != AllParts(files)
    ensures problem == Some(ChecksumMismatch) ==> !Hashed(base, files, before, hash)
  {
    hide Acceptable, RowsSound, OnlyCreatesParts, AllVerified, Hashed, AllParts, Counted, CompleteRows, CompleteIndexes;
    hide PartOf;
    AcceptableWellFormed(files);
    CompleteRowsGenuine(files, rows);
    if problem.None? {
      VerifiedHashed(base, files, CompleteRows(rows), before, after, hash);
      VerifiedCounts(files, size, rows);
    } else if problem == Some(MissingChunks) {
      MissingIsIncomplete(files, CompleteRows(rows));
    } else if problem == Some(ChecksumMismatch) {
      WrongIsNotHashed(base, files, before, after, hash);
    }
  }

  lemma TakesNothing(base: Path, files: seq<File>, taken: Taken, tree: Tree)
    ensures TakesOnce(base, files, taken, taken, tree)
  {
  }

  lemma TakenOnce(base: Path, files: seq<File>, taken: Taken, verified: Tree, after: Tree)
    ensures TakesOnce(base, files, taken, TakenBy(base, files, verified, after) + taken, after)
  {
  }

  lemma SparedReflexive(base: Path, files: seq<File>, policy: Policy, tree: Tree)
    ensures Spared(base, files, policy, tree, tree)
  {
  }

  lemma CreationSpares(base: Path, files: seq<File>, policy: Policy, before: Tree, after: Tree)
    requires OnlyCreatesParts(base, files, before, after)
    ensures Spared(base, files, policy, before, after)
  {
  }

  lemma SparedTransitive(base: Path, files: seq<File>, policy: Policy, a: Tree, b: Tree, c: Tree)
    requires Spared(base, files, policy, a, b) && Spared(base, files, policy, b, c)
    ensures Spared(base, files, policy, a, c)
  {
    hide Bystander;
  }

  lemma DeletionKeepsSound(transfers: map<string, Transfer>, rows: map<string, Rows>, kept: set<string>)
    requires StoreSound(transfers, rows)
    ensures StoreSound(
      map id | id in transfers && id in kept :: transfers[id], map id | id in rows && id in kept :: rows[id])
  {
    hide Acceptable, RowsSound, TotalSize;
  }

  lemma RowsBelong(transfers: map<string, Transfer>, rows: map<string, Rows>)
    requires StoreSound(transfers, rows)
    ensures forall id :: id in rows ==> id in transfers
  {
  }

  lemma KeyedById(transfers: map<string, Transfer>, rows: map<string, Rows>, id: string)
    requires StoreSound(transfers, rows) && id in transfers
    ensures transfers[id].id == id
  {
  }

  lemma ReadyToCommit(base: Path, files: seq<File>, tree: Tree)
    requires Acceptable(files)
    ensures DistinctRelative(files) && forall f :: f in files && f.destination.Some? ==> f.destination.value != []
  {
  }

  lemma VerifiedRegular(base: Path, files: seq<File>, complete: set<Part>, tree: Tree, hash: Bytes -> string)
    requires AllVerified(base, files, complete, tree, hash)
    ensures forall f :: f in files && !f.directory ==> IsRegular(tree, PartOf(base, f))
  {
  }

  lemma CreationKeepsStaging(
      base: Path, files: seq<File>, incoming: Path, transfers: map<string, Transfer>, rows: map<string, Rows>,
      before: Tree, after: Tree, taken: Taken, hash: Bytes -> string)
    requires OnlyCreatesParts(base, files, before, after)
    requires StagingSound(incoming, transfers, rows, before, taken, hash)
    ensures StagingSound(incoming, transfers, rows, after, taken, hash)
  {
    hide StagingSound;
    forall q ensures ContentsAt(after, q) == ContentsAt(before, q) {}
    ContentsKeepStaging(incoming, transfers, rows, before, after, taken, hash);
  }

  lemma StagedOutside(
      incoming: Path, transfers: map<string, Transfer>, rows: map<string, Rows>, tree: Tree, taken: Taken,
      hash: Bytes -> string, id: string)
    requires StagingSound(incoming, transfers, rows, tree, taken, hash) && id in transfers
    ensures Outside(incoming, transfers[id].files)
  {
    hide Outside;
  }

  // --- the commit loop's calls, in the terms of its invariant ---------------------------

  lemma AdvancingSpares(
      incoming: Path, base: Path, files: seq<File>, policy: Policy, fair: bool, orig: Tree, tree: Tree,
      targets: seq<Path>)
    requires Advancing(incoming, base, files, policy, fair, orig, tree, targets)
    ensures Spared(base, files, policy, orig, tree)
    ensures Outside(incoming, files) ==> OnlyTakesParts(incoming, base, files, orig, tree)
  {
    hide Spared, OnlyTakesParts, Outside, Progressed, Vacated;
  }

  lemma NextIsOpen(
      incoming: Path, base: Path, files: seq<File>, policy: Policy, fair: bool, orig: Tree, tree: Tree,
      targets: seq<Path>)
    requires Advancing(incoming, base, files, policy, fair, orig, tree, targets) && |targets| < |files|
    ensures fair ==>
      && var f := files[|targets|];
      && policy.Overwrite? && f.destination.Some? && !Blocked(tree, Way(f))
      && (!f.directory ==>
            f.destination.value != PartOf(base, f) && IsRegular(tree, PartOf(base, f)) && Writable(tree, f.destination.value))
  {
    hide Spared, OnlyTakesParts, Outside, Progressed, Vacated, Blocked;
    assert files[|targets|] in files;
  }

  lemma MovedWhole(base: Path, f: File, policy: Policy, tree: Tree, target: Path, after: Tree)
    requires !f.directory && f.destination.Some? && Resolved(tree, f, policy, target)
    requires (policy.Overwrite? ==> f.destination == Some(target)) && Dir(target) == Dir(f.destination.value)
    requires OnlyTouches(tree, after, {PartOf(base, f), target})
    requires IsRegular(tree, PartOf(base, f)) && PartOf(base, f) != target && PartOf(base, f) !in after
    requires target in after && after[target] == tree[PartOf(base, f)]
    requires target in tree ==> tree[target].Regular?
    requires forall q :: q in after && q !in tree && q != target ==> q <= Dir(target)
    ensures MovedNext(base, f, policy, tree, target, after)
  {
  }

  lemma TookWhenFailed(incoming: Path, base: Path, files: seq<File>, f: File, tree: Tree, target: Path, after: Tree)
    requires incoming < base && f in files && f.destination.Some? && target != []
    requires Dir(target) == Dir(f.destination.value)
    requires OnlyTouches(tree, after, {PartOf(base, f), target})
    requires PartOf(base, f) in tree && PartOf(base, f) != target ==>
      PartOf(base, f) in after && after[PartOf(base, f)] == tree[PartOf(base, f)]
    requires forall q :: q in after && q !in tree && q != target ==> after[q].Folder?
    ensures Outside(incoming, files) ==> Took(base, f, tree, target, after)
  {
    hide Outside;
    if Outside(incoming, files) {
      TargetOutside(incoming, files, f, target);
      assert incoming < PartOf(base, f);
    }
  }

  // The state a completed transfer should leave: every directory exists, and every
  // file's chunks are exactly the manifest's and its bytes hash as promised.
  ghost predicate AllPlaced(
      files: seq<File>, tree: Tree, targets: seq<Path>, complete: set<Part>, hash: Bytes -> string)
  {
    && |targets| == |files|
    && EachAtTarget(files, tree, targets)
    && (forall j :: 0 <= j < |files| ==>
          if files[j].directory then IsFolder(tree, targets[j])
          else
            && IsRegular(tree, targets[j]) && hash(tree[targets[j]].contents) == files[j].checksum
            && CompleteIndexes(complete, files[j].id) == Indexes(files[j].chunkCount))
  }

  // The bytes are those of the partials, under overwrite at the very destinations.
  ghost predicate AllMoved(
      base: Path, files: seq<File>, policy: Policy, before: Tree, tree: Tree, targets: seq<Path>)
  {
    && |targets| == |files|
    && forall j :: 0 <= j < |files| && !files[j].directory ==>
        && IsRegular(tree, targets[j]) && tree[targets[j]].contents == ContentsAt(before, PartOf(base, files[j]))
        && (policy.Overwrite? ==> files[j].destination == Some(targets[j]))
  }

  lemma PlacedMoved(
      base: Path, files: seq<File>, policy: Policy, before: Tree, verified: Tree, tree: Tree, targets: seq<Path>)
    requires OnlyCreatesParts(base, files, before, verified)
    requires |targets| == |files| && Progressed(base, files, policy, verified, tree, targets)
    ensures AllMoved(base, files, policy, before, tree, targets)
  {
    hide Spared, PartOf;
    forall j | 0 <= j < |files| && !files[j].directory
      ensures IsRegular(tree, targets[j]) && tree[targets[j]].contents == ContentsAt(before, PartOf(base, files[j]))
    {
      assert Placed(base, verified, tree, files[j], targets[j]);
    }
  }

  // And the bytes are as many as the manifest says: outright for every file whose
  // partial no earlier commit took, else unless they collide with what it took.
  ghost predicate AllSized(
      base: Path, files: seq<File>, tree: Tree, targets: seq<Path>, taken: Taken, hash: Bytes -> string)
  {
    && |targets| == |files|
    && forall j :: 0 <= j < |files| && !files[j].directory ==>
        && IsRegular(tree, targets[j])
        && (PartOf(base, files[j]) !in taken ==> |tree[targets[j]].contents| == files[j].size)
        && Sized(files[j], tree[targets[j]].contents, taken, PartOf(base, files[j]), hash)
  }

  lemma PlacedVerified(
      base: Path, files: seq<File>, policy: Policy, verified: Tree, tree: Tree, targets: seq<Path>, rows: Rows,
      hash: Bytes -> string)
    requires Acceptable(files) && RowsSound(files, rows) && AllVerified(base, files, CompleteRows(rows), verified, hash)
    requires |targets| == |files| && Progressed(base, files, policy, verified, tree, targets)
    ensures AllPlaced(files, tree, targets, CompleteRows(rows), hash)
  {
    hide ValidRelative, AllParts, Weight;
    CompleteRowsGenuine(files, rows);
    forall j | 0 <= j < |files| && !files[j].directory
      ensures IsRegular(tree, targets[j]) && hash(tree[targets[j]].contents) == files[j].checksum
      ensures CompleteIndexes(CompleteRows(rows), files[j].id) == Indexes(files[j].chunkCount)
    {
      var f := files[j];
      assert Placed(base, verified, tree, f, targets[j]);
      assert f in files && WellFormedFile(f);
      assert FileVerified(f, CompleteRows(rows), Some(verified[PartOf(base, f)].contents), hash);
      FittingCountCovers(f.size, f.chunkSize);
      CountImpliesComplete(files, CompleteRows(rows), f);
    }
    forall j | 0 <= j < |files| && files[j].directory ensures IsFolder(tree, targets[j]) {
      assert Placed(base, verified, tree, files[j], targets[j]);
    }
  }

  lemma PlacedIffSafe(
      base: Path, files: seq<File>, policy: Policy, verified: Tree, tree: Tree, targets: seq<Path>, rows: Rows,
      hash: Bytes -> string)
    requires Acceptable(files) && RowsSound(files, rows) && AllVerified(base, files, CompleteRows(rows), verified, hash)
    requires |targets| == |files|
    requires CommitSafe(base, files, policy) ==> Progressed(base, files, policy, verified, tree, targets)
    requires EachAtTarget(files, tree, targets) ==> CommitSafe(base, files, policy)
    ensures AllPlaced(files, tree, targets, CompleteRows(rows), hash) <==> CommitSafe(base, files, policy)
  {
    hide Acceptable, RowsSound, AllVerified, Progressed, CommitSafe, EachAtTarget;
    if CommitSafe(base, files, policy) {
      PlacedVerified(base, files, policy, verified, tree, targets, rows, hash);
    }
  }

  lemma PlacedSized(
      incoming: Path, transfers: map<string, Transfer>, rows: map<string, Rows>, id: string, verified: Tree, tree: Tree,
      targets: seq<Path>, taken: Taken, hash: Bytes -> string)
    requires StoreSound(transfers, rows) && id in transfers && StagingSound(incoming, transfers, rows, verified, taken, hash)
    requires AllVerified(incoming + [id], transfers[id].files, CompleteRows(RowsOf(rows, id)), verified, hash)
    requires |targets| == |transfers[id].files|
    requires Progressed(incoming + [id], transfers[id].files, transfers[id].policy, verified, tree, targets)
    ensures AllSized(incoming + [id], transfers[id].files, tree, targets, taken, hash)
  {
    hide Acceptable, RowsSound, AllParts, PartialSound, FileVerified, StoreSound;
    var base, files, complete := incoming + [id], transfers[id].files, CompleteRows(RowsOf(rows, id));
    RowsOfSound(transfers, rows, id);
    CompleteRowsGenuine(files, RowsOf(rows, id));
    assert SessionStaged(base, files, complete, verified, taken, hash);
    forall j | 0 <= j < |files| && !files[j].directory
      ensures IsRegular(tree, targets[j])
      ensures Sized(files[j], tree[targets[j]].contents, taken, PartOf(base, files[j]), hash)
    {
      assert Placed(base, verified, tree, files[j], targets[j]);
      VerifiedIsSized(files, files[j], complete, verified, PartOf(base, files[j]), taken, hash);
    }
  }
}
