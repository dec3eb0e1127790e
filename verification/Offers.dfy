// Offers: who may make one, which are well formed, and the session stored for one.
module Offers {
  import opened Results
  import opened Transfers
  import opened Chunking
  import opened Paths
  import opened Replay
  import opened Sorting
  import opened Lifecycle
  import opened Sessions
  import opened Store
  import Manifests

  // --- offers ------------------------------------------------------------------

  const PROTOCOL_VERSION := 1
  const MINIMUM_TOKEN := 32

  // labelled: the display names pass the length and blankness checks.
  datatype Offer = Offer(
    transferId: string, deviceId: string, labelled: bool, version: int, token: string,
    files: seq<File>, size: int, chunkSize: int)

  // signed: the signature over this offer verifies under the pairing key.
  datatype Authentication = Authentication(deviceId: string, seconds: Option<int>, nonce: string, signed: bool)

  // What the pairing and discovery services say about the offering device.
  datatype Standing = Standing(trusted: bool, keyKnown: bool, atDiscoveredAddress: bool)

  predicate Authentic(lib: Manifests.Library, offer: Offer, auth: Authentication, peer: Standing, checkedAt: int) {
    && lib.isUuid(offer.transferId) && lib.isUuid(offer.deviceId) && peer.trusted
    && auth.deviceId == offer.deviceId && ValidProtocolTime(auth.seconds, checkedAt) && auth.nonce != ""
    && peer.keyKnown && auth.signed
  }

  predicate WellOffered(lib: Manifests.Library, offer: Offer, peer: Standing) {
    && peer.atDiscoveredAddress && offer.labelled
    && offer.version == PROTOCOL_VERSION && 0 <= offer.size && MINIMUM_TOKEN <= |offer.token|
    && Manifests.ManifestValid(lib, offer.files, offer.chunkSize, offer.size)
  }

  // The offering device is trusted, its key is known, and the signature over this
  // very offer, with a nonce, is its own.
  predicate Vouched(offer: Offer, auth: Authentication, peer: Standing) {
    peer.trusted && peer.keyKnown && auth.signed && auth.deviceId == offer.deviceId && auth.nonce != ""
  }

  // It is made from where the device was discovered, and in terms this version
  // understands.
  predicate Supported(lib: Manifests.Library, offer: Offer, peer: Standing) {
    peer.atDiscoveredAddress && offer.labelled && offer.version == 1 && offer.size >= 0 && |offer.token| >= 32
    && Manifests.ManifestValid(lib, offer.files, offer.chunkSize, offer.size)
  }

  // Within two minutes of the clock.
  predicate IsRecent(seconds: Option<int>, checkedAt: int) {
    seconds.Some? && -120 <= Unix(checkedAt) - seconds.value <= 120
  }

  // Any clock before the year 146 billion, and any timestamp but the one whose
  // distance from it has no int64 negation.
  predicate Plausible(seconds: Option<int>, checkedAt: int) {
    SaneClock(checkedAt)
    && (seconds.Some? ==> IsInt64(seconds.value) && Unix(checkedAt) - seconds.value != 0x8000_0000_0000_0000)
  }

  lemma AuthenticIff(lib: Manifests.Library, offer: Offer, auth: Authentication, peer: Standing, checkedAt: int)
    ensures Plausible(auth.seconds, checkedAt) ==>
      (Authentic(lib, offer, auth, peer, checkedAt) <==>
         lib.isUuid(offer.transferId) && lib.isUuid(offer.deviceId) && Vouched(offer, auth, peer)
         && IsRecent(auth.seconds, checkedAt))
    ensures Authentic(lib, offer, auth, peer, checkedAt) ==> Vouched(offer, auth, peer)
    ensures WellOffered(lib, offer, peer) <==> Supported(lib, offer, peer)
  {
    if Plausible(auth.seconds, checkedAt) && auth.seconds.Some? {
      ValidTimeIff(auth.seconds.value, checkedAt);
    }
    hide Manifests.ManifestValid;
  }

  lemma NonceFresh(nonces: Nonces, nonce: string, now: int)
    ensures nonce !in Pruned(nonces, now) <==> (nonce in nonces ==> 300_000_000_000 < now - nonces[nonce])
  {
  }

  // What ReceiveOffer does not check: distinct file IDs, and sizes for which
  // neither a chunk count nor the total wraps.
  ghost predicate Unambiguous(offer: Offer) {
    && DistinctIds(offer.files) && TotalSize(offer.files) <= MAX_INT64
    && forall f :: f in offer.files ==> Fits(f.size, f.chunkSize) && f.destination.None?
  }

  // The files as every later read of the session returns them: the store keeps
  // them by ID and orders them by path.
  function InPathOrder(files: seq<File>): seq<File> {
    Sort(files, Manifests.ByPath())
  }

  function Offered(offer: Offer, tokenHash: string, now: int): Transfer {
    Transfer(offer.transferId, Inbound, InPathOrder(offer.files), offer.size, Queued, 0, false, true, Policy.Prompt,
      offer.chunkSize, now, now, now, None, "", tokenHash)
  }

  lemma {:induction false} InsertTotal(f: File, files: seq<File>, le: (File, File) -> bool)
    ensures TotalSize(Insert(f, files, le)) == f.size + TotalSize(files)
  {
    if files == [] || le(f, files[0]) {
      assert ([f] + files)[1..] == files;
    } else {
      InsertTotal(f, files[1..], le);
      assert ([files[0]] + Insert(f, files[1..], le))[1..] == Insert(f, files[1..], le);
    }
  }

  lemma {:induction false} SortTotal(files: seq<File>, le: (File, File) -> bool)
    ensures TotalSize(Sort(files, le)) == TotalSize(files)
  {
    if files != [] {
      SortTotal(files[1..], le);
      InsertTotal(files[0], Sort(files[1..], le), le);
    }
  }

  lemma OrderedFiles(lib: Manifests.Library, files: seq<File>)
    requires Manifests.CaseDistinct(lib, files) && DistinctIds(files)
    ensures forall f :: f in InPathOrder(files) <==> f in files
    ensures Manifests.CaseDistinct(lib, InPathOrder(files)) && DistinctIds(InPathOrder(files)) && PathSorted(InPathOrder(files))
  {
    var ordered := InPathOrder(files);
    Manifests.ByPathPreorder();
    SortCorrect(files, Manifests.ByPath());
    var folded := (f: File) => lib.lower(f.path);
    var identity := (f: File) => f.id;
    assert DistinctBy(files, folded) && DistinctBy(files, identity);
    DistinctPermuted(files, ordered, folded);
    DistinctPermuted(files, ordered, identity);
    SameMembers(files, ordered);
    hide InPathOrder;
    assert Manifests.CaseDistinct(lib, ordered) by {
      assert forall i, j :: 0 <= i < j < |ordered| ==> folded(ordered[i]) != folded(ordered[j]);
    }
    assert DistinctIds(ordered) by {
      assert forall i, j :: 0 <= i < j < |ordered| ==> identity(ordered[i]) != identity(ordered[j]);
    }
    Manifests.SortedDistinct(lib, ordered);
  }

  lemma OfferedAcceptable(lib: Manifests.Library, offer: Offer)
    requires Manifests.ManifestValid(lib, offer.files, offer.chunkSize, offer.size) && Unambiguous(offer)
    ensures Acceptable(InPathOrder(offer.files)) && offer.size == TotalSize(InPathOrder(offer.files))
  {
    hide ValidRelative, Wrap64;
    var files := InPathOrder(offer.files);
    OrderedFiles(lib, offer.files);
    SortTotal(offer.files, Manifests.ByPath());
    forall f | f in offer.files ensures WellFormedFile(f) && ValidRelative(f.path) && 0 <= f.size {
      assert Manifests.EntryValid(lib, f, offer.chunkSize);
    }
    TotalFitsIff(offer.files);
    forall i, j | 0 <= i < j < |files| ensures files[i].path != files[j].path {
      assert lib.lower(files[i].path) != lib.lower(files[j].path);
    }
  }

  lemma OfferedIsSound(
      lib: Manifests.Library, transfers: map<string, Transfer>, rows: map<string, Rows>, offer: Offer,
      tokenHash: string, now: int)
    requires StoreSound(transfers, rows) && offer.transferId !in transfers
    requires Manifests.ManifestValid(lib, offer.files, offer.chunkSize, offer.size) && Unambiguous(offer)
    ensures StoreSound(transfers[offer.transferId := Offered(offer, tokenHash, now)], rows)
  {
    hide Acceptable, RowsSound, TotalSize, Manifests.ManifestValid, Unambiguous, InPathOrder;
    OfferedAcceptable(lib, offer);
  }

  lemma OfferedIsFresh(
      lib: Manifests.Library, transfers: map<string, Transfer>, rows: map<string, Rows>, offer: Offer,
      tokenHash: string, now: int)
    requires StoreSound(transfers, rows) && offer.transferId !in transfers
    requires Manifests.ManifestValid(lib, offer.files, offer.chunkSize, offer.size) && Unambiguous(offer)
    ensures offer.transferId !in rows
    ensures forall f :: f in Offered(offer, tokenHash, now).files ==> f.destination.None?
  {
    OrderedFiles(lib, offer.files);
  }

  // A new session is the offer and nothing more, and waits for the user's answer.
  lemma NewSessionWaits(offer: Offer, tokenHash: string, now: int, files: seq<File>, policy: Policy)
    ensures var t := Offered(offer, tokenHash, now);
      && t.id == offer.transferId && t.size == offer.size && t.chunkSize == offer.chunkSize && t.tokenHash == tokenHash
      && t.direction == Inbound && t.status == Queued && t.progress == 0 && !t.approved && t.approvalRequired
      && t.policy == Policy.Prompt && t.error == "" && t.finishedAt == None
      && t.createdAt == now && t.updatedAt == now && t.priority == now
      && multiset(t.files) == multiset(offer.files)
      && Called(t, Call.Accept(files, policy), now).Some? && Called(t, Call.Reject, now).Some? && !MayReceive(t)
  {
    Manifests.ByPathPreorder();
    SortCorrect(offer.files, Manifests.ByPath());
  }
}
