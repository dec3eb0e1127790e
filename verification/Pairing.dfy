// One device's side of the pairing exchange as functions on its state: what
// each call does under the service's lock, over symbolic cryptography.
module Pairing {
  import opened Results
  import opened Transfers
  import opened Replay

  const PROTOCOL_VERSION := 1
  const MAX_PENDING := 32
  const COOLDOWN := 2 * SECOND
  const DEFAULT_TTL := 300 * SECOND
  const CODES := 1_000_000

  // --- symbolic cryptography ----------------------------------------------------

  // A begin request or a begin response: the two have the same canonical form.
  // An X25519 key pair is named by its seed, and so is its public point.
  datatype Hello = Hello(
    version: int, requestId: string, deviceId: string, deviceName: string, platform: string,
    publicKey: string, point: nat, seconds: Option<int>, nonce: string)

  // signer: the identity key under which the signature over the body verifies.
  datatype SignedHello = SignedHello(body: Hello, signer: Option<string>)

  predicate SignatureVerifies(h: SignedHello) {
    h.signer == Some(h.body.publicKey)
  }

  function Sign(body: Hello): SignedHello {
    SignedHello(body, Some(body.publicKey))
  }

  // The HKDF input: the Diffie-Hellman value, which does not depend on who holds
  // which private key, and the transcript.
  datatype Secret = Secret(shared: set<nat>, request: Hello, response: Hello)

  function Derive(privateSeed: nat, remotePoint: nat, request: Hello, response: Hello): Secret {
    Secret({privateSeed, remotePoint}, request, response)
  }

  // The last eight bytes of the derived material, modulo a million.
  function Code(digest: Secret -> nat, secret: Secret): nat {
    digest(secret) % CODES
  }

  // Both ends of one exchange derive the same secret, hence the same code, and
  // equal secrets come only from equal transcripts.
  lemma DerivationAgrees(request: Hello, response: Hello, request': Hello, response': Hello)
    ensures Derive(request.point, response.point, request, response) == Derive(response'.point, request'.point, request', response')
            <==> request == request' && response == response'
  {
    assert {request.point, response.point} == {response.point, request.point};
  }

  datatype Action = Confirm | RejectAction | StatusAction | OtherAction

  // key: the secret under which the MAC verifies, if any.
  datatype Proof = Proof(
    version: int, requestId: string, deviceId: string, action: Action, seconds: Option<int>, nonce: string,
    key: Option<Secret>)

  datatype PeerDecision = PeerDecision(
    requestId: string, state: RequestState, localConfirmed: bool, remoteConfirmed: bool, key: Option<Secret>)

  // --- the service's state ---------------------------------------------------------

  datatype RequestState = Pending | Confirming | Paired | Rejected

  datatype Direction = Incoming | Outgoing

  datatype Request = Request(
    id: string, deviceId: string, direction: Direction, code: nat, expiresAt: int,
    state: RequestState, localConfirmed: bool, remoteConfirmed: bool)

  datatype Session = Session(
    request: Request, secret: Secret, remoteKey: string, response: SignedHello, nonces: set<string>, trusted: bool)

  datatype TrustRecord = TrustRecord(deviceId: string, publicKey: string, pairingKey: Secret, blocked: bool, keyChanged: bool)

  datatype State = State(
    sessions: map<string, Session>,
    pendingByDevice: map<string, string>,
    recentBegins: map<string, int>,
    lastBeginByHost: map<string, int>,
    trusted: map<string, TrustRecord>)

  const FRESH_STATE := State(map[], map[], map[], map[], map[])

  // What findOnlinePeer returns.
  datatype Peer = Peer(id: string, hint: string, pairingAvailable: bool)

  datatype Refusal =
    | PeerNotDiscovered | AlreadyTrusted | RequestNotFound | InvalidIdentifier | ProtocolError
    | IdentityChanged | RateLimited | StorageError

  // The request lifetime, and the functions the code calls.
  datatype Config = Config(ttl: int, isUuid: string -> bool, hint: string -> string, digest: Secret -> nat)

  // The canonical form of a UUID.
  predicate UuidShaped(s: string) {
    |s| == 36 && forall i :: 0 <= i < 36 ==> if i in {8, 13, 18, 23} then s[i] == '-' else IsHexDigit(s[i])
  }

  // Some UUIDs for the examples.
  function SampleId(digit: char): string {
    "00000000-0000-4000-8000-00000000000" + [digit]
  }

  lemma SampleShaped(digit: char)
    requires '0' <= digit <= '9'
    ensures UuidShaped(SampleId(digit)) && SampleId(digit)[35] == digit
  {
  }

  // --- pruneLocked -----------------------------------------------------------------

  predicate Expired(session: Session, now: int) {
    session.request.expiresAt < now
  }

  predicate DeviceExpires(s: State, device: string, now: int) {
    exists id :: id in s.sessions && Expired(s.sessions[id], now) && s.sessions[id].request.deviceId == device
  }

  function KeptBegins(recent: map<string, int>, now: int, ttl: int): map<string, int> {
    map id | id in recent && now - recent[id] <= ttl :: recent[id]
  }

  // The request ID was begun less than a request lifetime ago.
  predicate RecentlyBegun(recent: map<string, int>, id: string, now: int, ttl: int) {
    id in recent && now - recent[id] < ttl
  }

  function Prune(s: State, now: int, ttl: int): State {
    s.(sessions := map id | id in s.sessions && !Expired(s.sessions[id], now) :: s.sessions[id],
       pendingByDevice := map d | d in s.pendingByDevice && !DeviceExpires(s, d, now) :: s.pendingByDevice[d],
       recentBegins := KeptBegins(s.recentBegins, now, ttl))
  }

  // The device index names live sessions of that device.
  ghost predicate IndexSound(s: State) {
    && (forall id :: id in s.sessions ==> s.sessions[id].request.id == id)
    && (forall d :: d in s.pendingByDevice ==>
          s.pendingByDevice[d] in s.sessions && s.sessions[s.pendingByDevice[d]].request.deviceId == d)
  }

  lemma PruneKeepsIndex(s: State, now: int, ttl: int)
    requires IndexSound(s)
    ensures IndexSound(Prune(s, now, ttl))
  {
  }

  // --- RequestPairing ---------------------------------------------------------------

  // Crashed is the nil dereference of an index entry without a session.
  datatype Opening = Refused(reason: Refusal) | Known(request: Request) | Proceed | Crashed

  // The part before the exchange; the lookup through the index is unchecked.
  function OpenRequest(s: State, c: Config, deviceId: string, peer: Option<Peer>, now: int): (State, Opening) {
    if !c.isUuid(deviceId) then (s, Opening.Refused(InvalidIdentifier))
    else if peer.None? || !peer.value.pairingAvailable || peer.value.hint == "" then (s, Opening.Refused(PeerNotDiscovered))
    else
      var p := Prune(s, now, c.ttl);
      if deviceId in p.trusted then
        var known := p.trusted[deviceId];
        (p, Opening.Refused(if known.keyChanged || c.hint(known.publicKey) != peer.value.hint then IdentityChanged else AlreadyTrusted))
      else if deviceId in p.pendingByDevice then
        var id := p.pendingByDevice[deviceId];
        (p, if id in p.sessions then Known(p.sessions[id].request) else Crashed)
      else if MAX_PENDING <= |p.sessions| then (p, Opening.Refused(RateLimited))
      else (p, Proceed)
  }

  lemma OpenNeverCrashes(s: State, c: Config, deviceId: string, peer: Option<Peer>, now: int)
    requires IndexSound(s)
    ensures !OpenRequest(s, c, deviceId, peer, now).1.Crashed?
  {
    PruneKeepsIndex(s, now, c.ttl);
    hide Prune;
  }

  // validateBeginResponse
  predicate ResponseValid(c: Config, peer: Peer, begin: Hello, response: SignedHello, now: int) {
    && response.body.version == PROTOCOL_VERSION && response.body.requestId == begin.requestId
    && response.body.deviceId == peer.id && ValidProtocolTime(response.body.seconds, now)
    && SignatureVerifies(response) && c.hint(response.body.publicKey) == peer.hint
  }

  function NewSession(c: Config, id: string, deviceId: string, direction: Direction, secret: Secret,
      remoteKey: string, response: SignedHello, now: int): Session {
    Session(Request(id, deviceId, direction, Code(c.digest, secret), now + c.ttl, Pending, false, false),
      secret, remoteKey, response, {}, false)
  }

  // The part after it.
  function Insert(s: State, session: Session): State {
    s.(sessions := s.sessions[session.request.id := session],
       pendingByDevice := s.pendingByDevice[session.request.deviceId := session.request.id])
  }

  function OutgoingSession(c: Config, peer: Peer, begin: Hello, response: SignedHello, now: int): Session {
    NewSession(c, begin.requestId, peer.id, Outgoing, Derive(begin.point, response.body.point, begin, response.body),
      response.body.publicKey, response, now)
  }

  // --- ReceiveBegin -----------------------------------------------------------------

  datatype Admission = Declined(reason: Refusal) | Existing(response: SignedHello) | Admitted

  predicate BeginValid(c: Config, hello: SignedHello, now: int) {
    && hello.body.version == PROTOCOL_VERSION && c.isUuid(hello.body.requestId) && c.isUuid(hello.body.deviceId)
    && ValidProtocolTime(hello.body.seconds, now)
  }

  // The first critical section, after pruning.
  function AdmitPruned(p: State, c: Config, hello: SignedHello, host: string, now: int): (State, Admission) {
    var id, device := hello.body.requestId, hello.body.deviceId;
    if id in p.sessions then (p, Existing(p.sessions[id].response))
    else if RecentlyBegun(p.recentBegins, id, now, c.ttl) then (p, Declined(ProtocolError))
    else if host in p.lastBeginByHost && now - p.lastBeginByHost[host] < COOLDOWN then (p, Declined(RateLimited))
    else if MAX_PENDING <= |p.sessions| then (p, Declined(RateLimited))
    else if device in p.trusted then
      if p.trusted[device].publicKey != hello.body.publicKey
      then (p.(trusted := p.trusted[device := p.trusted[device].(keyChanged := true)]), Declined(IdentityChanged))
      else (p, Declined(AlreadyTrusted))
    else (p.(lastBeginByHost := p.lastBeginByHost[host := now], recentBegins := p.recentBegins[id := now]), Admitted)
  }

  function AdmitBegin(s: State, c: Config, hello: SignedHello, peer: Option<Peer>, host: string,
      now: int): (State, Admission) {
    if !BeginValid(c, hello, now) then (s, Declined(ProtocolError))
    else if peer.None? || peer.value.hint == "" then (s, Declined(PeerNotDiscovered))
    else if !SignatureVerifies(hello) || c.hint(hello.body.publicKey) != peer.value.hint then (s, Declined(ProtocolError))
    else AdmitPruned(Prune(s, now, c.ttl), c, hello, host, now)
  }

  function IncomingSession(c: Config, begin: SignedHello, response: SignedHello, now: int): Session {
    NewSession(c, begin.body.requestId, begin.body.deviceId, Incoming,
      Derive(response.body.point, begin.body.point, begin.body, response.body), begin.body.publicKey, response, now)
  }

  // The second one: an older session of the device gives way.
  function Replace(s: State, session: Session): State {
    var device, id := session.request.deviceId, session.request.id;
    if device in s.pendingByDevice && s.pendingByDevice[device] != "" && s.pendingByDevice[device] != id
    then Insert(s.(sessions := s.sessions - {s.pendingByDevice[device]}), session)
    else Insert(s, session)
  }

  // --- confirmation -------------------------------------------------------------------

  function RecordOf(session: Session): TrustRecord {
    TrustRecord(session.request.deviceId, session.remoteKey, session.secret, false, false)
  }

  // finalizeLocked: stored is false when the record is invalid or the store fails.
  function Finalize(s: State, id: string, stored: bool): State
    requires id in s.sessions
  {
    if !stored then s
    else
      var session := s.sessions[id];
      s.(trusted := s.trusted[session.request.deviceId := RecordOf(session)],
         pendingByDevice := s.pendingByDevice - {session.request.deviceId},
         sessions := s.sessions[id := session.(
           request := session.request.(localConfirmed := true, remoteConfirmed := true, state := Paired), trusted := true)])
  }

  datatype AcceptOutcome = AcceptNotFound | AcceptRejected | Finalized(stored: bool) | AwaitPeer | SendConfirm

  function WithRequest(s: State, id: string, request: Request): State
    requires id in s.sessions
  {
    s.(sessions := s.sessions[id := s.sessions[id].(request := request)])
  }

  // Accept up to the point where an initiator contacts its peer.
  function Accept(s: State, c: Config, id: string, now: int, stored: bool): (State, AcceptOutcome) {
    var p := Prune(s, now, c.ttl);
    if id !in p.sessions then (p, AcceptNotFound)
    else if p.sessions[id].request.state.Rejected? then (p, AcceptRejected)
    else
      var request := p.sessions[id].request.(localConfirmed := true, state := Confirming);
      var q := WithRequest(p, id, request);
      if request.direction.Incoming? && request.remoteConfirmed then (Finalize(q, id, stored), Finalized(stored))
      else if request.direction.Incoming? then (q, AwaitPeer)
      else (q, SendConfirm)
  }

  // Refresh up to the same point.
  predicate RefreshSends(s: State, id: string) {
    id in s.sessions && !s.sessions[id].trusted
    && s.sessions[id].request.direction.Outgoing? && s.sessions[id].request.localConfirmed
  }

  // applyPeerDecision; None is a refused decision.
  function ApplyDecision(s: State, id: string, d: PeerDecision, stored: bool): Option<State> {
    if id !in s.sessions || d.requestId != id || d.key != Some(s.sessions[id].secret) then None
    else
      var request := s.sessions[id].request.(remoteConfirmed := d.localConfirmed);
      if d.state.Rejected? then Some(WithRequest(s, id, request.(state := Rejected)))
      else if request.localConfirmed && request.remoteConfirmed then Some(Finalize(WithRequest(s, id, request), id, stored))
      else Some(WithRequest(s, id, request.(state := Confirming)))
  }

  predicate ProofValid(c: Config, p: Proof, now: int) {
    p.version == PROTOCOL_VERSION && c.isUuid(p.requestId) && c.isUuid(p.deviceId) && ValidProtocolTime(p.seconds, now)
  }

  // The checks against the session: a proof passes them at most once.
  predicate ProofProcessed(s: State, p: Proof) {
    && p.requestId in s.sessions && s.sessions[p.requestId].request.deviceId == p.deviceId
    && p.key == Some(s.sessions[p.requestId].secret) && p.nonce !in s.sessions[p.requestId].nonces
  }

  function AfterAction(request: Request, action: Action): Request {
    match action
    case Confirm =>
      request.(remoteConfirmed := true, state := if request.state.Pending? then Confirming else request.state)
    case RejectAction => request.(state := Rejected)
    case _ => request
  }

  function ProofUpdate(s: State, p: Proof): State
    requires p.requestId in s.sessions
  {
    var session := s.sessions[p.requestId];
    s.(sessions := s.sessions[p.requestId :=
      session.(nonces := session.nonces + {p.nonce}, request := AfterAction(session.request, p.action))])
  }

  predicate ProofFinalizes(session: Session) {
    session.request.localConfirmed && session.request.remoteConfirmed
    && !session.request.state.Rejected? && !session.trusted
  }

  function DecisionOf(session: Session): PeerDecision {
    PeerDecision(session.request.id, session.request.state, session.request.localConfirmed,
      session.request.remoteConfirmed, Some(session.secret))
  }

  function ReceiveProof(s: State, c: Config, p: Proof, now: int, stored: bool): (State, Result<PeerDecision, Refusal>) {
    if !ProofValid(c, p, now) then (s, Err(ProtocolError))
    else
      var q := Prune(s, now, c.ttl);
      if !ProofProcessed(q, p) then (q, Err(ProtocolError))
      else
        var r := ProofUpdate(q, p);
        if p.action.OtherAction? then (r, Err(ProtocolError))
        else if ProofFinalizes(r.sessions[p.requestId]) then
          if stored then (Finalize(r, p.requestId, true), Ok(DecisionOf(Finalize(r, p.requestId, true).sessions[p.requestId])))
          else (r, Err(StorageError))
        else (r, Ok(DecisionOf(r.sessions[p.requestId])))
  }

  function Reject(s: State, c: Config, id: string, now: int): State {
    var p := Prune(s, now, c.ttl);
    if id in p.sessions then WithRequest(p, id, p.sessions[id].request.(state := Rejected)) else p
  }
}
