// Whole lives of one pairing service, against any messages at all: the device
// index, proof nonces, rejected sessions, and who writes trust.
module PairingRuns {
  import opened Results
  import opened Pairing
  import opened PairingEffects

  datatype Step =
    | List(now: int)
    | Open(deviceId: string, peer: Option<Peer>, now: int)
    | CompleteOutgoing(found: Peer, begin: Hello, response: SignedHello, now: int)
    | Admit(hello: SignedHello, peer: Option<Peer>, host: string, now: int)
    | CompleteIncoming(hello: SignedHello, response: SignedHello, now: int)
    | Accepting(id: string, now: int, stored: bool)
    | Applying(id: string, decision: PeerDecision, stored: bool)
    | Proving(proof: Proof, now: int, stored: bool)
    | Rejecting(id: string, now: int)
    | Removing(deviceId: string)
    | Restarting

  // A new process: only the trusted devices are on disk.
  function Restarted(s: State): State {
    FRESH_STATE.(trusted := s.trusted)
  }

  function Apply(c: Config, s: State, step: Step): State {
    match step
    case List(now) => Prune(s, now, c.ttl)
    case Open(deviceId, peer, now) => OpenRequest(s, c, deviceId, peer, now).0
    case CompleteOutgoing(peer, begin, response, now) =>
      if ResponseValid(c, peer, begin, response, now) then Insert(s, OutgoingSession(c, peer, begin, response, now)) else s
    case Admit(hello, peer, host, now) => AdmitBegin(s, c, hello, peer, host, now).0
    case CompleteIncoming(hello, response, now) => Replace(s, IncomingSession(c, hello, response, now))
    case Accepting(id, now, stored) => Accept(s, c, id, now, stored).0
    case Applying(id, decision, stored) =>
      var r := ApplyDecision(s, id, decision, stored);
      if r.Some? then r.value else s
    case Proving(p, now, stored) => ReceiveProof(s, c, p, now, stored).0
    case Rejecting(id, now) => Reject(s, c, id, now)
    case Removing(deviceId) => s.(trusted := s.trusted - {deviceId})
    case Restarting => Restarted(s)
  }

  // --- the device index -----------------------------------------------------------

  // The ID is not indexed for another device.
  ghost predicate FreeFor(s: State, id: string, device: string) {
    forall d :: d in s.pendingByDevice && s.pendingByDevice[d] == id ==> d == device
  }

  // Storing a session keeps the index sound exactly when its ID is not indexed
  // for another device.
  lemma InsertIndexIff(s: State, session: Session)
    requires IndexSound(s)
    ensures IndexSound(Insert(s, session)) <==> FreeFor(s, session.request.id, session.request.deviceId)
  {
    var id, device := session.request.id, session.request.deviceId;
    var after := Insert(s, session);
    forall d | d in s.pendingByDevice && s.pendingByDevice[d] == id && d != device ensures !IndexSound(after) {
      assert after.pendingByDevice[d] == id && after.sessions[id].request.deviceId == device;
    }
  }

  function Dropped(s: State, device: string): State
    requires device in s.pendingByDevice
  {
    s.(sessions := s.sessions - {s.pendingByDevice[device]}, pendingByDevice := s.pendingByDevice - {device})
  }

  lemma DroppedSound(s: State, device: string, id: string)
    requires IndexSound(s) && device in s.pendingByDevice
    ensures IndexSound(Dropped(s, device))
    ensures FreeFor(Dropped(s, device), id, device) <==> FreeFor(s, id, device)
  {
    assert forall d :: d in s.pendingByDevice ==> d == device || d in Dropped(s, device).pendingByDevice;
  }

  lemma ReplaceIndexIff(s: State, session: Session)
    requires IndexSound(s)
    ensures IndexSound(Replace(s, session)) <==> FreeFor(s, session.request.id, session.request.deviceId)
  {
    hide IndexSound, FreeFor;
    var id, device := session.request.id, session.request.deviceId;
    if device in s.pendingByDevice && s.pendingByDevice[device] != "" && s.pendingByDevice[device] != id {
      DroppedSound(s, device, id);
      InsertIndexIff(Dropped(s, device), session);
      assert s.pendingByDevice[device := id] == (s.pendingByDevice - {device})[device := id];
      assert Replace(s, session) == Insert(Dropped(s, device), session);
    } else {
      InsertIndexIff(s, session);
    }
  }

  // A request ID belongs to one device.
  ghost predicate OneDevicePerId(s: State, step: Step) {
    match step
    case CompleteOutgoing(peer, begin, response, now) => FreeFor(s, begin.requestId, peer.id)
    case CompleteIncoming(hello, response, now) => FreeFor(s, hello.body.requestId, hello.body.deviceId)
    case _ => true
  }

  lemma SameIndex(s: State, after: State)
    requires IndexSound(s) && after.sessions.Keys == s.sessions.Keys
    requires after.pendingByDevice.Keys <= s.pendingByDevice.Keys
    requires forall d :: d in after.pendingByDevice ==> after.pendingByDevice[d] == s.pendingByDevice[d]
    requires forall id :: id in s.sessions ==>
      after.sessions[id].request.id == id && after.sessions[id].request.deviceId == s.sessions[id].request.deviceId
    ensures IndexSound(after)
  {
  }

  lemma FinalizeKeepsIndex(s: State, id: string, stored: bool)
    requires IndexSound(s) && id in s.sessions
    ensures IndexSound(Finalize(s, id, stored))
  {
    SameIndex(s, Finalize(s, id, stored));
  }

  lemma RequestKeepsIndex(s: State, id: string, request: Request)
    requires IndexSound(s) && id in s.sessions
    requires request.id == id && request.deviceId == s.sessions[id].request.deviceId
    ensures IndexSound(WithRequest(s, id, request))
  {
    SameIndex(s, WithRequest(s, id, request));
  }

  lemma ProofUpdateKeepsIndex(s: State, p: Proof)
    requires IndexSound(s) && p.requestId in s.sessions
    ensures IndexSound(ProofUpdate(s, p))
  {
    SameIndex(s, ProofUpdate(s, p));
  }

  lemma IdOf(s: State, id: string)
    requires IndexSound(s) && id in s.sessions
    ensures s.sessions[id].request.id == id
  {
  }

  lemma ConfirmationKeepsIndex(c: Config, s: State, step: Step)
    requires IndexSound(s) && (step.Accepting? || step.Applying? || step.Proving? || step.Rejecting?)
    ensures IndexSound(Apply(c, s, step))
  {
    hide IndexSound, Prune, Finalize, WithRequest, ProofUpdate, ProofValid;
    match step
    case Accepting(id, now, stored) =>
      var p := Prune(s, now, c.ttl);
      PruneKeepsIndex(s, now, c.ttl);
      if id in p.sessions && !p.sessions[id].request.state.Rejected? {
        IdOf(p, id);
        var request := p.sessions[id].request.(localConfirmed := true, state := Confirming);
        RequestKeepsIndex(p, id, request);
        RequestEffect(p, id, request, id);
        FinalizeKeepsIndex(WithRequest(p, id, request), id, stored);
      }
    case Applying(id, d, stored) =>
      if id in s.sessions {
        IdOf(s, id);
        var request := s.sessions[id].request.(remoteConfirmed := d.localConfirmed);
        RequestKeepsIndex(s, id, request);
        RequestKeepsIndex(s, id, request.(state := Rejected));
        RequestKeepsIndex(s, id, request.(state := Confirming));
        RequestEffect(s, id, request, id);
        FinalizeKeepsIndex(WithRequest(s, id, request), id, stored);
      }
    case Proving(p, now, stored) =>
      var q := Prune(s, now, c.ttl);
      PruneKeepsIndex(s, now, c.ttl);
      if p.requestId in q.sessions {
        ProofUpdateKeepsIndex(q, p);
        ProofUpdateEffect(q, p, p.requestId);
        FinalizeKeepsIndex(ProofUpdate(q, p), p.requestId, true);
      }
    case Rejecting(id, now) =>
      var p := Prune(s, now, c.ttl);
      PruneKeepsIndex(s, now, c.ttl);
      if id in p.sessions {
        IdOf(p, id);
        RequestKeepsIndex(p, id, p.sessions[id].request.(state := Rejected));
      }
  }

  lemma AdmitKeepsIndex(c: Config, s: State, hello: SignedHello, peer: Option<Peer>, host: string, now: int)
    requires IndexSound(s)
    ensures IndexSound(AdmitBegin(s, c, hello, peer, host, now).0)
  {
    hide Prune, BeginValid, IndexSound, AdmitPruned;
    PruneKeepsIndex(s, now, c.ttl);
    var p := Prune(s, now, c.ttl);
    AdmitPrunedEffect(p, c, hello, host, now, "");
    IdsKept(p);
    SameIndex(p, AdmitPruned(p, c, hello, host, now).0);
  }

  lemma IdsKept(s: State)
    requires IndexSound(s)
    ensures forall id :: id in s.sessions ==> s.sessions[id].request.id == id
  {
  }

  lemma RestartedSound(s: State)
    ensures IndexSound(Restarted(s))
  {
  }

  lemma StepKeepsIndex(c: Config, s: State, step: Step)
    requires IndexSound(s) && OneDevicePerId(s, step)
    ensures IndexSound(Apply(c, s, step))
  {
    hide Prune, Accept, ReceiveProof, Reject, ApplyDecision, Insert, Replace, ResponseValid, FreeFor, AdmitBegin;
    hide IndexSound;
    match step
    case List(now) => PruneKeepsIndex(s, now, c.ttl);
    case Open(deviceId, peer, now) => PruneKeepsIndex(s, now, c.ttl);
    case CompleteOutgoing(peer, begin, response, now) => InsertIndexIff(s, OutgoingSession(c, peer, begin, response, now));
    case Admit(hello, peer, host, now) => AdmitKeepsIndex(c, s, hello, peer, host, now);
    case CompleteIncoming(hello, response, now) => ReplaceIndexIff(s, IncomingSession(c, hello, response, now));
    case Removing(deviceId) =>
      IdsKept(s);
      SameIndex(s, s.(trusted := s.trusted - {deviceId}));
    case Restarting => RestartedSound(s);
    case _ => ConfirmationKeepsIndex(c, s, step);
  }

  // --- runs ----------------------------------------------------------------------

  function Reached(c: Config, s: State, steps: seq<Step>): State
    decreases |steps|
  {
    if steps == [] then s else Reached(c, Apply(c, s, steps[0]), steps[1..])
  }

  // Along the run a request ID belongs to one device.
  ghost predicate Lawful(c: Config, s: State, steps: seq<Step>)
    decreases |steps|
  {
    steps == [] || (OneDevicePerId(s, steps[0]) && Lawful(c, Apply(c, s, steps[0]), steps[1..]))
  }

  // In every state reached that way the index names live sessions of the right
  // device, so the unchecked lookup of RequestPairing never crashes.
  lemma {:induction false} IndexAlwaysSound(c: Config, s: State, steps: seq<Step>)
    requires IndexSound(s) && Lawful(c, s, steps)
    ensures IndexSound(Reached(c, s, steps))
    ensures forall deviceId, peer, now :: !OpenRequest(Reached(c, s, steps), c, deviceId, peer, now).1.Crashed?
    decreases |steps|
  {
    hide IndexSound, Apply, OneDevicePerId, OpenRequest;
    if steps != [] {
      StepKeepsIndex(c, s, steps[0]);
      IndexAlwaysSound(c, Apply(c, s, steps[0]), steps[1..]);
    } else {
      forall deviceId, peer, now ensures !OpenRequest(s, c, deviceId, peer, now).1.Crashed? {
        OpenNeverCrashes(s, c, deviceId, peer, now);
      }
    }
  }

  // Two devices using one ID break it. A device's begin is admitted and answered;
  // then an exchange with another device ends under the same ID and overwrites
  // the session. Once that expires, pairing with the first device again crashes.
  lemma SharedIdCrashes(c: Config, hello: SignedHello, peer: Peer, host: string, began: int, response: SignedHello,
      other: Peer, begin: Hello, answer: SignedHello, ended: int, now: int)
    requires AdmitBegin(FRESH_STATE, c, hello, Some(peer), host, began).1.Admitted? && peer.pairingAvailable
    requires ResponseValid(c, other, begin, answer, ended) && 0 <= c.ttl
    requires begin.requestId == hello.body.requestId && other.id != hello.body.deviceId
    requires ended + c.ttl < now
    ensures var steps := [Admit(hello, Some(peer), host, began), CompleteIncoming(hello, response, began),
                          CompleteOutgoing(other, begin, answer, ended)];
      OpenRequest(Reached(c, FRESH_STATE, steps), c, hello.body.deviceId, Some(peer), now).1.Crashed?
  {
    hide AdmitBegin, ResponseValid, OpenRequest, Reached, Insert, Replace, NewSession;
    AdmittedFresh(c, hello, peer, host, began);
    var s := AdmitBegin(FRESH_STATE, c, hello, Some(peer), host, began).0;
    var a, b := IncomingSession(c, hello, response, began), OutgoingSession(c, other, begin, answer, ended);
    ReachedThree(c, FRESH_STATE, Admit(hello, Some(peer), host, began), CompleteIncoming(hello, response, began),
      CompleteOutgoing(other, begin, answer, ended));
    SessionsMade(c, hello, response, began, other, begin, answer, ended);
    SecondSessionWins(s, a, b);
    IndexDangles(c, Insert(Replace(s, a), b), b, hello.body.deviceId, peer, now);
  }

  lemma ReachedThree(c: Config, s: State, x: Step, y: Step, z: Step)
    ensures Reached(c, s, [x, y, z]) == Apply(c, Apply(c, Apply(c, s, x), y), z)
  {
    hide Apply;
    ReachedFrom(c, s, x, [y, z]);
    ReachedFrom(c, Apply(c, s, x), y, [z]);
    ReachedFrom(c, Apply(c, Apply(c, s, x), y), z, []);
    assert [y] + [z] == [y, z] && [x] + [y, z] == [x, y, z] && [z] + [] == [z];
  }

  lemma ReachedFrom(c: Config, s: State, x: Step, rest: seq<Step>)
    ensures Reached(c, s, [x] + rest) == Reached(c, Apply(c, s, x), rest)
  {
    hide Apply;
    assert ([x] + rest)[1..] == rest;
  }

  lemma AdmittedFresh(c: Config, hello: SignedHello, peer: Peer, host: string, now: int)
    requires AdmitBegin(FRESH_STATE, c, hello, Some(peer), host, now).1.Admitted?
    ensures var s := AdmitBegin(FRESH_STATE, c, hello, Some(peer), host, now).0;
      s.sessions == map[] && s.pendingByDevice == map[] && s.trusted == map[]
    ensures c.isUuid(hello.body.deviceId) && peer.hint != ""
  {
    assert Prune(FRESH_STATE, now, c.ttl) == FRESH_STATE;
  }

  lemma SessionsMade(c: Config, hello: SignedHello, response: SignedHello, began: int, other: Peer, begin: Hello,
      answer: SignedHello, ended: int)
    ensures var a := IncomingSession(c, hello, response, began).request;
      a.id == hello.body.requestId && a.deviceId == hello.body.deviceId
    ensures var b := OutgoingSession(c, other, begin, answer, ended).request;
      b.id == begin.requestId && b.deviceId == other.id && b.expiresAt == ended + c.ttl
  {
  }

  lemma SecondSessionWins(s: State, a: Session, b: Session)
    requires s.sessions == map[] && s.pendingByDevice == map[] && a.request.id == b.request.id
    requires a.request.deviceId != b.request.deviceId
    ensures var t := Insert(Replace(s, a), b);
      && t.sessions == map[b.request.id := b] && t.trusted == s.trusted
      && t.pendingByDevice == map[a.request.deviceId := b.request.id, b.request.deviceId := b.request.id]
  {
  }

  lemma IndexDangles(c: Config, t: State, session: Session, device: string, peer: Peer, now: int)
    requires t.sessions == map[session.request.id := session] && Expired(session, now) && t.trusted == map[]
    requires device in t.pendingByDevice && device != session.request.deviceId
    requires c.isUuid(device) && peer.pairingAvailable && peer.hint != ""
    ensures OpenRequest(t, c, device, Some(peer), now).1.Crashed?
  {
    var p := Prune(t, now, c.ttl);
    assert p.sessions == map[] && device in p.pendingByDevice;
  }

  // Such messages exist.
  lemma SharedIdHappens() returns (c: Config, steps: seq<Step>, device: string, peer: Peer, now: int)
    ensures c.isUuid == UuidShaped && UuidShaped(device)
    ensures OpenRequest(Reached(c, FRESH_STATE, steps), c, device, Some(peer), now).1.Crashed?
  {
    hide UuidShaped, SampleId;
    var id, other := SampleId('1'), SampleId('2');
    device := SampleId('3');
    SampleShaped('1');
    SampleShaped('2');
    SampleShaped('3');
    c := Config(DEFAULT_TTL, UuidShaped, key => key, _ => 0);
    peer, now := Peer(device, "k", true), DEFAULT_TTL + 1;
    var hello := Sign(Hello(PROTOCOL_VERSION, id, device, "", "", "k", 0, Some(0), ""));
    var begin := Hello(PROTOCOL_VERSION, id, "", "", "", "m", 1, Some(0), "");
    var answer := Sign(Hello(PROTOCOL_VERSION, id, other, "", "", "l", 2, Some(0), ""));
    assert Prune(FRESH_STATE, 0, c.ttl) == FRESH_STATE;
    assert AdmitBegin(FRESH_STATE, c, hello, Some(peer), "", 0).1.Admitted?;
    steps := [Admit(hello, Some(peer), "", 0), CompleteIncoming(hello, hello, 0),
      CompleteOutgoing(Peer(other, "l", true), begin, answer, 0)];
    SharedIdCrashes(c, hello, peer, "", 0, hello, Peer(other, "l", true), begin, answer, 0, now);
  }

  // --- proof nonces ----------------------------------------------------------------

  predicate Inserts(step: Step, id: string) {
    (step.CompleteOutgoing? && step.begin.requestId == id)
    || (step.CompleteIncoming? && step.hello.body.requestId == id)
  }

  predicate NonceHeld(s: State, id: string, nonce: string) {
    id in s.sessions ==> nonce in s.sessions[id].nonces
  }

  // The step is a proof that passes every check, the nonce check included.
  predicate Processes(c: Config, s: State, step: Step, id: string, nonce: string) {
    step.Proving? && step.proof.requestId == id && step.proof.nonce == nonce
    && ProofValid(c, step.proof, step.now) && ProofProcessed(Prune(s, step.now, c.ttl), step.proof)
  }

  lemma StepEffect(c: Config, s: State, step: Step, id: string)
    requires !Inserts(step, id)
    ensures Evolves(Held(s, id), Held(Apply(c, s, step), id), step.Applying? && step.id == id)
  {
    hide Prune, OpenRequest, Insert, AdmitBegin, Replace, Accept, ApplyDecision, ReceiveProof, Reject, ResponseValid;
    hide IndexSound;
    match step
    case List(now) => PruneEffect(s, now, c.ttl, id);
    case Open(deviceId, peer, now) => OpenEffect(s, c, deviceId, peer, now, id);
    case CompleteOutgoing(peer, begin, response, now) => InsertEffect(s, OutgoingSession(c, peer, begin, response, now), id);
    case Admit(hello, peer, host, now) => AdmitEffect(s, c, hello, peer, host, now, id, "");
    case CompleteIncoming(hello, response, now) => ReplaceEffect(s, IncomingSession(c, hello, response, now), id);
    case Accepting(at, now, stored) => AcceptEffect(s, c, at, now, stored, id);
    case Applying(at, decision, stored) => ApplyEffect(s, at, decision, stored, id);
    case Proving(p, now, stored) => ProofEffect(s, c, p, now, stored, id);
    case Rejecting(at, now) => RejectEffect(s, c, at, now, id);
    case Removing(deviceId) =>
    case Restarting =>
  }

  lemma ProcessedIsHeld(c: Config, s: State, step: Step, id: string, nonce: string)
    requires Processes(c, s, step, id, nonce)
    ensures NonceHeld(Apply(c, s, step), id, nonce)
  {
    hide ProofValid, Prune, ProofUpdate, Finalize, IndexSound;
    var q := Prune(s, step.now, c.ttl);
    ProofUpdateEffect(q, step.proof, id);
    FinalizeEffect(ProofUpdate(q, step.proof), id, true, id);
  }

  // Within a session's life no proof nonce is processed twice: once one has been,
  // it is refused in every later state until a new session takes the ID.
  lemma {:induction false} NonceProcessedOnce(c: Config, s: State, steps: seq<Step>, id: string, nonce: string)
    requires steps != []
    requires Processes(c, s, steps[0], id, nonce) || NonceHeld(s, id, nonce)
    requires forall k :: 0 <= k < |steps| ==> !Inserts(steps[k], id)
    ensures NonceHeld(Reached(c, s, steps), id, nonce)
    ensures forall later :: !Processes(c, Reached(c, s, steps), later, id, nonce)
    decreases |steps|
  {
    hide Apply, IndexSound, Inserts, Processes;
    NonceStep(c, s, steps[0], id, nonce);
    if |steps| > 1 {
      NonceProcessedOnce(c, Apply(c, s, steps[0]), steps[1..], id, nonce);
    } else {
      assert Reached(c, s, steps) == Apply(c, s, steps[0]);
      forall later ensures !Processes(c, Reached(c, s, steps), later, id, nonce) {
        HeldIsRefused(c, Reached(c, s, steps), later, id, nonce);
      }
    }
  }

  lemma NonceStep(c: Config, s: State, step: Step, id: string, nonce: string)
    requires !Inserts(step, id)
    requires Processes(c, s, step, id, nonce) || NonceHeld(s, id, nonce)
    ensures NonceHeld(Apply(c, s, step), id, nonce)
  {
    hide Apply, IndexSound, Inserts, Processes;
    if Processes(c, s, step, id, nonce) {
      ProcessedIsHeld(c, s, step, id, nonce);
    } else {
      StepEffect(c, s, step, id);
    }
  }

  lemma HeldIsRefused(c: Config, s: State, step: Step, id: string, nonce: string)
    requires NonceHeld(s, id, nonce)
    ensures !Processes(c, s, step, id, nonce)
  {
    hide Prune, ProofValid;
    if step.Proving? {
      PruneEffect(s, step.now, c.ttl, id);
    }
  }

  // --- trust -----------------------------------------------------------------------

  // The session for which a step writes a trust record.
  ghost function TrustWriter(c: Config, s: State, step: Step): Option<string> {
    match step
    case Accepting(id, now, stored) => if Accept(s, c, id, now, stored).1 == Finalized(true) then Some(id) else None
    case Applying(id, d, stored) =>
      if stored && id in s.sessions && ApplyDecision(s, id, d, stored).Some? && !d.state.Rejected?
        && s.sessions[id].request.localConfirmed && d.localConfirmed
      then Some(id) else None
    case Proving(p, now, stored) => if ProofWrites(s, c, p, now, stored) then Some(p.requestId) else None
    case _ => None
  }

  // A trust record appears, or changes its pinned key or pairing key, only
  // through that session, and then for its device with its keys.
  lemma TrustComesFromSessions(c: Config, s: State, step: Step, device: string)
    requires device in Apply(c, s, step).trusted
    requires device in s.trusted ==>
      Apply(c, s, step).trusted[device].publicKey != s.trusted[device].publicKey
      || Apply(c, s, step).trusted[device].pairingKey != s.trusted[device].pairingKey
    ensures TrustWriter(c, s, step).Some?
    ensures var id := TrustWriter(c, s, step).value;
      && id in s.sessions && s.sessions[id].request.deviceId == device
      && Apply(c, s, step).trusted[device] == RecordOf(s.sessions[id])
  {
    hide Prune, OpenRequest, Insert, AdmitBegin, Replace, Accept, ApplyDecision, ReceiveProof, Reject, ResponseValid;
    hide IndexSound, ProofWrites;
    match step
    case List(now) => PruneEffect(s, now, c.ttl, "");
    case Open(deviceId, peer, now) => OpenEffect(s, c, deviceId, peer, now, "");
    case CompleteOutgoing(peer, begin, response, now) => InsertEffect(s, OutgoingSession(c, peer, begin, response, now), "");
    case Admit(hello, peer, host, now) => AdmitEffect(s, c, hello, peer, host, now, "", device);
    case CompleteIncoming(hello, response, now) => ReplaceEffect(s, IncomingSession(c, hello, response, now), "");
    case Accepting(at, now, stored) => AcceptEffect(s, c, at, now, stored, at);
    case Applying(at, decision, stored) => ApplyEffect(s, at, decision, stored, at);
    case Proving(p, now, stored) => ProofEffect(s, c, p, now, stored, p.requestId);
    case Rejecting(at, now) => RejectEffect(s, c, at, now, at);
    case Removing(deviceId) =>
    case Restarting =>
  }

  predicate RejectedThere(s: State, id: string) {
    id in s.sessions ==> s.sessions[id].request.state == Rejected
  }

  // The peer's decision, if it is no rejection itself.
  predicate Overrules(step: Step, id: string) {
    step.Applying? && step.id == id && step.decision.state != Rejected
  }

  lemma AppliedRejection(s: State, id: string, d: PeerDecision, stored: bool)
    requires RejectedThere(s, id) && d.state == Rejected && ApplyDecision(s, id, d, stored).Some?
    ensures RejectedThere(ApplyDecision(s, id, d, stored).value, id)
  {
  }

  lemma RejectionStep(c: Config, s: State, step: Step, id: string)
    requires RejectedThere(s, id)
    requires !Inserts(step, id) && !Overrules(step, id)
    ensures TrustWriter(c, s, step) != Some(id)
    ensures RejectedThere(Apply(c, s, step), id)
  {
    if step.Applying? && step.id == id && ApplyDecision(s, id, step.decision, step.stored).Some? {
      AppliedRejection(s, id, step.decision, step.stored);
      return;
    }
    hide Accept, ApplyDecision, ReceiveProof, ProofWrites, IndexSound, Apply, Inserts;
    StepEffect(c, s, step, id);
    if step.Accepting? {
      AcceptEffect(s, c, step.id, step.now, step.stored, id);
    } else if step.Proving? {
      ProofEffect(s, c, step.proof, step.now, step.stored, id);
    }
  }

  // Once a session is rejected it stays rejected and no step writes trust for it,
  // whatever arrives, but a decision of its peer that an initiator asked for and that
  // is no rejection; for incoming sessions none is ever asked for.
  lemma {:induction false} RejectionIsSticky(c: Config, s: State, steps: seq<Step>, id: string)
    requires RejectedThere(s, id)
    requires forall k :: 0 <= k < |steps| ==> !Inserts(steps[k], id) && !Overrules(steps[k], id)
    ensures RejectedThere(Reached(c, s, steps), id)
    ensures forall k :: 0 <= k < |steps| ==> TrustWriter(c, Reached(c, s, steps[..k]), steps[k]) != Some(id)
    decreases |steps|
  {
    hide Inserts, Apply, TrustWriter, RejectedThere;
    if steps != [] {
      RejectionStep(c, s, steps[0], id);
      RejectionIsSticky(c, Apply(c, s, steps[0]), steps[1..], id);
      forall k | 0 <= k < |steps| ensures TrustWriter(c, Reached(c, s, steps[..k]), steps[k]) != Some(id) {
        if k > 0 {
          assert steps[..k][1..] == steps[1..][..k - 1];
        }
      }
    }
  }

  // --- every way to say no ------------------------------------------------------------

  // The three calls that reject a session: the local user's, the peer's proof, and
  // the peer's decision that an initiator applies.
  predicate SaysNo(c: Config, s: State, step: Step, id: string) {
    match step
    case Rejecting(at, now) => at == id && id in Prune(s, now, c.ttl).sessions
    case Proving(p, now, _) =>
      p.action == RejectAction && p.requestId == id && ProofValid(c, p, now) && ProofProcessed(Prune(s, now, c.ttl), p)
    case Applying(at, d, stored) => at == id && d.state == Rejected && ApplyDecision(s, id, d, stored).Some?
    case _ => false
  }

  lemma NoIsHeard(c: Config, s: State, step: Step, id: string)
    requires SaysNo(c, s, step, id) && IndexSound(s)
    ensures id in Apply(c, s, step).sessions && Apply(c, s, step).sessions[id].request.state == Rejected
    ensures TrustWriter(c, s, step) != Some(id)
    ensures step.Proving? ==>
      && var answer := ReceiveProof(s, c, step.proof, step.now, step.stored).1;
      && answer.Ok? && answer.value.state == Rejected && answer.value.requestId == id
      && answer.value.key == Some(s.sessions[id].secret)
  {
    hide DeviceExpires, ProofValid;
  }

  // After any of them, the session stays rejected, the local user's acceptance is
  // refused, and no step writes trust for it until a new session takes the ID - but,
  // for an initiator, a later decision of its peer that is none.
  lemma RejectionIsFinal(c: Config, s: State, no: Step, steps: seq<Step>, id: string, now: int, stored: bool)
    requires SaysNo(c, s, no, id) && IndexSound(s)
    requires forall k :: 0 <= k < |steps| ==> !Inserts(steps[k], id) && !Overrules(steps[k], id)
    ensures var after := Apply(c, s, no);
      && RejectedThere(Reached(c, after, steps), id)
      && Accept(Reached(c, after, steps), c, id, now, stored).1 in {AcceptRejected, AcceptNotFound}
      && forall k :: 0 <= k < |steps| ==> TrustWriter(c, Reached(c, after, steps[..k]), steps[k]) != Some(id)
  {
    hide SaysNo, Apply, TrustWriter, Inserts, IndexSound, Prune;
    NoIsHeard(c, s, no, id);
    RejectionIsSticky(c, Apply(c, s, no), steps, id);
    PruneEffect(Reached(c, Apply(c, s, no), steps), now, c.ttl, id);
  }

  // That exception is real: the service of an initiator applies a decision without
  // looking at its own user's rejection, so a no is undone exactly by a decision that
  // is none, and trust is written in spite of it when both users once said yes.
  lemma DecisionUndoesIff(s: State, id: string, d: PeerDecision, stored: bool)
    requires id in s.sessions && s.sessions[id].request.state == Rejected && ApplyDecision(s, id, d, stored).Some?
    ensures var r := ApplyDecision(s, id, d, stored).value;
      var yes := d.state != Rejected && s.sessions[id].request.localConfirmed && d.localConfirmed;
      && id in r.sessions
      && (r.sessions[id].request.state != Rejected <==> d.state != Rejected && (yes ==> stored))
      && (yes && stored ==> r.sessions[id].request.state == Paired && s.sessions[id].request.deviceId in r.trusted)
      && (!(yes && stored) ==> r.trusted == s.trusted)
  {
  }
}
