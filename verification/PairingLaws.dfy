// What each pairing call does for its caller, case by case, and how long things
// last: the promises the exchange is built on.
module PairingLaws {
  import opened Results
  import opened Replay
  import opened Pairing
  import opened PairingEffects
  import opened PairingRuns

  // --- how long things last -----------------------------------------------------------

  // A session lives up to and including its expiry; with it goes the entry of its
  // device, and with its lifetime the memory of its begin. Nothing else is forgotten.
  lemma PruneForgets(s: State, now: int, ttl: int, id: string, device: string)
    ensures id in Prune(s, now, ttl).sessions <==> id in s.sessions && now <= s.sessions[id].request.expiresAt
    ensures id in Prune(s, now, ttl).sessions ==> Prune(s, now, ttl).sessions[id] == s.sessions[id]
    ensures id in Prune(s, now, ttl).recentBegins <==> id in s.recentBegins && now - s.recentBegins[id] <= ttl
    ensures id in Prune(s, now, ttl).recentBegins ==> Prune(s, now, ttl).recentBegins[id] == s.recentBegins[id]
    ensures device in Prune(s, now, ttl).pendingByDevice <==>
      device in s.pendingByDevice
      && forall k :: k in s.sessions && s.sessions[k].request.deviceId == device ==>
           now <= s.sessions[k].request.expiresAt
    ensures device in Prune(s, now, ttl).pendingByDevice ==>
      Prune(s, now, ttl).pendingByDevice[device] == s.pendingByDevice[device]
    ensures Prune(s, now, ttl).trusted == s.trusted && Prune(s, now, ttl).lastBeginByHost == s.lastBeginByHost
  {
  }

  // A new session lives for one request lifetime, is confirmed by nobody, and shows
  // six digits of its own secret.
  lemma NewSessionIs(c: Config, peer: Peer, begin: Hello, hello: SignedHello, response: SignedHello, now: int)
    ensures var o := OutgoingSession(c, peer, begin, response, now);
      && o.request.id == begin.requestId && o.request.deviceId == peer.id && o.request.direction == Outgoing
      && o.remoteKey == response.body.publicKey && Fresh(c, o, response, now)
      && o.secret.request == begin && o.secret.response == response.body
    ensures var i := IncomingSession(c, hello, response, now);
      && i.request.id == hello.body.requestId && i.request.deviceId == hello.body.deviceId
      && i.request.direction == Incoming
      && i.remoteKey == hello.body.publicKey && Fresh(c, i, response, now)
      && i.secret.request == hello.body && i.secret.response == response.body
    ensures begin == hello.body ==>
      OutgoingSession(c, peer, begin, response, now).secret == IncomingSession(c, hello, response, now).secret
  {
    assert {begin.point, response.body.point} == {response.body.point, begin.point};
  }

  predicate Fresh(c: Config, s: Session, response: SignedHello, now: int) {
    && s.request.expiresAt == now + c.ttl && s.request.state == Pending
    && !s.request.localConfirmed && !s.request.remoteConfirmed && !s.trusted && s.nonces == {}
    && s.response == response && s.request.code == c.digest(s.secret) % 1_000_000
  }

  // --- asking for a pairing ---------------------------------------------------------------

  predicate Reachable(peer: Option<Peer>) {
    peer.Some? && peer.value.pairingAvailable && peer.value.hint != ""
  }

  // The record of a device that is paired and has shown the same key since.
  predicate StillTheSame(c: Config, r: TrustRecord, hint: string) {
    !r.keyChanged && c.hint(r.publicKey) == hint
  }

  // An answer for every case: a device that is paired needs none, unless its key is
  // not the pinned one; one with a request under way gets that request; and
  // otherwise the exchange begins, as long as fewer than 32 are open.
  lemma OpeningAnswers(s: State, c: Config, device: string, peer: Option<Peer>, now: int)
    requires IndexSound(s)
    ensures var (t, r) := OpenRequest(s, c, device, peer, now);
      var open := Prune(s, now, c.ttl).sessions;
      && (!c.isUuid(device) ==> r == Opening.Refused(InvalidIdentifier) && t == s)
      && (c.isUuid(device) && !Reachable(peer) ==> r == Opening.Refused(PeerNotDiscovered) && t == s)
      && (c.isUuid(device) && Reachable(peer) ==>
            && t == Prune(s, now, c.ttl)
            && (device in s.trusted && StillTheSame(c, s.trusted[device], peer.value.hint) ==>
                  r == Opening.Refused(AlreadyTrusted))
            && (device in s.trusted && !StillTheSame(c, s.trusted[device], peer.value.hint) ==>
                  r == Opening.Refused(IdentityChanged))
            && (device !in s.trusted && device in t.pendingByDevice ==>
                  t.pendingByDevice[device] in open && r == Known(open[t.pendingByDevice[device]].request)
                  && r.request.deviceId == device)
            && (device !in s.trusted && device !in t.pendingByDevice ==>
                  r == if |open| < 32 then Proceed else Opening.Refused(RateLimited)))
  {
    PruneKeepsIndex(s, now, c.ttl);
    PruneForgets(s, now, c.ttl, "", device);
    hide Prune;
  }

  // --- being asked ---------------------------------------------------------------------------

  // A begin of this protocol, recent, signed by the key that discovery knows.
  predicate Introduced(c: Config, hello: SignedHello, peer: Option<Peer>, now: int) {
    && hello.body.version == 1 && c.isUuid(hello.body.requestId) && c.isUuid(hello.body.deviceId)
    && ValidProtocolTime(hello.body.seconds, now)
    && peer.Some? && peer.value.hint != "" && hello.signer == Some(hello.body.publicKey)
    && c.hint(hello.body.publicKey) == peer.value.hint
  }

  // Neither repeated nor hurried nor too many.
  predicate Affordable(s: State, c: Config, id: string, host: string, now: int) {
    && (id in s.recentBegins ==> c.ttl <= now - s.recentBegins[id])
    && (host in s.lastBeginByHost ==> 2_000_000_000 <= now - s.lastBeginByHost[host])
    && |Prune(s, now, c.ttl).sessions| < 32
  }

  // A begin is admitted exactly when it is introduced, new, affordable, and from a
  // device that is not paired; a known one gets its answer again.
  lemma AdmissionIff(s: State, c: Config, hello: SignedHello, peer: Option<Peer>, host: string, now: int)
    ensures var (t, r) := AdmitBegin(s, c, hello, peer, host, now);
      var (id, device) := (hello.body.requestId, hello.body.deviceId);
      var known := id in s.sessions && now <= s.sessions[id].request.expiresAt;
      && (r.Admitted? <==>
            Introduced(c, hello, peer, now) && !known && Affordable(s, c, id, host, now) && device !in s.trusted)
      && (Introduced(c, hello, peer, now) && known ==> r == Existing(s.sessions[id].response))
      && (r.Admitted? ==>
            && t == Prune(s, now, c.ttl).(
                 recentBegins := t.recentBegins, lastBeginByHost := s.lastBeginByHost[host := now])
            && t.recentBegins == Prune(s, now, c.ttl).recentBegins[id := now])
      && (!Introduced(c, hello, peer, now) ==> t == s && r in {Declined(ProtocolError), Declined(PeerNotDiscovered)})
  {
    PruneForgets(s, now, c.ttl, hello.body.requestId, "");
    hide Prune, ValidProtocolTime;
  }

  // A paired device that begins again is told so, and if its key is not the pinned
  // one that is recorded, for the user to see; nothing else of it changes.
  lemma PinnedKeyGuards(s: State, c: Config, hello: SignedHello, peer: Option<Peer>, host: string, now: int)
    requires Introduced(c, hello, peer, now) && hello.body.deviceId in s.trusted
    requires hello.body.requestId in s.sessions ==> s.sessions[hello.body.requestId].request.expiresAt < now
    requires Affordable(s, c, hello.body.requestId, host, now)
    ensures var (t, r) := AdmitBegin(s, c, hello, peer, host, now);
      var (device, record) := (hello.body.deviceId, s.trusted[hello.body.deviceId]);
      && (hello.body.publicKey == record.publicKey ==> r == Declined(AlreadyTrusted) && t == Prune(s, now, c.ttl))
      && (hello.body.publicKey != record.publicKey ==>
            && r == Declined(IdentityChanged)
            && t == Prune(s, now, c.ttl).(trusted := s.trusted[device := record.(keyChanged := true)]))
  {
    PruneForgets(s, now, c.ttl, hello.body.requestId, "");
    hide Prune, ValidProtocolTime;
  }

  // Why an introduced begin is declined before anybody looks at what is paired.
  lemma DeclinedBecause(s: State, c: Config, hello: SignedHello, peer: Option<Peer>, host: string, now: int)
    requires Introduced(c, hello, peer, now)
    requires hello.body.requestId in s.sessions ==> s.sessions[hello.body.requestId].request.expiresAt < now
    ensures var r := AdmitBegin(s, c, hello, peer, host, now).1;
      var id := hello.body.requestId;
      var repeated := id in s.recentBegins && now - s.recentBegins[id] < c.ttl;
      var hurried := host in s.lastBeginByHost && now - s.lastBeginByHost[host] < 2_000_000_000;
      && (r == Declined(ProtocolError) <==> repeated)
      && (r == Declined(RateLimited) <==> !repeated && (hurried || 32 <= |Prune(s, now, c.ttl).sessions|))
  {
    PruneForgets(s, now, c.ttl, hello.body.requestId, "");
    hide Prune, ValidProtocolTime;
  }

  // A response is taken exactly when it answers this begin, in this protocol and
  // recently, from the device asked, signed by the key that discovery knows.
  lemma ResponseIff(c: Config, peer: Peer, begin: Hello, response: SignedHello, now: int)
    ensures ResponseValid(c, peer, begin, response, now) <==>
      && response.body.version == 1 && response.body.requestId == begin.requestId && response.body.deviceId == peer.id
      && ValidProtocolTime(response.body.seconds, now)
      && response.signer == Some(response.body.publicKey) && c.hint(response.body.publicKey) == peer.hint
  {
    hide ValidProtocolTime;
  }

  // --- confirming ---------------------------------------------------------------------------

  // Everything of a session but what confirmations change.
  predicate SameDeal(a: Session, b: Session) {
    && a.request.id == b.request.id && a.request.deviceId == b.request.deviceId
    && a.request.direction == b.request.direction && a.request.code == b.request.code
    && a.request.expiresAt == b.request.expiresAt
    && a.secret == b.secret && a.remoteKey == b.remoteKey && a.response == b.response
  }

  // Trust as both users gave it: the device with the key it showed, the shared
  // secret, neither blocked nor suspect, and the session says so.
  predicate PairedBy(s: State, t: State, id: string)
    requires id in s.sessions
  {
    && id in t.sessions && SameDeal(s.sessions[id], t.sessions[id])
    && t.sessions[id].trusted && t.sessions[id].request.state == Paired
    && t.sessions[id].request.localConfirmed && t.sessions[id].request.remoteConfirmed
    && s.sessions[id].request.deviceId in t.trusted
    && t.trusted == s.trusted[s.sessions[id].request.deviceId :=
         TrustRecord(s.sessions[id].request.deviceId, s.sessions[id].remoteKey, s.sessions[id].secret, false, false)]
    && t.pendingByDevice == s.pendingByDevice - {s.sessions[id].request.deviceId}
    && t.recentBegins == s.recentBegins && t.lastBeginByHost == s.lastBeginByHost
    && t.sessions == s.sessions[id := t.sessions[id]]
  }

  lemma FinalizePairs(s: State, id: string)
    requires id in s.sessions
    ensures PairedBy(s, Finalize(s, id, true), id) && Finalize(s, id, true).sessions[id].nonces == s.sessions[id].nonces
    ensures Finalize(s, id, false) == s
  {
  }

  // The local user's yes: noted, and then an incoming session that the peer has
  // confirmed is paired, another incoming one waits, and an outgoing one tells the
  // peer. A rejected or an unknown session stays as it is.
  lemma AcceptanceIs(s: State, c: Config, id: string, now: int, stored: bool)
    ensures var p := Prune(s, now, c.ttl);
      var (t, r) := Accept(s, c, id, now, stored);
      && (id !in p.sessions ==> r == AcceptNotFound && t == p)
      && (id in p.sessions && p.sessions[id].request.state == Rejected ==> r == AcceptRejected && t == p)
      && (id in p.sessions && p.sessions[id].request.state != Rejected ==>
            && var q := p.sessions[id];
            && (q.request.direction == Incoming && q.request.remoteConfirmed && stored ==>
                  r == Finalized(true) && PairedBy(p, t, id))
            && (q.request.direction == Incoming && q.request.remoteConfirmed && !stored ==>
                  r == Finalized(false) && t.trusted == p.trusted)
            && (q.request.direction == Incoming && !q.request.remoteConfirmed ==> r == AwaitPeer)
            && (q.request.direction == Outgoing ==> r == SendConfirm)
            && (r in {AwaitPeer, SendConfirm} ==>
                  t == p.(sessions := p.sessions[id :=
                    q.(request := q.request.(localConfirmed := true, state := Confirming))])))
  {
    hide Prune;
  }

  // A proof that the session's holder made for this device's exchange, recently, and
  // not seen before.
  predicate Convincing(s: State, c: Config, p: Proof, now: int) {
    && p.version == 1 && c.isUuid(p.requestId) && c.isUuid(p.deviceId) && ValidProtocolTime(p.seconds, now)
    && p.requestId in Prune(s, now, c.ttl).sessions
    && var q := Prune(s, now, c.ttl).sessions[p.requestId];
    && q.request.deviceId == p.deviceId && p.key == Some(q.secret) && p.nonce !in q.nonces
  }

  // Every convincing proof spends its nonce and does what it says: a confirmation
  // is noted and pairs if the local user has said yes, a rejection rejects, and a
  // status question only asks. The answer is the session as it then is.
  lemma ProofsDoAsTheySay(s: State, c: Config, p: Proof, now: int, stored: bool)
    ensures var q := Prune(s, now, c.ttl);
      var (t, r) := ReceiveProof(s, c, p, now, stored);
      && (!Convincing(s, c, p, now) ==> r == Err(ProtocolError) && (t == s || t == q))
      && (Convincing(s, c, p, now) && !p.action.OtherAction? ==>
            && p.requestId in t.sessions
            && var (b, a) := (q.sessions[p.requestId], t.sessions[p.requestId]);
            && SameDeal(b, a) && a.nonces == b.nonces + {p.nonce}
            && (r.Ok? ==> r.value == PeerDecision(p.requestId, a.request.state, a.request.localConfirmed,
                             a.request.remoteConfirmed, Some(a.secret)) || b.request.id != p.requestId)
            && (r.Err? ==> r == Err(StorageError) && !stored && t.trusted == q.trusted)
            && match p.action
               case Confirm =>
                 && a.request.remoteConfirmed
                 && (b.request.state == Pending && !b.request.localConfirmed ==> a.request.state == Confirming && r.Ok?)
                 && (b.request.localConfirmed && b.request.state != Rejected && !b.trusted && stored ==>
                       && r.Ok?
                       && PairedBy(q, t.(sessions := t.sessions[p.requestId := a.(nonces := b.nonces)]), p.requestId))
                 && (b.request.state == Rejected ==> a.request.state == Rejected && r.Ok?)
               case RejectAction => a.request.state == Rejected && r.Ok? && t.trusted == q.trusted
               case StatusAction =>
                 !(b.request.localConfirmed && b.request.remoteConfirmed && b.request.state != Rejected && !b.trusted) ==>
                   r.Ok? && a == b.(nonces := a.nonces) && t.trusted == q.trusted)
  {
    hide Prune, ValidProtocolTime;
  }

  // A decision is applied exactly when it is for this session and signed with its
  // secret; it brings the peer's answer,
  lemma DecisionsAreApplied(s: State, id: string, d: PeerDecision, stored: bool)
    ensures var r := ApplyDecision(s, id, d, stored);
      && (r.Some? <==> id in s.sessions && d.requestId == id && d.key == Some(s.sessions[id].secret))
      && (r.Some? && d.state == Rejected ==>
            r.value == Answered(s, id, d.localConfirmed, Rejected))
      && (r.Some? && d.state != Rejected && !(s.sessions[id].request.localConfirmed && d.localConfirmed) ==>
            r.value == Answered(s, id, d.localConfirmed, Confirming))
  {
  }

  // and pairs when both have said yes.
  lemma DecisionPairs(s: State, id: string, d: PeerDecision)
    requires ApplyDecision(s, id, d, true).Some?
    requires d.state != Rejected && s.sessions[id].request.localConfirmed && d.localConfirmed
    ensures PairedBy(s, ApplyDecision(s, id, d, true).value, id)
  {
    FinalizePairs(Answered(s, id, true, s.sessions[id].request.state), id);
  }

  // The session with its peer's answer and a new state, and nothing else changed.
  function Answered(s: State, id: string, remote: bool, state: RequestState): State
    requires id in s.sessions
  {
    var session := s.sessions[id];
    s.(sessions := s.sessions[id := session.(request := session.request.(remoteConfirmed := remote, state := state))])
  }

  // A refresh asks the peer exactly about an own request that the local user has
  // confirmed and that is not paired yet.
  lemma RefreshAsksIff(s: State, id: string)
    ensures RefreshSends(s, id) <==>
      id in s.sessions && s.sessions[id].request.direction == Outgoing && s.sessions[id].request.localConfirmed
      && !s.sessions[id].trusted
  {
  }

  // The local user's no.
  lemma RejectionIs(s: State, c: Config, id: string, now: int)
    ensures var (p, t) := (Prune(s, now, c.ttl), Reject(s, c, id, now));
      t == if id in p.sessions
           then p.(sessions := p.sessions[id := p.sessions[id].(request := p.sessions[id].request.(state := Rejected))])
           else p
  {
  }
}
