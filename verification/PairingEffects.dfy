// What one call of the pairing service may do to one session and to the trusted
// devices: the facts every history argument is built from.
module PairingEffects {
  import opened Results
  import opened Pairing

  function Held(s: State, id: string): Option<Session> {
    if id in s.sessions then Some(s.sessions[id]) else None
  }

  // A session is dropped, or keeps what it was made from, forgets no nonce, and
  // stays rejected if it was; an initiator that applies its peer's decision is
  // excepted from the last.
  ghost predicate Evolves(before: Option<Session>, after: Option<Session>, applied: bool) {
    after.Some? ==>
      && before.Some?
      && var (b, a) := (before.value, after.value);
      && a.request.id == b.request.id && a.request.deviceId == b.request.deviceId
      && a.request.direction == b.request.direction && a.request.code == b.request.code
      && a.secret == b.secret && a.remoteKey == b.remoteKey && a.response == b.response
      && b.nonces <= a.nonces
      && (!applied && b.request.state.Rejected? ==> a.request.state.Rejected?)
  }

  // The trusted devices after a record for the session was written.
  function Trusting(s: State, id: string): map<string, TrustRecord>
    requires id in s.sessions
  {
    s.trusted[s.sessions[id].request.deviceId := RecordOf(s.sessions[id])]
  }

  lemma PruneEffect(s: State, now: int, ttl: int, id: string)
    ensures Held(Prune(s, now, ttl), id) == None || Held(Prune(s, now, ttl), id) == Held(s, id)
    ensures Prune(s, now, ttl).trusted == s.trusted
  {
    hide DeviceExpires;
  }

  lemma RequestEffect(s: State, at: string, request: Request, id: string)
    requires at in s.sessions
    ensures Held(WithRequest(s, at, request), id) ==
            if id == at then Some(s.sessions[at].(request := request)) else Held(s, id)
    ensures WithRequest(s, at, request).trusted == s.trusted && at in WithRequest(s, at, request).sessions
  {
  }

  lemma ProofUpdateEffect(s: State, p: Proof, id: string)
    requires p.requestId in s.sessions
    ensures Held(ProofUpdate(s, p), id) ==
            if id == p.requestId then
              Some(s.sessions[id].(nonces := s.sessions[id].nonces + {p.nonce}, request := AfterAction(s.sessions[id].request, p.action)))
            else Held(s, id)
    ensures ProofUpdate(s, p).trusted == s.trusted && p.requestId in ProofUpdate(s, p).sessions
  {
  }

  function PairedSession(session: Session): Session {
    session.(trusted := true, request := session.request.(localConfirmed := true, remoteConfirmed := true, state := Paired))
  }

  lemma FinalizeEffect(s: State, at: string, stored: bool, id: string)
    requires at in s.sessions
    ensures stored && id != at ==> Held(Finalize(s, at, stored), id) == Held(s, id)
    ensures stored && id == at ==> Held(Finalize(s, at, stored), id) == Some(PairedSession(s.sessions[at]))
    ensures stored ==> Finalize(s, at, stored).trusted == Trusting(s, at)
    ensures !stored ==> Finalize(s, at, stored) == s
  {
  }

  lemma OpenEffect(s: State, c: Config, deviceId: string, peer: Option<Peer>, now: int, id: string)
    ensures var t := OpenRequest(s, c, deviceId, peer, now).0;
      (Held(t, id) == None || Held(t, id) == Held(s, id)) && t.trusted == s.trusted
  {
    hide Prune;
    PruneEffect(s, now, c.ttl, id);
  }

  lemma AdmitEffect(s: State, c: Config, hello: SignedHello, peer: Option<Peer>, host: string, now: int,
      id: string, device: string)
    ensures var t := AdmitBegin(s, c, hello, peer, host, now).0;
      && (Held(t, id) == None || Held(t, id) == Held(s, id))
      && (device in t.trusted ==>
            device in s.trusted && t.trusted[device].publicKey == s.trusted[device].publicKey
            && t.trusted[device].pairingKey == s.trusted[device].pairingKey)
  {
    hide Prune, BeginValid, AdmitPruned;
    PruneEffect(s, now, c.ttl, id);
    AdmitPrunedEffect(Prune(s, now, c.ttl), c, hello, host, now, device);
  }

  lemma AdmitPrunedEffect(p: State, c: Config, hello: SignedHello, host: string, now: int, device: string)
    ensures var t := AdmitPruned(p, c, hello, host, now).0;
      && t.sessions == p.sessions && t.pendingByDevice == p.pendingByDevice
      && (device in t.trusted ==>
            device in p.trusted && t.trusted[device].publicKey == p.trusted[device].publicKey
            && t.trusted[device].pairingKey == p.trusted[device].pairingKey)
  {
  }

  lemma InsertEffect(s: State, session: Session, id: string)
    ensures Held(Insert(s, session), id) == if id == session.request.id then Some(session) else Held(s, id)
    ensures Insert(s, session).trusted == s.trusted
  {
  }

  lemma ReplaceEffect(s: State, session: Session, id: string)
    ensures id == session.request.id ==> Held(Replace(s, session), id) == Some(session)
    ensures id != session.request.id ==> Held(Replace(s, session), id) == None || Held(Replace(s, session), id) == Held(s, id)
    ensures Replace(s, session).trusted == s.trusted
  {
  }

  lemma AcceptEffect(s: State, c: Config, at: string, now: int, stored: bool, id: string)
    ensures var (t, r) := Accept(s, c, at, now, stored);
      && Evolves(Held(s, id), Held(t, id), false)
      && (r == Finalized(true) ==>
            at in s.sessions && !s.sessions[at].request.state.Rejected? && t.trusted == Trusting(s, at))
      && (r != Finalized(true) ==> t.trusted == s.trusted)
  {
    hide Prune, WithRequest, Finalize;
    var p := Prune(s, now, c.ttl);
    PruneEffect(s, now, c.ttl, id);
    PruneEffect(s, now, c.ttl, at);
    if at in p.sessions {
      var request := p.sessions[at].request.(localConfirmed := true, state := Confirming);
      RequestEffect(p, at, request, id);
      RequestEffect(p, at, request, at);
      FinalizeEffect(WithRequest(p, at, request), at, stored, id);
    }
  }

  lemma ApplyEffect(s: State, at: string, d: PeerDecision, stored: bool, id: string)
    ensures var r := ApplyDecision(s, at, d, stored);
      var finalized := at in s.sessions && stored && !d.state.Rejected? && s.sessions[at].request.localConfirmed && d.localConfirmed;
      r.Some? ==>
        && at in s.sessions
        && Evolves(Held(s, id), Held(r.value, id), id == at)
        && r.value.trusted == if finalized then Trusting(s, at) else s.trusted
  {
    hide WithRequest, Finalize;
    if at in s.sessions {
      var request := s.sessions[at].request.(remoteConfirmed := d.localConfirmed);
      RequestEffect(s, at, request, id);
      RequestEffect(s, at, request, at);
      RequestEffect(s, at, request.(state := Rejected), id);
      RequestEffect(s, at, request.(state := Confirming), id);
      FinalizeEffect(WithRequest(s, at, request), at, stored, id);
    }
  }

  // Whether the proof makes the service write trust.
  predicate ProofWrites(s: State, c: Config, p: Proof, now: int, stored: bool) {
    var q := Prune(s, now, c.ttl);
    stored && ProofValid(c, p, now) && ProofProcessed(q, p) && !p.action.OtherAction?
    && ProofFinalizes(ProofUpdate(q, p).sessions[p.requestId])
  }

  lemma ActionKeeps(request: Request, action: Action)
    ensures var r := AfterAction(request, action);
      && r.id == request.id && r.deviceId == request.deviceId && r.direction == request.direction && r.code == request.code
      && (request.state.Rejected? ==> r.state.Rejected?)
  {
  }

  lemma ProofEffect(s: State, c: Config, p: Proof, now: int, stored: bool, id: string)
    ensures var t := ReceiveProof(s, c, p, now, stored).0;
      && Evolves(Held(s, id), Held(t, id), false)
      && (ProofWrites(s, c, p, now, stored) ==>
            p.requestId in s.sessions && !s.sessions[p.requestId].request.state.Rejected? && t.trusted == Trusting(s, p.requestId))
      && (!ProofWrites(s, c, p, now, stored) ==> t.trusted == s.trusted)
  {
    hide Prune, ProofUpdate, Finalize, ProofValid, AfterAction;
    var q := Prune(s, now, c.ttl);
    PruneEffect(s, now, c.ttl, id);
    PruneEffect(s, now, c.ttl, p.requestId);
    if p.requestId in q.sessions {
      ActionKeeps(q.sessions[p.requestId].request, p.action);
      ProofUpdateEffect(q, p, id);
      ProofUpdateEffect(q, p, p.requestId);
      FinalizeEffect(ProofUpdate(q, p), p.requestId, true, id);
    }
  }

  lemma RejectEffect(s: State, c: Config, at: string, now: int, id: string)
    ensures var t := Reject(s, c, at, now);
      Evolves(Held(s, id), Held(t, id), false) && t.trusted == s.trusted
  {
    hide Prune, WithRequest;
    var p := Prune(s, now, c.ttl);
    PruneEffect(s, now, c.ttl, id);
    if at in p.sessions {
      RequestEffect(p, at, p.sessions[at].request.(state := Rejected), id);
    }
  }
}
