// The pairing service: its calls as they change the session maps in place, each
// proved against the function that specifies it.
module PairingService {
  import opened Results
  import opened Replay
  import opened Pairing

  // durable: every trust record passes the checks on it and reaches the store.
  class Service {
    const config: Config
    const durable: bool
    const identity: string   // the device ID
    const publicKey: string
    var sessions: map<string, Session>
    var pendingByDevice: map<string, string>
    var recentBegins: map<string, int>
    var lastBeginByHost: map<string, int>
    var trusted: map<string, TrustRecord>

    ghost function Now(): State
      reads this
    {
      State(sessions, pendingByDevice, recentBegins, lastBeginByHost, trusted)
    }

    constructor (config: Config, identity: string, publicKey: string, durable: bool)
      ensures Now() == FRESH_STATE && IndexSound(Now())
      ensures this.config == config && this.identity == identity && this.publicKey == publicKey
      ensures this.durable == durable
    {
      this.config := config;
      this.durable := durable;
      this.identity := identity;
      this.publicKey := publicKey;
      sessions := map[];
      pendingByDevice := map[];
      recentBegins := map[];
      lastBeginByHost := map[];
      trusted := map[];
    }

    method PruneSessions(now: int)
      modifies this`sessions, this`pendingByDevice
      ensures sessions == Prune(old(Now()), now, config.ttl).sessions
      ensures pendingByDevice == Prune(old(Now()), now, config.ttl).pendingByDevice
    {
      hide Pruning, Prune;
      ghost var was := Now();
      var pending := sessions.Keys;
      NothingPruned(was, now);
      while pending != {}
        invariant Pruning(was, pending, sessions, pendingByDevice, now)
        decreases |pending|
      {
        var id :| id in pending;
        StillPending(was, pending, sessions, pendingByDevice, now, id);
        PruningStep(was, pending, sessions, pendingByDevice, now, id);
        pending := pending - {id};
        var session := sessions[id];
        if session.request.expiresAt < now {
          pendingByDevice := pendingByDevice - {session.request.deviceId};
          sessions := sessions - {id};
        }
      }
      PruningDone(was, sessions, pendingByDevice, now, config.ttl);
    }

    method PruneBegins(now: int)
      modifies this`recentBegins
      ensures recentBegins == Prune(old(Now()), now, config.ttl).recentBegins
    {
      ghost var was := recentBegins;
      var pending := recentBegins.Keys;
      while pending != {}
        invariant pending <= recentBegins.Keys <= was.Keys
        invariant forall id :: id in was ==> (id in recentBegins <==> id in pending || now - was[id] <= config.ttl)
        invariant forall id :: id in recentBegins ==> recentBegins[id] == was[id]
        decreases |pending|
      {
        var id :| id in pending;
        pending := pending - {id};
        if config.ttl < now - recentBegins[id] {
          recentBegins := recentBegins - {id};
        }
      }
    }

    // pruneLocked: expired sessions go, with their devices' index entries, and
    // begins older than the request lifetime are forgotten.
    method PruneLocked(now: int)
      modifies this`sessions, this`pendingByDevice, this`recentBegins
      ensures Now() == Prune(old(Now()), now, config.ttl)
    {
      hide Expired, DeviceExpires;
      PruneSessions(now);
      PruneBegins(now);
    }

    method RequestPairing(deviceId: string, peer: Option<Peer>, now: int) returns (r: Opening)
      modifies this
      ensures (Now(), r) == OpenRequest(old(Now()), config, deviceId, peer, now)
    {
      hide Prune;
      if !config.isUuid(deviceId) { return Opening.Refused(InvalidIdentifier); }
      if peer.None? || !peer.value.pairingAvailable || peer.value.hint == "" {
        return Opening.Refused(PeerNotDiscovered);
      }
      PruneLocked(now);
      if deviceId in trusted {
        var existing := trusted[deviceId];
        if existing.keyChanged || config.hint(existing.publicKey) != peer.value.hint {
          return Opening.Refused(IdentityChanged);
        }
        return Opening.Refused(AlreadyTrusted);
      }
      if deviceId in pendingByDevice {
        var id := pendingByDevice[deviceId];
        if id !in sessions { return Crashed; }
        return Known(sessions[id].request);
      }
      if MAX_PENDING <= |sessions| { return Opening.Refused(RateLimited); }
      return Proceed;
    }

    // After the exchange: the response is validated and the session stored.
    method CompleteRequest(peer: Peer, begin: Hello, response: SignedHello,
        now: int) returns (r: Result<Request, Refusal>)
      modifies this`sessions, this`pendingByDevice
      ensures r.Ok? <==> ResponseValid(config, peer, begin, response, now)
      ensures r.Ok? ==>
        && Now() == Insert(old(Now()), OutgoingSession(config, peer, begin, response, now))
        && r.value == OutgoingSession(config, peer, begin, response, now).request
      ensures r.Err? ==> r == Err(ProtocolError) && Now() == old(Now())
    {
      hide ValidProtocolTime;
      if response.body.version != PROTOCOL_VERSION || response.body.requestId != begin.requestId
        || response.body.deviceId != peer.id || !ValidProtocolTime(response.body.seconds, now)
      {
        return Err(ProtocolError);
      }
      if !SignatureVerifies(response) || config.hint(response.body.publicKey) != peer.hint {
        return Err(ProtocolError);
      }
      var secret := Derive(begin.point, response.body.point, begin, response.body);
      var request := Request(begin.requestId, peer.id, Outgoing, Code(config.digest, secret), now + config.ttl, Pending, false, false);
      sessions := sessions[request.id := Session(request, secret, response.body.publicKey, response, {}, false)];
      pendingByDevice := pendingByDevice[peer.id := request.id];
      return Ok(request);
    }

    method ReceiveBegin(hello: SignedHello, peer: Option<Peer>, host: string, now: int) returns (r: Admission)
      modifies this
      ensures (Now(), r) == AdmitBegin(old(Now()), config, hello, peer, host, now)
    {
      hide Prune, ValidProtocolTime;
      if !BeginValid(config, hello, now) { return Declined(ProtocolError); }
      if peer.None? || peer.value.hint == "" { return Declined(PeerNotDiscovered); }
      if !SignatureVerifies(hello) || config.hint(hello.body.publicKey) != peer.value.hint { return Declined(ProtocolError); }
      PruneLocked(now);
      var id, device := hello.body.requestId, hello.body.deviceId;
      if id in sessions { return Existing(sessions[id].response); }
      if id in recentBegins && now - recentBegins[id] < config.ttl { return Declined(ProtocolError); }
      if host in lastBeginByHost && now - lastBeginByHost[host] < COOLDOWN { return Declined(RateLimited); }
      if MAX_PENDING <= |sessions| { return Declined(RateLimited); }
      if device in trusted {
        if trusted[device].publicKey != hello.body.publicKey {
          trusted := trusted[device := trusted[device].(keyChanged := true)];
          return Declined(IdentityChanged);
        }
        return Declined(AlreadyTrusted);
      }
      lastBeginByHost := lastBeginByHost[host := now];
      recentBegins := recentBegins[id := now];
      return Admitted;
    }

    // The rest of ReceiveBegin, with a new key pair and nonce.
    method CompleteBegin(begin: SignedHello, name: string, platform: string, seed: nat, nonce: string, now: int)
      returns (response: SignedHello)
      modifies this`sessions, this`pendingByDevice
      ensures response == Sign(Hello(PROTOCOL_VERSION, begin.body.requestId, identity, name, platform, publicKey, seed, Some(Unix(now)), nonce))
      ensures Now() == Replace(old(Now()), IncomingSession(config, begin, response, now))
    {
      response := Sign(Hello(PROTOCOL_VERSION, begin.body.requestId, identity, name, platform, publicKey, seed, Some(Unix(now)), nonce));
      var secret := Derive(seed, begin.body.point, begin.body, response.body);
      var id, device := begin.body.requestId, begin.body.deviceId;
      var request := Request(id, device, Incoming, Code(config.digest, secret), now + config.ttl, Pending, false, false);
      if device in pendingByDevice && pendingByDevice[device] != "" && pendingByDevice[device] != id {
        sessions := sessions - {pendingByDevice[device]};
      }
      sessions := sessions[id := Session(request, secret, begin.body.publicKey, response, {}, false)];
      pendingByDevice := pendingByDevice[device := id];
    }

    method FinalizeLocked(id: string) returns (stored: bool)
      requires id in sessions
      modifies this`sessions, this`pendingByDevice, this`trusted
      ensures Now() == Pairing.Finalize(old(Now()), id, stored)
      ensures durable ==> stored
    {
      var session := sessions[id];
      var record := TrustRecord(session.request.deviceId, session.remoteKey, session.secret, false, false);
      var written: bool := *;
      stored := durable || written;
      if !stored { return; }
      trusted := trusted[record.deviceId := record];
      var request := session.request.(localConfirmed := true, remoteConfirmed := true, state := Paired);
      sessions := sessions[id := session.(request := request, trusted := true)];
      pendingByDevice := pendingByDevice - {record.deviceId};
    }

    method Accept(id: string, now: int) returns (r: AcceptOutcome, stored: bool)
      modifies this
      ensures (Now(), r) == Pairing.Accept(old(Now()), config, id, now, stored)
      ensures durable ==> r != Finalized(false)
    {
      hide Prune, Pairing.Finalize;
      stored := false;
      PruneLocked(now);
      if id !in sessions { return AcceptNotFound, stored; }
      var session := sessions[id];
      if session.request.state.Rejected? { return AcceptRejected, stored; }
      session := session.(request := session.request.(localConfirmed := true));
      session := session.(request := session.request.(state := Confirming));
      sessions := sessions[id := session];
      if session.request.direction.Incoming? && session.request.remoteConfirmed {
        stored := FinalizeLocked(id);
        return Finalized(stored), stored;
      }
      return if session.request.direction.Incoming? then AwaitPeer else SendConfirm, stored;
    }

    method Refresh(id: string, now: int) returns (sends: bool)
      modifies this
      ensures Now() == Prune(old(Now()), now, config.ttl) && sends == RefreshSends(Now(), id)
    {
      hide Prune;
      PruneLocked(now);
      if id !in sessions || sessions[id].trusted { return false; }
      return sessions[id].request.direction.Outgoing? && sessions[id].request.localConfirmed;
    }

    method ApplyPeerDecision(id: string, decision: PeerDecision) returns (ok: bool, stored: bool)
      modifies this
      ensures ok <==> ApplyDecision(old(Now()), id, decision, stored).Some?
      ensures Now() == if ok then ApplyDecision(old(Now()), id, decision, stored).value else old(Now())
      ensures durable && ok ==> Now() == ApplyDecision(old(Now()), id, decision, true).value
    {
      hide Pairing.Finalize;
      stored := false;
      if id !in sessions { return false, stored; }
      var session := sessions[id];
      if decision.requestId != id || decision.key != Some(session.secret) { return false, stored; }
      session := session.(request := session.request.(remoteConfirmed := decision.localConfirmed));
      if decision.state.Rejected? {
        sessions := sessions[id := session.(request := session.request.(state := Rejected))];
        return true, stored;
      }
      if session.request.localConfirmed && session.request.remoteConfirmed {
        sessions := sessions[id := session];
        stored := FinalizeLocked(id);
        return true, stored;
      }
      sessions := sessions[id := session.(request := session.request.(state := Confirming))];
      return true, stored;
    }

    method ReceiveProof(p: Proof, now: int) returns (r: Result<PeerDecision, Refusal>, stored: bool)
      modifies this
      ensures (Now(), r) == Pairing.ReceiveProof(old(Now()), config, p, now, stored)
      ensures durable ==> r != Err(StorageError)
    {
      hide Prune, Pairing.Finalize, ValidProtocolTime, AfterAction;
      stored := false;
      if !ProofValid(config, p, now) { return Err(ProtocolError), stored; }
      PruneLocked(now);
      if p.requestId !in sessions { return Err(ProtocolError), stored; }
      var session := sessions[p.requestId];
      if session.request.deviceId != p.deviceId || p.key != Some(session.secret) { return Err(ProtocolError), stored; }
      if p.nonce in session.nonces { return Err(ProtocolError), stored; }
      session := session.(nonces := session.nonces + {p.nonce}, request := AfterAction(session.request, p.action));
      sessions := sessions[p.requestId := session];
      if p.action.OtherAction? { return Err(ProtocolError), stored; }
      if ProofFinalizes(session) {
        ghost var before := Now();
        stored := FinalizeLocked(p.requestId);
        if !stored {
          FinalizeNothing(before, p.requestId);
          return Err(StorageError), stored;
        }
        FinalizeKeeps(before, p.requestId, stored);
        session := sessions[p.requestId];
      }
      return Ok(DecisionOf(session)), stored;
    }

    method Reject(id: string, now: int) returns (found: bool)
      modifies this
      ensures Now() == Pairing.Reject(old(Now()), config, id, now)
      ensures found <==> id in old(sessions) && now <= old(sessions)[id].request.expiresAt
      ensures found ==> id in sessions && sessions[id].request.state == Rejected
    {
      hide Prune;
      KeptIff(Now(), now, config.ttl, id);
      PruneLocked(now);
      if id !in sessions { return false; }
      var session := sessions[id];
      sessions := sessions[id := session.(request := session.request.(state := Rejected))];
      return true;
    }
  }

  lemma KeptIff(s: State, now: int, ttl: int, id: string)
    ensures id in Prune(s, now, ttl).sessions <==> id in s.sessions && now <= s.sessions[id].request.expiresAt
  {
  }

  lemma FinalizeKeeps(s: State, id: string, stored: bool)
    requires id in s.sessions
    ensures id in Finalize(s, id, stored).sessions
  {
  }

  lemma FinalizeNothing(s: State, id: string)
    requires id in s.sessions
    ensures Finalize(s, id, false) == s
  {
  }

  // Some session of the device has expired and is no longer pending.
  ghost predicate GoneFrom(was: State, pending: set<string>, device: string, now: int) {
    exists id :: id in was.sessions && id !in pending && Expired(was.sessions[id], now) && was.sessions[id].request.deviceId == device
  }

  // The loop of pruneLocked over the sessions, part of the way.
  ghost predicate Pruning(was: State, pending: set<string>, sessions: map<string, Session>,
      byDevice: map<string, string>, now: int) {
    && pending <= sessions.Keys <= was.sessions.Keys
    && (forall id :: id in was.sessions ==> (id in sessions <==> id in pending || !Expired(was.sessions[id], now)))
    && (forall id :: id in sessions ==> sessions[id] == was.sessions[id])
    && byDevice.Keys <= was.pendingByDevice.Keys
    && (forall d :: d in was.pendingByDevice ==> (d in byDevice <==> !GoneFrom(was, pending, d, now)))
    && (forall d :: d in byDevice ==> byDevice[d] == was.pendingByDevice[d])
  }

  lemma NothingPruned(was: State, now: int)
    ensures Pruning(was, was.sessions.Keys, was.sessions, was.pendingByDevice, now)
  {
  }

  lemma StillPending(was: State, pending: set<string>, sessions: map<string, Session>,
      byDevice: map<string, string>, now: int, id: string)
    requires Pruning(was, pending, sessions, byDevice, now) && id in pending
    ensures id in sessions && sessions[id] == was.sessions[id]
  {
  }

  lemma PruningStep(was: State, pending: set<string>, sessions: map<string, Session>,
      byDevice: map<string, string>, now: int, id: string)
    requires Pruning(was, pending, sessions, byDevice, now) && id in pending && id in sessions
    ensures if sessions[id].request.expiresAt < now
            then Pruning(was, pending - {id}, sessions - {id}, byDevice - {sessions[id].request.deviceId}, now)
            else Pruning(was, pending - {id}, sessions, byDevice, now)
  {
    GoneStep(was, pending, id, now);
    hide GoneFrom;
  }

  lemma GoneStep(was: State, pending: set<string>, id: string, now: int)
    requires id in pending && id in was.sessions
    ensures forall d :: GoneFrom(was, pending - {id}, d, now) <==>
      GoneFrom(was, pending, d, now) || (Expired(was.sessions[id], now) && was.sessions[id].request.deviceId == d)
  {
  }

  lemma PruningDone(was: State, sessions: map<string, Session>, byDevice: map<string, string>, now: int, ttl: int)
    requires Pruning(was, {}, sessions, byDevice, now)
    ensures sessions == Prune(was, now, ttl).sessions && byDevice == Prune(was, now, ttl).pendingByDevice
  {
    forall d ensures GoneFrom(was, {}, d, now) <==> DeviceExpires(was, d, now) {
      if DeviceExpires(was, d, now) {
        var id :| id in was.sessions && Expired(was.sessions[id], now) && was.sessions[id].request.deviceId == d;
      }
    }
    hide GoneFrom, DeviceExpires;
    assert sessions == Prune(was, now, ttl).sessions;
    assert byDevice == Prune(was, now, ttl).pendingByDevice;
  }
}
