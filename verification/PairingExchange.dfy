// An undisturbed exchange, step by step: both ends finish paired, so the safety
// results about trust speak of something that happens.
module PairingExchange {
  import opened Results
  import opened Replay
  import opened Pairing
  import opened PairingSystem

  // What the two services choose: the signed hellos, the confirming proof, the
  // (constant) time, and the address the begin arrives from.
  datatype Choice = Choice(begin: Hello, response: Hello, proof: Proof, now: int, host: string)

  function SharedSecret(x: Choice): Secret {
    Derive(x.begin.point, x.response.point, x.begin, x.response)
  }

  ghost predicate Proper(e: Ends, x: Choice) {
    && Apart(e) && 0 <= e.config.ttl
    && e.config.isUuid(e.leftId) && e.config.isUuid(e.rightId) && e.config.isUuid(x.begin.requestId)
    && e.config.hint(e.leftKey) != "" && e.config.hint(e.rightKey) != ""
    && x.begin.version == PROTOCOL_VERSION && x.begin.deviceId == e.leftId && x.begin.publicKey == e.leftKey
    && x.response.version == PROTOCOL_VERSION && x.response.deviceId == e.rightId && x.response.publicKey == e.rightKey
    && x.response.requestId == x.begin.requestId
    && x.begin.seconds == Some(Unix(x.now)) && x.response.seconds == Some(Unix(x.now))
    && x.proof == Proof(PROTOCOL_VERSION, x.begin.requestId, e.leftId, Confirm, Some(Unix(x.now)), x.proof.nonce, Some(SharedSecret(x)))
  }

  // --- the sessions along the way -------------------------------------------------------

  function Initial(e: Ends, x: Choice): Session {
    OutgoingSession(e.config, PeerOf(e, Left), x.begin, Sign(x.response), x.now)
  }

  function Answering(e: Ends, x: Choice): Session {
    IncomingSession(e.config, Sign(x.begin), Sign(x.response), x.now)
  }

  function Confirmed(s: Session): Session {
    s.(request := s.request.(localConfirmed := true, state := Confirming))
  }

  function Proven(s: Session, nonce: string): Session {
    s.(nonces := s.nonces + {nonce}, request := s.request.(remoteConfirmed := true))
  }

  function Done(s: Session): Session {
    s.(trusted := true, request := s.request.(localConfirmed := true, remoteConfirmed := true, state := Paired))
  }

  // The initiator's state with one session.
  function LeftState(e: Ends, x: Choice, s: Session): State {
    State(map[x.begin.requestId := s], map[e.rightId := x.begin.requestId], map[], map[], map[])
  }

  function RightState(e: Ends, x: Choice, s: Session): State {
    State(map[x.begin.requestId := s], map[e.leftId := x.begin.requestId], map[x.begin.requestId := x.now], map[x.host := x.now], map[])
  }

  function Trusting(s: State, device: string, session: Session): State {
    s.(trusted := map[device := RecordOf(session)], pendingByDevice := map[])
  }

  lemma PruneNothing(s: State, now: int, ttl: int)
    requires forall id :: id in s.sessions ==> !Expired(s.sessions[id], now)
    requires forall id :: id in s.recentBegins ==> now - s.recentBegins[id] <= ttl
    ensures Prune(s, now, ttl) == s
  {
    assert forall d :: !DeviceExpires(s, d, now);
    assert Prune(s, now, ttl).sessions == s.sessions;
    assert Prune(s, now, ttl).pendingByDevice == s.pendingByDevice;
    assert Prune(s, now, ttl).recentBegins == s.recentBegins;
  }

  lemma SecretsMeet(e: Ends, x: Choice)
    requires Proper(e, x)
    ensures Initial(e, x).secret == SharedSecret(x) == Answering(e, x).secret
    ensures Initial(e, x).request.code == Answering(e, x).request.code
  {
    assert {x.begin.point, x.response.point} == {x.response.point, x.begin.point};
  }

  // --- what each call does ----------------------------------------------------------------

  lemma CallOpen(e: Ends, x: Choice)
    requires Proper(e, x)
    ensures OpenRequest(FRESH_STATE, e.config, e.rightId, Some(PeerOf(e, Left)), x.now) == (FRESH_STATE, Proceed)
  {
    PruneNothing(FRESH_STATE, x.now, e.config.ttl);
    hide Prune;
  }

  lemma CallAdmit(e: Ends, x: Choice)
    requires Proper(e, x)
    ensures AdmitBegin(FRESH_STATE, e.config, Sign(x.begin), Some(PeerOf(e, Right)), x.host, x.now)
         == (FRESH_STATE.(recentBegins := map[x.begin.requestId := x.now], lastBeginByHost := map[x.host := x.now]), Admitted)
  {
    PruneNothing(FRESH_STATE, x.now, e.config.ttl);
    hide Prune;
  }

  lemma CallRespond(e: Ends, x: Choice)
    requires Proper(e, x)
    ensures Replace(FRESH_STATE.(recentBegins := map[x.begin.requestId := x.now], lastBeginByHost := map[x.host := x.now]), Answering(e, x))
         == RightState(e, x, Answering(e, x))
  {
  }

  lemma CallComplete(e: Ends, x: Choice)
    requires Proper(e, x)
    ensures ResponseValid(e.config, PeerOf(e, Left), x.begin, Sign(x.response), x.now)
    ensures Insert(FRESH_STATE, Initial(e, x)) == LeftState(e, x, Initial(e, x))
  {
  }

  lemma OneSession(id: string, s: Session, t: Session)
    ensures map[id := s][id := t] == map[id := t]
  {
  }

  lemma RequestOnce(e: Ends, x: Choice, s: Session, request: Request)
    ensures WithRequest(LeftState(e, x, s), x.begin.requestId, request) == LeftState(e, x, s.(request := request))
    ensures WithRequest(RightState(e, x, s), x.begin.requestId, request) == RightState(e, x, s.(request := request))
  {
    OneSession(x.begin.requestId, s, s.(request := request));
  }

  lemma CallAccepts(e: Ends, x: Choice, stored: bool)
    requires Proper(e, x)
    ensures Accept(LeftState(e, x, Initial(e, x)), e.config, x.begin.requestId, x.now, stored)
         == (LeftState(e, x, Confirmed(Initial(e, x))), SendConfirm)
    ensures Accept(RightState(e, x, Answering(e, x)), e.config, x.begin.requestId, x.now, stored)
         == (RightState(e, x, Confirmed(Answering(e, x))), AwaitPeer)
  {
    PruneNothing(LeftState(e, x, Initial(e, x)), x.now, e.config.ttl);
    PruneNothing(RightState(e, x, Answering(e, x)), x.now, e.config.ttl);
    RequestOnce(e, x, Initial(e, x), Confirmed(Initial(e, x)).request);
    RequestOnce(e, x, Answering(e, x), Confirmed(Answering(e, x)).request);
    hide Prune, WithRequest;
  }

  lemma CallProve(e: Ends, x: Choice)
    requires Proper(e, x)
    ensures var done := Done(Proven(Confirmed(Answering(e, x)), x.proof.nonce));
      ReceiveProof(RightState(e, x, Confirmed(Answering(e, x))), e.config, x.proof, x.now, true)
      == (Trusting(RightState(e, x, done), e.leftId, Answering(e, x)), Ok(DecisionOf(done)))
  {
    hide Prune, Finalize, ProofUpdate;
    SecretsMeet(e, x);
    var s := RightState(e, x, Confirmed(Answering(e, x)));
    PruneNothing(s, x.now, e.config.ttl);
    UpdateOnce(e, x);
    var t := RightState(e, x, Proven(Confirmed(Answering(e, x)), x.proof.nonce));
    FinalizeOnce(t, x.begin.requestId, e.leftId);
    var proven := Proven(Confirmed(Answering(e, x)), x.proof.nonce);
    OneSession(x.begin.requestId, proven, Done(proven));
    assert RecordOf(proven) == RecordOf(Answering(e, x));
  }

  lemma UpdateOnce(e: Ends, x: Choice)
    requires Proper(e, x)
    ensures ProofUpdate(RightState(e, x, Confirmed(Answering(e, x))), x.proof)
         == RightState(e, x, Proven(Confirmed(Answering(e, x)), x.proof.nonce))
  {
    OneSession(x.begin.requestId, Confirmed(Answering(e, x)), Proven(Confirmed(Answering(e, x)), x.proof.nonce));
  }

  lemma FinalizeOnce(s: State, id: string, device: string)
    requires id in s.sessions && s.sessions[id].request.deviceId == device
    requires s.pendingByDevice.Keys <= {device} && s.trusted == map[]
    ensures Finalize(s, id, true) == Trusting(s.(sessions := s.sessions[id := Done(s.sessions[id])]), device, s.sessions[id])
  {
    assert s.pendingByDevice - {device} == map[];
  }

  lemma CallDecide(e: Ends, x: Choice)
    requires Proper(e, x)
    ensures var d := DecisionOf(Done(Proven(Confirmed(Answering(e, x)), x.proof.nonce)));
      ApplyDecision(LeftState(e, x, Confirmed(Initial(e, x))), x.begin.requestId, d, true)
      == Some(Trusting(LeftState(e, x, Done(Confirmed(Initial(e, x)))), e.rightId, Initial(e, x)))
  {
    hide Finalize;
    SecretsMeet(e, x);
    var proven := Confirmed(Initial(e, x)).(request := Confirmed(Initial(e, x)).request.(remoteConfirmed := true));
    var t := LeftState(e, x, proven);
    FinalizeOnce(t, x.begin.requestId, e.rightId);
    RequestOnce(e, x, Confirmed(Initial(e, x)), proven.request);
    OneSession(x.begin.requestId, proven, Done(proven));
    assert RecordOf(proven) == RecordOf(Initial(e, x)) && Done(proven) == Done(Confirmed(Initial(e, x)));
  }

  // --- the run --------------------------------------------------------------------------------

  function Final(e: Ends, x: Choice): PeerDecision {
    DecisionOf(Done(Proven(Confirmed(Answering(e, x)), x.proof.nonce)))
  }

  function StepNumber(e: Ends, x: Choice, k: nat): Step
    requires k < 8
  {
    var id := x.begin.requestId;
    match k
    case 0 => SendBegin(Left, x.begin, x.now)
    case 1 => ReceiveHello(Right, Sign(x.begin), true, x.host, x.now)
    case 2 => Respond(Right, Sign(x.begin), x.now, Sign(x.response))
    case 3 => Complete(Left, id, Sign(x.response))
    case 4 => UserAccepts(Right, id, x.now, true, x.proof)
    case 5 => UserAccepts(Left, id, x.now, true, x.proof)
    case 6 => Prove(Right, x.proof, x.now, true)
    case _ => Decide(Left, id, Final(e, x), true)
  }

  // Where the exchange stands after k steps.
  ghost predicate Stage(e: Ends, x: Choice, w: World, k: nat) {
    var id := x.begin.requestId;
    var seen := FRESH_STATE.(recentBegins := map[id := x.now], lastBeginByHost := map[x.host := x.now]);
    && w.left.state == (if k < 4 then FRESH_STATE
                        else if k < 6 then LeftState(e, x, Initial(e, x))
                        else if k < 8 then LeftState(e, x, Confirmed(Initial(e, x)))
                        else Trusting(LeftState(e, x, Done(Confirmed(Initial(e, x)))), e.rightId, Initial(e, x)))
    && w.right.state == (if k < 2 then FRESH_STATE else if k < 3 then seen
                         else if k < 5 then RightState(e, x, Answering(e, x))
                         else if k < 7 then RightState(e, x, Confirmed(Answering(e, x)))
                         else Trusting(RightState(e, x, Done(Proven(Confirmed(Answering(e, x)), x.proof.nonce))), e.leftId, Answering(e, x)))
    && (k == 0 ==> w.ledger.begun == map[])
    && (0 < k < 4 ==> id in w.left.requesting && w.left.requesting[id] == (x.begin, x.now))
    && (0 < k ==> Sign(x.begin) in w.hellos)
    && (k == 2 ==> (Sign(x.begin), x.now) in w.right.admitted)
    && (2 < k ==> Sign(x.response) in w.hellos)
    && (5 < k ==> id in w.left.awaiting && x.proof in w.proofs)
    && (6 < k ==> Final(e, x) in w.decisions)
  }

  lemma OpeningSteps(e: Ends, x: Choice, w: World, k: nat)
    requires Proper(e, x) && k < 4 && Stage(e, x, w, k)
    ensures Enabled(e, w, StepNumber(e, x, k)) && Stage(e, x, Apply(e, w, StepNumber(e, x, k)), k + 1)
  {
    hide OpenRequest, AdmitBegin, Replace, Insert, ResponseValid, IncomingSession, OutgoingSession;
    if k == 0 {
      CallOpen(e, x);
    } else if k == 1 {
      CallAdmit(e, x);
    } else if k == 2 {
      CallRespond(e, x);
    } else {
      CallComplete(e, x);
    }
  }

  lemma AcceptingSteps(e: Ends, x: Choice, w: World, k: nat)
    requires Proper(e, x) && 4 <= k < 6 && Stage(e, x, w, k)
    ensures Enabled(e, w, StepNumber(e, x, k)) && Stage(e, x, Apply(e, w, StepNumber(e, x, k)), k + 1)
  {
    hide Accept, ReceiveProof, ApplyDecision, IncomingSession, OutgoingSession, Final;
    SecretsMeet(e, x);
    CallAccepts(e, x, true);
  }

  lemma ClosingSteps(e: Ends, x: Choice, w: World, k: nat)
    requires Proper(e, x) && 6 <= k < 8 && Stage(e, x, w, k)
    ensures Enabled(e, w, StepNumber(e, x, k)) && Stage(e, x, Apply(e, w, StepNumber(e, x, k)), k + 1)
  {
    hide Accept, ReceiveProof, ApplyDecision, IncomingSession, OutgoingSession;
    SecretsMeet(e, x);
    CallProve(e, x);
    CallDecide(e, x);
  }

  function StepsFrom(e: Ends, x: Choice, k: nat): seq<Step>
    requires k <= 8
    decreases 8 - k
  {
    if k == 8 then [] else [StepNumber(e, x, k)] + StepsFrom(e, x, k + 1)
  }

  lemma {:induction false} RunFrom(e: Ends, x: Choice, w: World, k: nat)
    requires Proper(e, x) && k <= 8 && Stage(e, x, w, k)
    ensures Valid(e, w, StepsFrom(e, x, k)) && Stage(e, x, Run(e, w, StepsFrom(e, x, k)), 8)
    decreases 8 - k
  {
    hide Stage, Enabled, Apply, StepNumber;
    if k < 8 {
      var step := StepNumber(e, x, k);
      if k < 4 {
        OpeningSteps(e, x, w, k);
      } else if k < 6 {
        AcceptingSteps(e, x, w, k);
      } else {
        ClosingSteps(e, x, w, k);
      }
      RunFrom(e, x, Apply(e, w, step), k + 1);
      assert StepsFrom(e, x, k)[1..] == StepsFrom(e, x, k + 1);
    }
  }

  // Begin, response, two acceptances, one proof and one decision: each end then
  // trusts the other, with one pairing key.
  lemma UndisturbedExchangePairs(e: Ends, x: Choice)
    requires Proper(e, x)
    ensures Valid(e, START, StepsFrom(e, x, 0))
    ensures var w := Run(e, START, StepsFrom(e, x, 0));
      && w.left.state.trusted == map[e.rightId := TrustRecord(e.rightId, e.rightKey, SharedSecret(x), false, false)]
      && w.right.state.trusted == map[e.leftId := TrustRecord(e.leftId, e.leftKey, SharedSecret(x), false, false)]
  {
    hide Valid, Run, StepsFrom;
    RunFrom(e, x, START, 0);
    SecretsMeet(e, x);
  }
}
