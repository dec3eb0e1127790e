// Two pairing services and the messages between them: every message may be lost,
// delayed, repeated or reordered, anything may be delivered that does not forge a
// signature or a MAC, and either process may restart at any point. A request ID
// is never generated twice.
module PairingSystem {
  import opened Results
  import opened Pairing
  import Effects = PairingEffects
  import Runs = PairingRuns

  datatype Side = Left | Right

  function Other(side: Side): Side {
    if side.Left? then Right else Left
  }

  datatype Ends = Ends(leftId: string, leftKey: string, rightId: string, rightKey: string, config: Config)

  function Id(e: Ends, side: Side): string {
    if side.Left? then e.leftId else e.rightId
  }

  function Key(e: Ends, side: Side): string {
    if side.Left? then e.leftKey else e.rightKey
  }

  // Different devices, with identity keys that discovery can tell apart.
  predicate Apart(e: Ends) {
    e.leftId != e.rightId && e.config.hint(e.leftKey) != e.config.hint(e.rightKey)
  }

  // The other device as discovery lists it.
  function PeerOf(e: Ends, side: Side): Peer {
    Peer(Id(e, Other(side)), e.config.hint(Key(e, Other(side))), true)
  }

  // What happened, for the statements: the begins made, the secret each initiator
  // derived, and what the users accepted, with the secret whose code they saw.
  datatype Acceptance = Acceptance(side: Side, id: string, secret: Secret)

  datatype Ledger = Ledger(begun: map<string, Hello>, initiated: map<string, Secret>, accepts: set<Acceptance>)

  // A service and its calls in progress: exchanges it has begun, begins it has
  // admitted but not answered, and proofs whose replies it awaits.
  datatype Node = Node(
    state: State, requesting: map<string, (Hello, int)>, admitted: set<(SignedHello, int)>, awaiting: set<string>)

  datatype World = World(
    left: Node, right: Node, hellos: set<SignedHello>, proofs: set<Proof>, decisions: set<PeerDecision>, ledger: Ledger)

  function At(w: World, side: Side): Node {
    if side.Left? then w.left else w.right
  }

  function With(w: World, side: Side, node: Node): World {
    if side.Left? then w.(left := node) else w.(right := node)
  }

  const IDLE := Node(FRESH_STATE, map[], {}, {})
  const START := World(IDLE, IDLE, {}, {}, {}, Ledger(map[], map[], {}))

  datatype Step =
    | Tidy(side: Side, now: int)
    | SendBegin(side: Side, begin: Hello, now: int)
    | Complete(side: Side, id: string, response: SignedHello)
    | ReceiveHello(side: Side, hello: SignedHello, online: bool, host: string, now: int)
    | Respond(side: Side, hello: SignedHello, now: int, response: SignedHello)
    | UserAccepts(side: Side, id: string, now: int, stored: bool, proof: Proof)
    | UserRefreshes(side: Side, id: string, now: int, proof: Proof)
    | Prove(side: Side, proof: Proof, now: int, stored: bool)
    | Decide(side: Side, id: string, decision: PeerDecision, stored: bool)
    | UserRejects(side: Side, id: string, now: int, proof: Proof)
    | Forget(side: Side, deviceId: string)
    | Restart(side: Side)

  // A signature that verifies under a key discovery takes for the peer's was made
  // by the peer.
  predicate HelloGenuine(e: Ends, w: World, side: Side, h: SignedHello) {
    SignatureVerifies(h) && e.config.hint(h.body.publicKey) == e.config.hint(Key(e, Other(side))) ==> h in w.hellos
  }

  function SecretOf(s: State, id: string): Option<Secret> {
    if id in s.sessions then Some(s.sessions[id].secret) else None
  }

  // The proof of a session's holder: newProof.
  predicate ProofBy(e: Ends, side: Side, s: State, id: string, action: Action, p: Proof) {
    id in s.sessions && p.requestId == id && p.deviceId == Id(e, side) && p.action == action && p.key == SecretOf(s, id)
  }

  predicate Enabled(e: Ends, w: World, step: Step) {
    var s := At(w, step.side).state;
    match step
    case Tidy(side, now) => true
    case SendBegin(side, begin, now) =>
      && OpenRequest(s, e.config, Id(e, Other(side)), Some(PeerOf(e, side)), now).1.Proceed?
      && begin.requestId !in w.ledger.begun && begin.deviceId == Id(e, side) && begin.publicKey == Key(e, side)
    case Complete(side, id, response) =>
      && id in At(w, side).requesting && HelloGenuine(e, w, side, response)
      && ResponseValid(e.config, PeerOf(e, side), At(w, side).requesting[id].0, response, At(w, side).requesting[id].1)
    case ReceiveHello(side, hello, online, host, now) => HelloGenuine(e, w, side, hello)
    case Respond(side, hello, now, response) =>
      && (hello, now) in At(w, side).admitted && SignatureVerifies(response)
      && response.body.requestId == hello.body.requestId
      && response.body.deviceId == Id(e, side) && response.body.publicKey == Key(e, side)
    case UserAccepts(side, id, now, stored, proof) =>
      Accept(s, e.config, id, now, stored).1.SendConfirm? ==>
        ProofBy(e, side, Accept(s, e.config, id, now, stored).0, id, Confirm, proof)
    case UserRefreshes(side, id, now, proof) =>
      RefreshSends(Prune(s, now, e.config.ttl), id) ==>
        ProofBy(e, side, Prune(s, now, e.config.ttl), id, StatusAction, proof)
    case Prove(side, proof, now, stored) =>
      proof.key.Some? && proof.key == SecretOf(s, proof.requestId) ==> proof in w.proofs
    case Decide(side, id, d, stored) =>
      id in At(w, side).awaiting && (d.key.Some? && d.key == SecretOf(s, id) ==> d in w.decisions)
    case UserRejects(side, id, now, proof) =>
      id in Prune(s, now, e.config.ttl).sessions && Prune(s, now, e.config.ttl).sessions[id].request.direction.Outgoing? ==>
        ProofBy(e, side, Prune(s, now, e.config.ttl), id, RejectAction, proof)
    case Forget(side, deviceId) => true
    case Restart(side) => true
  }

  function Sent(proofs: set<Proof>, sends: bool, p: Proof): set<Proof> {
    if sends then proofs + {p} else proofs
  }

  function AcceptanceOf(l: Ledger, side: Side, s: State, id: string, accepted: bool): Ledger {
    if accepted && id in s.sessions then l.(accepts := l.accepts + {Acceptance(side, id, s.sessions[id].secret)}) else l
  }

  function Apply(e: Ends, w: World, step: Step): World
    requires Enabled(e, w, step)
  {
    var node := At(w, step.side);
    var s := node.state;
    match step
    case Tidy(side, now) => With(w, side, node.(state := Prune(s, now, e.config.ttl)))
    case SendBegin(side, begin, now) =>
      var t := OpenRequest(s, e.config, Id(e, Other(side)), Some(PeerOf(e, side)), now).0;
      With(w, side, node.(state := t, requesting := node.requesting[begin.requestId := (begin, now)]))
        .(hellos := w.hellos + {Sign(begin)}, ledger := w.ledger.(begun := w.ledger.begun[begin.requestId := begin]))
    case Complete(side, id, response) =>
      var session := OutgoingSession(e.config, PeerOf(e, side), node.requesting[id].0, response, node.requesting[id].1);
      With(w, side, node.(state := Insert(s, session), requesting := node.requesting - {id}))
        .(ledger := w.ledger.(initiated := w.ledger.initiated[id := session.secret]))
    case ReceiveHello(side, hello, online, host, now) =>
      var found := if online && hello.body.deviceId == Id(e, Other(side)) then Some(PeerOf(e, side)) else None;
      var (t, r) := AdmitBegin(s, e.config, hello, found, host, now);
      With(w, side, node.(state := t, admitted := if r.Admitted? then node.admitted + {(hello, now)} else node.admitted))
    case Respond(side, hello, now, response) =>
      With(w, side, node.(state := Replace(s, IncomingSession(e.config, hello, response, now)),
                          admitted := node.admitted - {(hello, now)}))
        .(hellos := w.hellos + {response})
    case UserAccepts(side, id, now, stored, proof) =>
      var (t, r) := Accept(s, e.config, id, now, stored);
      With(w, side, node.(state := t, awaiting := if r.SendConfirm? then node.awaiting + {id} else node.awaiting))
        .(proofs := Sent(w.proofs, r.SendConfirm?, proof),
          ledger := AcceptanceOf(w.ledger, side, t, id, r.Finalized? || r.AwaitPeer? || r.SendConfirm?))
    case UserRefreshes(side, id, now, proof) =>
      var t := Prune(s, now, e.config.ttl);
      With(w, side, node.(state := t, awaiting := if RefreshSends(t, id) then node.awaiting + {id} else node.awaiting))
        .(proofs := Sent(w.proofs, RefreshSends(t, id), proof))
    case Prove(side, proof, now, stored) =>
      var (t, r) := ReceiveProof(s, e.config, proof, now, stored);
      With(w, side, node.(state := t)).(decisions := if r.Ok? then w.decisions + {r.value} else w.decisions)
    case Decide(side, id, d, stored) =>
      var r := ApplyDecision(s, id, d, stored);
      With(w, side, node.(state := if r.Some? then r.value else s))
    case UserRejects(side, id, now, proof) =>
      var t := Prune(s, now, e.config.ttl);
      With(w, side, node.(state := Reject(s, e.config, id, now)))
        .(proofs := Sent(w.proofs, id in t.sessions && t.sessions[id].request.direction.Outgoing?, proof))
    case Forget(side, deviceId) => With(w, side, node.(state := s.(trusted := s.trusted - {deviceId})))
    case Restart(side) => With(w, side, Node(Runs.Restarted(s), map[], {}, {}))
  }

  // --- invariants: one message, one session, one record -------------------------------

  function Initiator(e: Ends, secret: Secret): Side {
    if secret.request.deviceId == e.leftId then Left else Right
  }

  // The initiator of this request derived this secret.
  predicate Initiated(l: Ledger, id: string, secret: Secret) {
    id in l.initiated && l.initiated[id] == secret
  }

  ghost predicate LedgerSound(e: Ends, l: Ledger) {
    && (forall id :: id in l.begun ==> l.begun[id].requestId == id && l.begun[id].deviceId in {e.leftId, e.rightId})
    && (forall id :: id in l.initiated ==> id in l.begun && l.initiated[id].request == l.begun[id])
  }

  ghost predicate Grows(l: Ledger, l': Ledger) {
    && (forall id :: id in l.begun ==> id in l'.begun && l'.begun[id] == l.begun[id])
    && (forall id :: id in l.initiated ==> id in l'.initiated && l'.initiated[id] == l.initiated[id])
    && l.accepts <= l'.accepts
  }

  predicate HelloSound(e: Ends, h: SignedHello) {
    || (h.body.publicKey == e.leftKey && h.body.deviceId == e.leftId)
    || (h.body.publicKey == e.rightKey && h.body.deviceId == e.rightId)
  }

  predicate ProofSound(e: Ends, l: Ledger, p: Proof) {
    && p.key.Some? && Initiated(l, p.requestId, p.key.value)
    && p.deviceId == Id(e, Initiator(e, p.key.value))
    && (p.action.Confirm? ==> Acceptance(Initiator(e, p.key.value), p.requestId, p.key.value) in l.accepts)
  }

  predicate DecisionSound(e: Ends, l: Ledger, d: PeerDecision) {
    && d.key.Some? && Initiated(l, d.requestId, d.key.value)
    && (d.localConfirmed ==> Acceptance(Other(Initiator(e, d.key.value)), d.requestId, d.key.value) in l.accepts)
  }

  predicate SessionSound(e: Ends, l: Ledger, side: Side, id: string, s: Session) {
    && s.request.id == id && s.secret.request.requestId == id
    && s.request.deviceId == Id(e, Other(side)) && s.remoteKey == Key(e, Other(side))
    && s.request.code == Code(e.config.digest, s.secret)
    && (s.request.direction.Outgoing? ==> Initiated(l, id, s.secret))
    && s.secret.request.deviceId == Id(e, if s.request.direction.Outgoing? then side else Other(side))
    && (s.request.localConfirmed ==> Acceptance(side, id, s.secret) in l.accepts)
    && (s.request.remoteConfirmed ==> Initiated(l, id, s.secret) && Acceptance(Other(side), id, s.secret) in l.accepts)
  }

  // Both users accepted this request, having been shown the code of this secret.
  predicate BothAccepted(l: Ledger, id: string, secret: Secret) {
    Initiated(l, id, secret) && Acceptance(Left, id, secret) in l.accepts && Acceptance(Right, id, secret) in l.accepts
  }

  predicate RecordSound(e: Ends, l: Ledger, side: Side, device: string, r: TrustRecord) {
    && device == r.deviceId == Id(e, Other(side)) && r.publicKey == Key(e, Other(side))
    && BothAccepted(l, r.pairingKey.request.requestId, r.pairingKey)
  }

  ghost predicate StateSound(e: Ends, l: Ledger, side: Side, s: State) {
    && IndexSound(s)
    && (forall id :: id in s.sessions ==> SessionSound(e, l, side, id, s.sessions[id]))
    && (forall d :: d in s.trusted ==> RecordSound(e, l, side, d, s.trusted[d]))
  }

  ghost predicate RequestingSound(e: Ends, l: Ledger, side: Side, requesting: map<string, (Hello, int)>) {
    forall id :: id in requesting ==>
      id in l.begun && l.begun[id] == requesting[id].0 && requesting[id].0.deviceId == Id(e, side) && id !in l.initiated
  }

  ghost predicate AdmittedSound(e: Ends, side: Side, admitted: set<(SignedHello, int)>) {
    forall a :: a in admitted ==>
      a.0.body.deviceId == Id(e, Other(side)) && a.0.body.publicKey == Key(e, Other(side))
  }

  ghost predicate AwaitingSound(e: Ends, l: Ledger, side: Side, awaiting: set<string>) {
    forall id :: id in awaiting ==> id in l.begun && l.begun[id].deviceId == Id(e, side)
  }

  ghost predicate NodeSound(e: Ends, l: Ledger, side: Side, n: Node) {
    && StateSound(e, l, side, n.state) && RequestingSound(e, l, side, n.requesting)
    && AdmittedSound(e, side, n.admitted) && AwaitingSound(e, l, side, n.awaiting)
  }

  ghost predicate NetSound(e: Ends, l: Ledger, hellos: set<SignedHello>, proofs: set<Proof>,
      decisions: set<PeerDecision>) {
    && (forall h :: h in hellos ==> HelloSound(e, h))
    && (forall p :: p in proofs ==> ProofSound(e, l, p))
    && (forall d :: d in decisions ==> DecisionSound(e, l, d))
  }

  ghost predicate Inv(e: Ends, w: World) {
    && LedgerSound(e, w.ledger)
    && NodeSound(e, w.ledger, Left, w.left) && NodeSound(e, w.ledger, Right, w.right)
    && NetSound(e, w.ledger, w.hellos, w.proofs, w.decisions)
  }

  // --- growing the ledger breaks nothing ------------------------------------------------

  lemma StateGrows(e: Ends, l: Ledger, l': Ledger, side: Side, s: State)
    requires StateSound(e, l, side, s) && Grows(l, l')
    ensures StateSound(e, l', side, s)
  {
    hide IndexSound;
    forall id | id in s.sessions ensures SessionSound(e, l', side, id, s.sessions[id]) {
      assert SessionSound(e, l, side, id, s.sessions[id]);
    }
    forall d | d in s.trusted ensures RecordSound(e, l', side, d, s.trusted[d]) {
      assert RecordSound(e, l, side, d, s.trusted[d]);
    }
  }

  lemma NetGrows(e: Ends, l: Ledger, l': Ledger, hellos: set<SignedHello>, proofs: set<Proof>,
      decisions: set<PeerDecision>)
    requires NetSound(e, l, hellos, proofs, decisions) && Grows(l, l')
    ensures NetSound(e, l', hellos, proofs, decisions)
  {
    forall p | p in proofs ensures ProofSound(e, l', p) {
      assert ProofSound(e, l, p);
    }
    forall d | d in decisions ensures DecisionSound(e, l', d) {
      assert DecisionSound(e, l, d);
    }
  }

  // Everything a node holds, except that an ID may only then become initiated
  // when the node is not still requesting it.
  lemma NodeGrows(e: Ends, l: Ledger, l': Ledger, side: Side, n: Node)
    requires NodeSound(e, l, side, n) && Grows(l, l')
    requires forall id :: id in n.requesting && id in l'.initiated ==> id in l.initiated
    ensures NodeSound(e, l', side, n)
  {
    StateGrows(e, l, l', side, n.state);
    hide StateSound;
  }

  // --- the primitive state changes -----------------------------------------------------

  lemma PruneSound(e: Ends, l: Ledger, side: Side, s: State, now: int)
    requires StateSound(e, l, side, s)
    ensures StateSound(e, l, side, Prune(s, now, e.config.ttl))
  {
    hide SessionSound, RecordSound;
    PruneKeepsIndex(s, now, e.config.ttl);
  }

  lemma InsertSound(e: Ends, l: Ledger, side: Side, s: State, session: Session)
    requires StateSound(e, l, side, s) && SessionSound(e, l, side, session.request.id, session)
    ensures StateSound(e, l, side, Insert(s, session))
  {
    OnlyPeerIndexed(e, l, side, s);
    hide SessionSound, RecordSound;
  }

  lemma OnlyPeerIndexed(e: Ends, l: Ledger, side: Side, s: State)
    requires StateSound(e, l, side, s)
    ensures forall d :: d in s.pendingByDevice ==> d == Id(e, Other(side))
    ensures forall id :: id in s.sessions ==> s.sessions[id].request.deviceId == Id(e, Other(side))
  {
    forall id | id in s.sessions ensures s.sessions[id].request.deviceId == Id(e, Other(side)) {
      assert SessionSound(e, l, side, id, s.sessions[id]);
    }
  }

  lemma ReplaceSound(e: Ends, l: Ledger, side: Side, s: State, session: Session)
    requires StateSound(e, l, side, s) && SessionSound(e, l, side, session.request.id, session)
    ensures StateSound(e, l, side, Replace(s, session))
  {
    OnlyPeerIndexed(e, l, side, s);
    assert session.request.deviceId == Id(e, Other(side));
    hide SessionSound, RecordSound, IndexSound, Replace;
    Runs.ReplaceIndexIff(s, session);
    Effects.ReplaceEffect(s, session, "");
    forall id | id in Replace(s, session).sessions ensures SessionSound(e, l, side, id, Replace(s, session).sessions[id]) {
      Effects.ReplaceEffect(s, session, id);
    }
  }

  lemma RequestSound(e: Ends, l: Ledger, side: Side, s: State, id: string, request: Request)
    requires StateSound(e, l, side, s) && id in s.sessions
    requires SessionSound(e, l, side, id, s.sessions[id].(request := request))
    ensures StateSound(e, l, side, WithRequest(s, id, request))
  {
    OnlyPeerIndexed(e, l, side, s);
    assert request.id == id && request.deviceId == Id(e, Other(side));
    hide SessionSound, RecordSound;
  }

  lemma ProvenSession(e: Ends, l: Ledger, side: Side, id: string, session: Session, p: Proof)
    requires SessionSound(e, l, side, id, session) && p.requestId == id && ProofSound(e, l, p) && Apart(e)
    requires session.request.deviceId == p.deviceId && p.key == Some(session.secret)
    ensures SessionSound(e, l, side, id,
      session.(nonces := session.nonces + {p.nonce}, request := AfterAction(session.request, p.action)))
    ensures Initiator(e, p.key.value) == Other(side)
  {
  }

  lemma ProofUpdateSound(e: Ends, l: Ledger, side: Side, s: State, p: Proof)
    requires StateSound(e, l, side, s) && p.requestId in s.sessions && ProofSound(e, l, p) && Apart(e)
    requires s.sessions[p.requestId].request.deviceId == p.deviceId && p.key == Some(s.sessions[p.requestId].secret)
    ensures StateSound(e, l, side, ProofUpdate(s, p)) && Initiator(e, p.key.value) == Other(side)
  {
    hide SessionSound, RecordSound, ProofSound, IndexSound, Initiator;
    var id, session := p.requestId, s.sessions[p.requestId];
    ProvenSession(e, l, side, id, session, p);
    Runs.ProofUpdateKeepsIndex(s, p);
    var after := session.(nonces := session.nonces + {p.nonce}, request := AfterAction(session.request, p.action));
    assert ProofUpdate(s, p) == s.(sessions := s.sessions[id := after]);
  }

  lemma FinalizeSound(e: Ends, l: Ledger, side: Side, s: State, id: string, stored: bool)
    requires StateSound(e, l, side, s) && id in s.sessions
    requires s.sessions[id].request.localConfirmed && s.sessions[id].request.remoteConfirmed
    ensures StateSound(e, l, side, Finalize(s, id, stored))
  {
    var session := s.sessions[id];
    assert SessionSound(e, l, side, id, session);
    assert RecordSound(e, l, side, session.request.deviceId, RecordOf(session));
    assert SessionSound(e, l, side, id, session.(trusted := true,
      request := session.request.(localConfirmed := true, remoteConfirmed := true, state := Paired)));
    OnlyPeerIndexed(e, l, side, s);
    hide SessionSound, RecordSound;
  }

  // --- the calls -----------------------------------------------------------------------

  lemma ConfirmLocally(e: Ends, l: Ledger, side: Side, p: State, id: string)
    requires StateSound(e, l, side, p) && id in p.sessions
    ensures var l' := l.(accepts := l.accepts + {Acceptance(side, id, p.sessions[id].secret)});
      var q := WithRequest(p, id, p.sessions[id].request.(localConfirmed := true, state := Confirming));
      && Grows(l, l') && StateSound(e, l', side, q)
      && id in q.sessions && q.sessions[id].secret == p.sessions[id].secret
      && q.sessions[id].request == p.sessions[id].request.(localConfirmed := true, state := Confirming)
  {
    hide StateSound;
    var session := p.sessions[id];
    var l' := l.(accepts := l.accepts + {Acceptance(side, id, session.secret)});
    StateGrows(e, l, l', side, p);
    SessionIsSound(e, l', side, p, id);
    RequestSound(e, l', side, p, id, session.request.(localConfirmed := true, state := Confirming));
  }

  lemma AcceptSound(e: Ends, l: Ledger, side: Side, s: State, id: string, now: int, stored: bool)
    requires StateSound(e, l, side, s)
    ensures var (t, r) := Accept(s, e.config, id, now, stored);
      var l' := AcceptanceOf(l, side, t, id, r.Finalized? || r.AwaitPeer? || r.SendConfirm?);
      && Grows(l, l') && l'.begun == l.begun && l'.initiated == l.initiated
      && StateSound(e, l', side, t)
      && (r.SendConfirm? ==> id in t.sessions && t.sessions[id].request.direction.Outgoing? && t.sessions[id].request.localConfirmed)
  {
    hide Prune, Finalize, StateSound, WithRequest, Grows;
    LedgerGrowsItself(l);
    var p := Prune(s, now, e.config.ttl);
    PruneSound(e, l, side, s, now);
    if id in p.sessions && !p.sessions[id].request.state.Rejected? {
      ConfirmLocally(e, l, side, p, id);
      var request := p.sessions[id].request.(localConfirmed := true, state := Confirming);
      var q := WithRequest(p, id, request);
      if request.direction.Incoming? && request.remoteConfirmed {
        FinalizeSound(e, l.(accepts := l.accepts + {Acceptance(side, id, p.sessions[id].secret)}), side, q, id, stored);
        FinalizeSecret(q, id, stored);
      }
    }
  }

  lemma LedgerGrowsItself(l: Ledger)
    ensures Grows(l, l)
  {
  }

  lemma SessionIsSound(e: Ends, l: Ledger, side: Side, s: State, id: string)
    requires StateSound(e, l, side, s) && id in s.sessions
    ensures SessionSound(e, l, side, id, s.sessions[id])
  {
  }

  lemma FinalizeSecret(s: State, id: string, stored: bool)
    requires id in s.sessions
    ensures id in Finalize(s, id, stored).sessions && Finalize(s, id, stored).sessions[id].secret == s.sessions[id].secret
    ensures stored ==> Finalize(s, id, stored).sessions[id].request.localConfirmed == true
    ensures Finalize(s, id, stored).sessions[id].request.id == s.sessions[id].request.id
  {
  }

  // A proof that a session accepts came from the peer that initiated it, so what
  // it confirms is true and the decision sent back is too.
  lemma ProveSound(e: Ends, l: Ledger, side: Side, s: State, p: Proof, now: int, stored: bool)
    requires Apart(e) && StateSound(e, l, side, s)
    requires p.key.Some? && p.key == SecretOf(s, p.requestId) ==> ProofSound(e, l, p)
    ensures var (t, r) := ReceiveProof(s, e.config, p, now, stored);
      StateSound(e, l, side, t) && (r.Ok? ==> DecisionSound(e, l, r.value))
  {
    hide Prune, ProofUpdate, Finalize, ProofValid, StateSound, AfterAction;
    var q := Prune(s, now, e.config.ttl);
    PruneSound(e, l, side, s, now);
    PruneSecret(s, now, e.config.ttl, p.requestId);
    if ProofValid(e.config, p, now) && ProofProcessed(q, p) {
      ProofUpdateSound(e, l, side, q, p);
      Effects.ProofUpdateEffect(q, p, p.requestId);
      var u := ProofUpdate(q, p);
      DecisionIsSound(e, l, side, u, p.requestId, p.key.value);
      if !p.action.OtherAction? && ProofFinalizes(u.sessions[p.requestId]) && stored {
        FinalizeSound(e, l, side, u, p.requestId, true);
        FinalizeSecret(u, p.requestId, true);
        DecisionIsSound(e, l, side, Finalize(u, p.requestId, true), p.requestId, p.key.value);
      }
    }
  }

  lemma PruneSecret(s: State, now: int, ttl: int, id: string)
    ensures id in Prune(s, now, ttl).sessions ==> SecretOf(Prune(s, now, ttl), id) == SecretOf(s, id)
  {
  }

  lemma DecisionIsSound(e: Ends, l: Ledger, side: Side, s: State, id: string, secret: Secret)
    requires StateSound(e, l, side, s) && id in s.sessions && s.sessions[id].secret == secret
    requires Initiated(l, id, secret) && Initiator(e, secret) == Other(side)
    ensures DecisionSound(e, l, DecisionOf(s.sessions[id]))
  {
    SessionIsSound(e, l, side, s, id);
  }

  // A decision that the initiator's session accepts is its peer's.
  lemma DecideSound(e: Ends, l: Ledger, side: Side, s: State, id: string, d: PeerDecision, stored: bool)
    requires Apart(e) && LedgerSound(e, l) && StateSound(e, l, side, s)
    requires id in l.begun && l.begun[id].deviceId == Id(e, side)
    requires d.key.Some? && d.key == SecretOf(s, id) ==> DecisionSound(e, l, d)
    ensures var r := ApplyDecision(s, id, d, stored);
      r.Some? ==> StateSound(e, l, side, r.value)
  {
    hide Finalize, StateSound;
    if id in s.sessions && d.requestId == id && d.key == Some(s.sessions[id].secret) {
      SessionIsSound(e, l, side, s, id);
      InitiatorKnown(e, l, side, id, d.key.value);
      var request := s.sessions[id].request.(remoteConfirmed := d.localConfirmed);
      RequestSound(e, l, side, s, id, request);
      RequestSound(e, l, side, s, id, request.(state := Rejected));
      RequestSound(e, l, side, s, id, request.(state := Confirming));
      if request.localConfirmed && request.remoteConfirmed {
        FinalizeSound(e, l, side, WithRequest(s, id, request), id, stored);
      }
    }
  }

  lemma InitiatorKnown(e: Ends, l: Ledger, side: Side, id: string, secret: Secret)
    requires Apart(e) && LedgerSound(e, l) && Initiated(l, id, secret)
    requires id in l.begun && l.begun[id].deviceId == Id(e, side)
    ensures Initiator(e, secret) == side && secret.request.deviceId == Id(e, side)
  {
  }

  lemma RejectSound(e: Ends, l: Ledger, side: Side, s: State, id: string, now: int)
    requires StateSound(e, l, side, s)
    ensures StateSound(e, l, side, Reject(s, e.config, id, now))
  {
    hide Prune, StateSound;
    var p := Prune(s, now, e.config.ttl);
    PruneSound(e, l, side, s, now);
    if id in p.sessions {
      SessionIsSound(e, l, side, p, id);
      RequestSound(e, l, side, p, id, p.sessions[id].request.(state := Rejected));
    }
  }

  lemma OpenSound(e: Ends, l: Ledger, side: Side, s: State, now: int)
    requires StateSound(e, l, side, s)
    ensures StateSound(e, l, side, OpenRequest(s, e.config, Id(e, Other(side)), Some(PeerOf(e, side)), now).0)
  {
    hide Prune;
    PruneSound(e, l, side, s, now);
    hide StateSound;
  }

  lemma AdmitSound(e: Ends, l: Ledger, side: Side, s: State, hello: SignedHello, peer: Option<Peer>,
      host: string, now: int)
    requires Apart(e) && StateSound(e, l, side, s)
    requires peer == None || (peer == Some(PeerOf(e, side)) && hello.body.deviceId == Id(e, Other(side)))
    requires SignatureVerifies(hello) && e.config.hint(hello.body.publicKey) == e.config.hint(Key(e, Other(side))) ==> HelloSound(e, hello)
    ensures var (t, r) := AdmitBegin(s, e.config, hello, peer, host, now);
      && StateSound(e, l, side, t)
      && (r.Admitted? ==> hello.body.deviceId == Id(e, Other(side)) && hello.body.publicKey == Key(e, Other(side)))
  {
    hide Prune, AdmitPruned, StateSound, BeginValid;
    PruneSound(e, l, side, s, now);
    AdmitPrunedSound(e, l, side, Prune(s, now, e.config.ttl), hello, host, now);
  }

  lemma AdmitPrunedSound(e: Ends, l: Ledger, side: Side, p: State, hello: SignedHello, host: string, now: int)
    requires StateSound(e, l, side, p)
    ensures StateSound(e, l, side, AdmitPruned(p, e.config, hello, host, now).0)
  {
    hide SessionSound, AdmitPruned, IndexSound;
    var t := AdmitPruned(p, e.config, hello, host, now).0;
    Effects.AdmitPrunedEffect(p, e.config, hello, host, now, "");
    SameIndex(p, t);
    forall d | d in t.trusted ensures RecordSound(e, l, side, d, t.trusted[d]) {
      AdmittedRecord(p, e.config, hello, host, now, d);
      assert RecordSound(e, l, side, d, p.trusted[d]);
    }
  }

  lemma SameIndex(s: State, t: State)
    requires t.sessions == s.sessions && t.pendingByDevice == s.pendingByDevice
    ensures IndexSound(s) ==> IndexSound(t)
  {
  }

  lemma AdmittedRecord(p: State, c: Config, hello: SignedHello, host: string, now: int, device: string)
    ensures var t := AdmitPruned(p, c, hello, host, now).0;
      device in t.trusted ==>
        device in p.trusted && t.trusted[device] == p.trusted[device].(keyChanged := t.trusted[device].keyChanged)
  {
  }

  // --- steps of the whole system ----------------------------------------------------------

  lemma Assemble(e: Ends, w: World, side: Side, node: Node, l: Ledger, hellos: set<SignedHello>,
      proofs: set<Proof>, decisions: set<PeerDecision>)
    requires Inv(e, w) && LedgerSound(e, l) && Grows(w.ledger, l)
    requires NodeSound(e, l, side, node) && NetSound(e, l, hellos, proofs, decisions)
    requires forall id :: id in At(w, Other(side)).requesting && id in l.initiated ==> id in w.ledger.initiated
    ensures Inv(e, With(w, side, node).(hellos := hellos, proofs := proofs, decisions := decisions, ledger := l))
  {
    hide NodeSound, NetSound, LedgerSound, Grows;
    NodeGrows(e, w.ledger, l, Other(side), At(w, Other(side)));
  }

  // Only the node's state changes.
  lemma StateStep(e: Ends, w: World, side: Side, s: State, decisions: set<PeerDecision>)
    requires Inv(e, w) && StateSound(e, w.ledger, side, s)
    requires forall d :: d in decisions ==> DecisionSound(e, w.ledger, d)
    ensures Inv(e, With(w, side, At(w, side).(state := s)).(decisions := w.decisions + decisions))
  {
    hide StateSound, LedgerSound, DecisionSound, ProofSound, HelloSound;
    LedgerGrowsItself(w.ledger);
    Assemble(e, w, side, At(w, side).(state := s), w.ledger, w.hellos, w.proofs, w.decisions + decisions);
  }

  lemma NodeIsSound(e: Ends, w: World, side: Side)
    requires Inv(e, w)
    ensures NodeSound(e, w.ledger, side, At(w, side)) && StateSound(e, w.ledger, side, At(w, side).state)
    ensures IndexSound(w.left.state) && IndexSound(w.right.state)
  {
    hide NetSound, LedgerSound;
  }

  lemma LedgerOf(e: Ends, w: World)
    requires Inv(e, w)
    ensures LedgerSound(e, w.ledger) && NetSound(e, w.ledger, w.hellos, w.proofs, w.decisions)
  {
    hide NodeSound, NetSound, LedgerSound;
  }

  lemma LedgerBegins(e: Ends, l: Ledger, begin: Hello)
    requires LedgerSound(e, l) && begin.requestId !in l.begun && begin.deviceId in {e.leftId, e.rightId}
    ensures var l' := l.(begun := l.begun[begin.requestId := begin]); LedgerSound(e, l') && Grows(l, l')
    ensures begin.requestId !in l.initiated
  {
  }

  lemma LedgerInitiates(e: Ends, l: Ledger, id: string, secret: Secret)
    requires LedgerSound(e, l) && id !in l.initiated && id in l.begun && secret.request == l.begun[id]
    ensures var l' := l.(initiated := l.initiated[id := secret]); LedgerSound(e, l') && Grows(l, l')
    ensures l.begun[id].requestId == id
  {
  }

  // What a node asks and awaits, as the ledger grows.
  lemma CallsGrow(e: Ends, l: Ledger, l': Ledger, side: Side, requesting: map<string, (Hello, int)>,
      awaiting: set<string>)
    requires Grows(l, l') && RequestingSound(e, l, side, requesting) && AwaitingSound(e, l, side, awaiting)
    requires forall id :: id in requesting && id in l'.initiated ==> id in l.initiated
    ensures RequestingSound(e, l', side, requesting) && AwaitingSound(e, l', side, awaiting)
  {
  }

  lemma RequestingMore(e: Ends, l: Ledger, side: Side, requesting: map<string, (Hello, int)>, begin: Hello, now: int)
    requires RequestingSound(e, l, side, requesting) && begin.deviceId == Id(e, side)
    requires begin.requestId in l.begun && l.begun[begin.requestId] == begin && begin.requestId !in l.initiated
    ensures RequestingSound(e, l, side, requesting[begin.requestId := (begin, now)])
  {
  }

  lemma Requested(e: Ends, l: Ledger, side: Side, requesting: map<string, (Hello, int)>, id: string)
    requires Apart(e) && RequestingSound(e, l, side, requesting) && id in requesting
    ensures id in l.begun && l.begun[id] == requesting[id].0 && requesting[id].0.deviceId == Id(e, side) && id !in l.initiated
    ensures RequestingSound(e, l, side, requesting - {id})
    ensures forall others :: RequestingSound(e, l, Other(side), others) ==> id !in others
  {
  }

  lemma SendBeginInv(e: Ends, w: World, step: Step)
    requires Apart(e) && Inv(e, w) && step.SendBegin?
    requires Enabled(e, w, step)
    ensures Inv(e, Apply(e, w, step))
  {
    hide LedgerSound, Grows, RequestingSound, AwaitingSound, AdmittedSound;
    hide Inv, StateSound, NetSound, HelloGenuine, ProofBy, ProofSound, DecisionSound, SessionSound, Code;
    hide OutgoingSession, IncomingSession, Prune, Accept, ReceiveProof, ApplyDecision, AdmitBegin, Insert, Replace;
    hide ResponseValid, OpenRequest, Reject, RefreshSends;
    var side, begin, now := step.side, step.begin, step.now;
    NodeIsSound(e, w, side);
    LedgerOf(e, w);
    var node := At(w, side);
    OpenSound(e, w.ledger, side, node.state, now);
    var t := OpenRequest(node.state, e.config, Id(e, Other(side)), Some(PeerOf(e, side)), now).0;
    var l := w.ledger.(begun := w.ledger.begun[begin.requestId := begin]);
    LedgerBegins(e, w.ledger, begin);
    StateGrows(e, w.ledger, l, side, t);
    CallsGrow(e, w.ledger, l, side, node.requesting, node.awaiting);
    RequestingMore(e, l, side, node.requesting, begin, now);
    NetGrows(e, w.ledger, l, w.hellos, w.proofs, w.decisions);
    MoreHellos(e, l, w, Sign(begin));
    Assemble(e, w, side, node.(state := t, requesting := node.requesting[begin.requestId := (begin, now)]),
      l, w.hellos + {Sign(begin)}, w.proofs, w.decisions);
  }

  lemma MoreHellos(e: Ends, l: Ledger, w: World, h: SignedHello)
    requires NetSound(e, l, w.hellos, w.proofs, w.decisions) && HelloSound(e, h)
    ensures NetSound(e, l, w.hellos + {h}, w.proofs, w.decisions)
  {
    hide HelloSound, ProofSound, DecisionSound;
  }

  lemma MoreProofs(e: Ends, l: Ledger, w: World, sends: bool, p: Proof)
    requires NetSound(e, l, w.hellos, w.proofs, w.decisions) && (sends ==> ProofSound(e, l, p))
    ensures NetSound(e, l, w.hellos, Sent(w.proofs, sends, p), w.decisions)
  {
    hide HelloSound, ProofSound, DecisionSound;
  }

  // A genuine hello with the peer's identity hint carries the peer's key.
  lemma GenuineKey(e: Ends, w: World, side: Side, h: SignedHello)
    requires Apart(e) && NetSound(e, w.ledger, w.hellos, w.proofs, w.decisions) && HelloGenuine(e, w, side, h)
    requires SignatureVerifies(h) && e.config.hint(h.body.publicKey) == e.config.hint(Key(e, Other(side)))
    ensures h.body.publicKey == Key(e, Other(side)) && HelloSound(e, h)
  {
    assert HelloSound(e, h);
  }

  lemma CompleteInv(e: Ends, w: World, step: Step)
    requires Apart(e) && Inv(e, w) && step.Complete?
    requires Enabled(e, w, step)
    ensures Inv(e, Apply(e, w, step))
  {
    hide LedgerSound, Grows, RequestingSound, AwaitingSound, AdmittedSound;
    hide Inv, StateSound, NetSound, ProofBy, ProofSound, DecisionSound, Code, IncomingSession, Prune;
    hide Accept, ReceiveProof, ApplyDecision, AdmitBegin, Insert, Replace, OpenRequest, Reject, RefreshSends;
    var side, id, response := step.side, step.id, step.response;
    NodeIsSound(e, w, side);
    NodeIsSound(e, w, Other(side));
    LedgerOf(e, w);
    var node := At(w, side);
    var (begin, now) := node.requesting[id];
    GenuineKey(e, w, side, response);
    var session := OutgoingSession(e.config, PeerOf(e, side), begin, response, now);
    var l := w.ledger.(initiated := w.ledger.initiated[id := session.secret]);
    Requested(e, w.ledger, side, node.requesting, id);
    LedgerInitiates(e, w.ledger, id, session.secret);
    assert SessionSound(e, l, side, id, session);
    StateGrows(e, w.ledger, l, side, node.state);
    CallsGrow(e, w.ledger, l, side, node.requesting - {id}, node.awaiting);
    InsertSound(e, l, side, node.state, session);
    NetGrows(e, w.ledger, l, w.hellos, w.proofs, w.decisions);
    Assemble(e, w, side, node.(state := Insert(node.state, session), requesting := node.requesting - {id}),
      l, w.hellos, w.proofs, w.decisions);
  }

  lemma ReceiveHelloInv(e: Ends, w: World, step: Step)
    requires Apart(e) && Inv(e, w) && step.ReceiveHello?
    requires Enabled(e, w, step)
    ensures Inv(e, Apply(e, w, step))
  {
    hide Inv, StateSound, NetSound, ProofBy, ProofSound, DecisionSound, SessionSound, Code, OutgoingSession;
    hide IncomingSession, Prune, Accept, ReceiveProof, ApplyDecision, AdmitBegin, Insert, Replace, ResponseValid;
    hide OpenRequest, Reject, RefreshSends;
    var side, hello := step.side, step.hello;
    NodeIsSound(e, w, side);
    LedgerOf(e, w);
    var node := At(w, side);
    var found := if step.online && hello.body.deviceId == Id(e, Other(side)) then Some(PeerOf(e, side)) else None;
    if SignatureVerifies(hello) && e.config.hint(hello.body.publicKey) == e.config.hint(Key(e, Other(side))) {
      GenuineKey(e, w, side, hello);
    }
    AdmitSound(e, w.ledger, side, node.state, hello, found, step.host, step.now);
    LedgerGrowsItself(w.ledger);
    var (t, r) := AdmitBegin(node.state, e.config, hello, found, step.host, step.now);
    Assemble(e, w, side,
      node.(state := t, admitted := if r.Admitted? then node.admitted + {(hello, step.now)} else node.admitted),
      w.ledger, w.hellos, w.proofs, w.decisions);
  }

  lemma RespondInv(e: Ends, w: World, step: Step)
    requires Apart(e) && Inv(e, w) && step.Respond?
    requires Enabled(e, w, step)
    ensures Inv(e, Apply(e, w, step))
  {
    hide Inv, StateSound, NetSound, HelloGenuine, ProofBy, ProofSound, DecisionSound, Code, OutgoingSession;
    hide Prune, Accept, ReceiveProof, ApplyDecision, AdmitBegin, Insert, Replace, ResponseValid, OpenRequest, Reject;
    hide RefreshSends;
    var side, hello, response := step.side, step.hello, step.response;
    NodeIsSound(e, w, side);
    LedgerOf(e, w);
    var node := At(w, side);
    assert (hello, step.now).0 == hello;
    var session := IncomingSession(e.config, hello, response, step.now);
    assert SessionSound(e, w.ledger, side, session.request.id, session);
    ReplaceSound(e, w.ledger, side, node.state, session);
    LedgerGrowsItself(w.ledger);
    MoreHellos(e, w.ledger, w, response);
    Assemble(e, w, side,
      node.(state := Replace(node.state, session), admitted := node.admitted - {(hello, step.now)}),
      w.ledger, w.hellos + {response}, w.proofs, w.decisions);
  }

  // What a session's holder sends about an exchange it initiated.
  lemma ProofOfOutgoing(e: Ends, l: Ledger, side: Side, s: State, id: string, action: Action, p: Proof)
    requires Apart(e) && LedgerSound(e, l) && StateSound(e, l, side, s) && ProofBy(e, side, s, id, action, p)
    requires s.sessions[id].request.direction.Outgoing?
    requires action.Confirm? ==> s.sessions[id].request.localConfirmed
    ensures ProofSound(e, l, p) && id in l.begun && l.begun[id].deviceId == Id(e, side)
  {
    SessionIsSound(e, l, side, s, id);
  }

  lemma UserAcceptsInv(e: Ends, w: World, step: Step)
    requires Apart(e) && Inv(e, w) && step.UserAccepts?
    requires Enabled(e, w, step)
    ensures Inv(e, Apply(e, w, step))
  {
    hide Inv, StateSound, NetSound, HelloGenuine, ProofBy, ProofSound, DecisionSound, SessionSound, Code;
    hide OutgoingSession, IncomingSession, Prune, Accept, ReceiveProof, ApplyDecision, AdmitBegin, Insert, Replace;
    hide ResponseValid, OpenRequest, Reject, RefreshSends;
    var side, id := step.side, step.id;
    NodeIsSound(e, w, side);
    LedgerOf(e, w);
    var node := At(w, side);
    AcceptSound(e, w.ledger, side, node.state, id, step.now, step.stored);
    var (t, r) := Accept(node.state, e.config, id, step.now, step.stored);
    var l := AcceptanceOf(w.ledger, side, t, id, r.Finalized? || r.AwaitPeer? || r.SendConfirm?);
    NetGrows(e, w.ledger, l, w.hellos, w.proofs, w.decisions);
    if r.SendConfirm? {
      ProofOfOutgoing(e, l, side, t, id, Confirm, step.proof);
    }
    MoreProofs(e, l, w, r.SendConfirm?, step.proof);
    Assemble(e, w, side, node.(state := t, awaiting := if r.SendConfirm? then node.awaiting + {id} else node.awaiting),
      l, w.hellos, Sent(w.proofs, r.SendConfirm?, step.proof), w.decisions);
  }

  lemma UserRefreshesInv(e: Ends, w: World, step: Step)
    requires Apart(e) && Inv(e, w) && step.UserRefreshes?
    requires Enabled(e, w, step)
    ensures Inv(e, Apply(e, w, step))
  {
    hide Inv, StateSound, NetSound, HelloGenuine, ProofBy, ProofSound, DecisionSound, SessionSound, Code;
    hide OutgoingSession, IncomingSession, Prune, Accept, ReceiveProof, ApplyDecision, AdmitBegin, Insert, Replace;
    hide ResponseValid, OpenRequest, Reject;
    var side, id := step.side, step.id;
    NodeIsSound(e, w, side);
    LedgerOf(e, w);
    var node := At(w, side);
    PruneSound(e, w.ledger, side, node.state, step.now);
    LedgerGrowsItself(w.ledger);
    var t := Prune(node.state, step.now, e.config.ttl);
    if RefreshSends(t, id) {
      ProofOfOutgoing(e, w.ledger, side, t, id, StatusAction, step.proof);
    }
    MoreProofs(e, w.ledger, w, RefreshSends(t, id), step.proof);
    Assemble(e, w, side, node.(state := t, awaiting := if RefreshSends(t, id) then node.awaiting + {id} else node.awaiting),
      w.ledger, w.hellos, Sent(w.proofs, RefreshSends(t, id), step.proof), w.decisions);
  }

  lemma UserRejectsInv(e: Ends, w: World, step: Step)
    requires Apart(e) && Inv(e, w) && step.UserRejects?
    requires Enabled(e, w, step)
    ensures Inv(e, Apply(e, w, step))
  {
    hide Inv, StateSound, NetSound, HelloGenuine, ProofBy, ProofSound, DecisionSound, SessionSound, Code;
    hide OutgoingSession, IncomingSession, Prune, Accept, ReceiveProof, ApplyDecision, AdmitBegin, Insert, Replace;
    hide ResponseValid, OpenRequest, Reject, RefreshSends;
    var side, id := step.side, step.id;
    NodeIsSound(e, w, side);
    LedgerOf(e, w);
    var node := At(w, side);
    PruneSound(e, w.ledger, side, node.state, step.now);
    RejectSound(e, w.ledger, side, node.state, id, step.now);
    LedgerGrowsItself(w.ledger);
    var t := Prune(node.state, step.now, e.config.ttl);
    var sends := id in t.sessions && t.sessions[id].request.direction.Outgoing?;
    if sends {
      ProofOfOutgoing(e, w.ledger, side, t, id, RejectAction, step.proof);
    }
    MoreProofs(e, w.ledger, w, sends, step.proof);
    Assemble(e, w, side, node.(state := Reject(node.state, e.config, id, step.now)),
      w.ledger, w.hellos, Sent(w.proofs, sends, step.proof), w.decisions);
  }

  lemma OtherStepInv(e: Ends, w: World, step: Step)
    requires Apart(e) && Inv(e, w) && (step.Tidy? || step.Prove? || step.Decide? || step.Forget?)
    requires Enabled(e, w, step)
    ensures Inv(e, Apply(e, w, step))
  {
    hide Inv, StateSound, LedgerSound, Prune, ReceiveProof, ApplyDecision, ProofSound, DecisionSound;
    hide RequestingSound, AdmittedSound, HelloSound, HelloGenuine, ProofBy, Accept, OpenRequest, AdmitBegin, Replace;
    hide Insert, Reject;
    var side := step.side;
    NodeIsSound(e, w, side);
    LedgerOf(e, w);
    var s := At(w, side).state;
    assert w.decisions + {} == w.decisions;
    match step
    case Tidy(_, now) =>
      PruneSound(e, w.ledger, side, s, now);
      StateStep(e, w, side, Prune(s, now, e.config.ttl), {});
    case Prove(_, p, now, stored) =>
      ProveSound(e, w.ledger, side, s, p, now, stored);
      var (t, r) := ReceiveProof(s, e.config, p, now, stored);
      StateStep(e, w, side, t, if r.Ok? then {r.value} else {});
    case Decide(_, id, d, stored) =>
      DecideSound(e, w.ledger, side, s, id, d, stored);
      var r := ApplyDecision(s, id, d, stored);
      StateStep(e, w, side, if r.Some? then r.value else s, {});
    case Forget(_, deviceId) =>
      ForgetSound(e, w.ledger, side, s, deviceId);
      StateStep(e, w, side, s.(trusted := s.trusted - {deviceId}), {});
  }

  lemma ForgetSound(e: Ends, l: Ledger, side: Side, s: State, deviceId: string)
    requires StateSound(e, l, side, s)
    ensures StateSound(e, l, side, s.(trusted := s.trusted - {deviceId}))
  {
    hide SessionSound, RecordSound;
  }

  // A process that starts again has its trust records and nothing else.
  lemma RestartInv(e: Ends, w: World, side: Side)
    requires Inv(e, w)
    ensures Inv(e, Apply(e, w, Restart(side)))
  {
    hide Inv, StateSound, LedgerSound, NetSound;
    NodeIsSound(e, w, side);
    LedgerOf(e, w);
    LedgerGrowsItself(w.ledger);
    RestartSound(e, w.ledger, side, At(w, side).state);
    Assemble(e, w, side, Node(Runs.Restarted(At(w, side).state), map[], {}, {}), w.ledger, w.hellos, w.proofs,
      w.decisions);
  }

  lemma RestartSound(e: Ends, l: Ledger, side: Side, s: State)
    requires StateSound(e, l, side, s)
    ensures StateSound(e, l, side, Runs.Restarted(s))
  {
    hide SessionSound, RecordSound;
  }

  lemma StepInv(e: Ends, w: World, step: Step)
    requires Apart(e) && Inv(e, w)
    requires Enabled(e, w, step)
    ensures Inv(e, Apply(e, w, step))
  {
    hide Inv, Apply, Enabled;
    match step
    case SendBegin(_, _, _) => SendBeginInv(e, w, step);
    case Complete(_, _, _) => CompleteInv(e, w, step);
    case ReceiveHello(_, _, _, _, _) => ReceiveHelloInv(e, w, step);
    case Respond(_, _, _, _) => RespondInv(e, w, step);
    case UserAccepts(_, _, _, _, _) => UserAcceptsInv(e, w, step);
    case UserRefreshes(_, _, _, _) => UserRefreshesInv(e, w, step);
    case UserRejects(_, _, _, _) => UserRejectsInv(e, w, step);
    case Restart(side) => RestartInv(e, w, side);
    case _ => OtherStepInv(e, w, step);
  }

  // --- runs -----------------------------------------------------------------------------

  ghost predicate Valid(e: Ends, w: World, steps: seq<Step>)
    decreases |steps|
  {
    steps == [] || (Enabled(e, w, steps[0]) && Valid(e, Apply(e, w, steps[0]), steps[1..]))
  }

  ghost function Run(e: Ends, w: World, steps: seq<Step>): World
    requires Valid(e, w, steps)
    decreases |steps|
  {
    if steps == [] then w else Run(e, Apply(e, w, steps[0]), steps[1..])
  }

  lemma {:induction false} RunInv(e: Ends, w: World, steps: seq<Step>)
    requires Apart(e) && Inv(e, w) && Valid(e, w, steps)
    ensures Inv(e, Run(e, w, steps))
    decreases |steps|
  {
    hide Inv, Enabled, Apply;
    if steps != [] {
      StepInv(e, w, steps[0]);
      RunInv(e, Apply(e, w, steps[0]), steps[1..]);
    }
  }

  lemma StartInv(e: Ends)
    ensures Inv(e, START)
  {
  }

  // In every reachable state, at either end: a trust record is for the other
  // device, pins its identity key, and exists only if both users accepted that
  // request having been shown the code of the very key the record holds.
  lemma TrustNeedsBothUsers(e: Ends, steps: seq<Step>, side: Side, device: string)
    requires Apart(e) && Valid(e, START, steps) && device in At(Run(e, START, steps), side).state.trusted
    ensures var w := Run(e, START, steps);
      var r := At(w, side).state.trusted[device];
      && device == Id(e, Other(side)) && r.publicKey == Key(e, Other(side))
      && BothAccepted(w.ledger, r.pairingKey.request.requestId, r.pairingKey)
  {
    hide Valid, Run, Inv, BothAccepted, SessionSound;
    StartInv(e);
    RunInv(e, START, steps);
    NodeIsSound(e, Run(e, START, steps), side);
    assert RecordSound(e, Run(e, START, steps).ledger, side, device, At(Run(e, START, steps), side).state.trusted[device]);
  }

  // If both devices hold a trust record from the same request, they hold the same
  // pairing key, each pins the other's identity key, and both users saw the same
  // code.
  lemma PairingAgreement(e: Ends, steps: seq<Step>)
    requires Apart(e) && Valid(e, START, steps)
    ensures var w := Run(e, START, steps);
      e.rightId in w.left.state.trusted && e.leftId in w.right.state.trusted ==>
        var (l, r) := (w.left.state.trusted[e.rightId], w.right.state.trusted[e.leftId]);
        l.pairingKey.request.requestId == r.pairingKey.request.requestId ==>
          && l.pairingKey == r.pairingKey && l.publicKey == e.rightKey && r.publicKey == e.leftKey
          && Code(e.config.digest, l.pairingKey) == Code(e.config.digest, r.pairingKey)
  {
    hide Valid, Run, Inv, Code;
    var w := Run(e, START, steps);
    if e.rightId in w.left.state.trusted && e.leftId in w.right.state.trusted {
      TrustNeedsBothUsers(e, steps, Left, e.rightId);
      TrustNeedsBothUsers(e, steps, Right, e.leftId);
    }
  }

  // What a user accepts is what the session shows: the code of its secret, which
  // at the initiator is the secret every later proof and decision is keyed by.
  lemma ShownCodes(e: Ends, steps: seq<Step>, side: Side, id: string)
    requires Apart(e) && Valid(e, START, steps) && id in At(Run(e, START, steps), side).state.sessions
    ensures var w := Run(e, START, steps);
      var s := At(w, side).state.sessions[id];
      && s.request.code == Code(e.config.digest, s.secret)
      && (s.request.localConfirmed ==> Acceptance(side, id, s.secret) in w.ledger.accepts)
      && (s.request.localConfirmed && s.request.remoteConfirmed ==> BothAccepted(w.ledger, id, s.secret))
  {
    hide Valid, Run, Inv, Code;
    StartInv(e);
    RunInv(e, START, steps);
    var w := Run(e, START, steps);
    NodeIsSound(e, w, side);
    SessionIsSound(e, w.ledger, side, At(w, side).state, id);
  }

  // In every reachable state RequestPairing finds a session behind every index
  // entry.
  lemma PairingNeverCrashes(e: Ends, steps: seq<Step>, side: Side, deviceId: string, peer: Option<Peer>, now: int)
    requires Apart(e) && Valid(e, START, steps)
    ensures !OpenRequest(At(Run(e, START, steps), side).state, e.config, deviceId, peer, now).1.Crashed?
  {
    hide Valid, Run, Inv, OpenRequest;
    StartInv(e);
    RunInv(e, START, steps);
    NodeIsSound(e, Run(e, START, steps), side);
    OpenNeverCrashes(At(Run(e, START, steps), side).state, e.config, deviceId, peer, now);
  }
}
