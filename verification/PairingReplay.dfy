// Replayed pairing begins over whole runs of the service: how the cache of recent
// request IDs, which keeps them for a request lifetime and only in memory, fits
// the timestamp window.
module PairingReplay {
  import opened Results
  import opened Chunking
  import opened Replay
  import opened Pairing
  import Runs = PairingRuns

  // crypto.go subtracts the other way round; the test is the same.
  predicate ValidTimestamp(timestamp: Option<int>, now: int) {
    timestamp.Some?
    && var difference := Wrap64(timestamp.value - Unix(now));
       (if difference < 0 then Wrap64(-difference) else difference) <= SKEW
  }

  lemma SameTimeTest(timestamp: Option<int>, now: int)
    requires timestamp.Some? ==> IsInt64(timestamp.value)
    requires SaneClock(now)
    ensures ValidTimestamp(timestamp, now) <==> ValidProtocolTime(timestamp, now)
  {
  }

  // What the cache looks like to one begin: the parts of pruneLocked and
  // ReceiveBegin that touch it.
  lemma AdmissionUsesCache(s: State, c: Config, hello: SignedHello, peer: Option<Peer>, host: string, now: int)
    ensures var (t, r) := AdmitBegin(s, c, hello, peer, host, now);
      var kept := KeptBegins(s.recentBegins, now, c.ttl);
      && (r.Admitted? ==>
            ValidProtocolTime(hello.body.seconds, now)
            && !RecentlyBegun(kept, hello.body.requestId, now, c.ttl)
            && t.recentBegins == kept[hello.body.requestId := now])
      && (!r.Admitted? ==> t.recentBegins == s.recentBegins || t.recentBegins == kept)
  {
    hide KeptBegins, ValidProtocolTime, DeviceExpires, Expired;
  }

  // --- runs with their clock -------------------------------------------------------

  // A step and the time at which it took the service's lock.
  datatype Timed = Timed(step: Runs.Step, lock: int)

  // The clock reading a step prunes with; the other steps leave the cache alone.
  function Reading(step: Runs.Step): Option<int> {
    match step
    case List(now) => Some(now)
    case Open(_, _, now) => Some(now)
    case Admit(_, _, _, now) => Some(now)
    case Accepting(_, now, _) => Some(now)
    case Proving(_, now, _) => Some(now)
    case Rejecting(_, now) => Some(now)
    case _ => None
  }

  function StateAt(c: Config, run: seq<Timed>, k: nat): State
    requires k <= |run|
  {
    if k == 0 then FRESH_STATE else Runs.Apply(c, StateAt(c, run, k - 1), run[k - 1].step)
  }

  predicate AdmittedAt(c: Config, run: seq<Timed>, k: nat)
    requires k < |run|
  {
    run[k].step.Admit?
    && var a := run[k].step;
       AdmitBegin(StateAt(c, run, k), c, a.hello, a.peer, a.host, a.now).1.Admitted?
  }

  predicate Opens(c: Config, run: seq<Timed>, k: nat, hello: SignedHello)
    requires k < |run|
  {
    AdmittedAt(c, run, k) && run[k].step.hello == hello
  }

  // The clock is read before the lock is taken, at most `stall` before it.
  predicate TimelyStep(t: Timed, stall: nat) {
    && (Reading(t.step).Some? ==>
          SaneClock(Reading(t.step).value) && Reading(t.step).value <= t.lock <= Reading(t.step).value + stall)
    && (t.step.Admit? && t.step.hello.body.seconds.Some? ==> IsInt64(t.step.hello.body.seconds.value))
  }

  predicate FarApart(before: Timed, after: Timed, gap: nat) {
    Reading(after.step).Some? ==> before.lock + gap <= Reading(after.step).value
  }

  ghost predicate RestartsBetween(run: seq<Timed>, i: nat, k: nat)
    requires i < k <= |run|
  {
    exists m :: i < m < k && run[m].step.Restarting?
  }

  // A second critical section follows its first one, in the same process.
  ghost predicate Answers(c: Config, run: seq<Timed>, k: nat)
    requires k < |run|
  {
    run[k].step.CompleteIncoming? ==>
      exists i :: 0 <= i < k && Opens(c, run, i, run[k].step.hello) && run[i].step.now == run[k].step.now
        && !RestartsBetween(run, i, k)
  }

  // A non-decreasing clock, and at least `gap` between the last call of a process
  // and the first reading of the next.
  ghost predicate TimelyRun(c: Config, run: seq<Timed>, stall: nat, gap: nat) {
    && (forall i :: 0 <= i < |run| ==> TimelyStep(run[i], stall) && Answers(c, run, i))
    && (forall i, j :: 0 <= i < j < |run| ==> run[i].lock <= run[j].lock)
    && (forall i, j :: 0 <= i < j < |run| && !run[i].step.Restarting? && RestartsBetween(run, i, j)
          ==> FarApart(run[i], run[j], gap))
  }

  // One signed begin opens two sessions.
  ghost predicate OpenedTwice(c: Config, run: seq<Timed>) {
    exists i, j, hello :: 0 <= i < j < |run| && Opens(c, run, i, hello) && Opens(c, run, j, hello)
  }

  // --- the cache along a run ---------------------------------------------------------

  lemma PruneCache(s: State, now: int, ttl: int)
    ensures Prune(s, now, ttl).recentBegins == KeptBegins(s.recentBegins, now, ttl)
  {
    hide DeviceExpires, Expired, KeptBegins;
  }

  // A remembered ID stays, with that time or a later one, unless the step prunes
  // more than a lifetime later or is a restart.
  lemma StepRemembers(c: Config, s: State, step: Runs.Step, id: string, began: int)
    requires 0 < c.ttl && id in s.recentBegins && began <= s.recentBegins[id]
    requires !step.Restarting? && (Reading(step).Some? ==> Reading(step).value - began <= c.ttl)
    ensures var t := Runs.Apply(c, s, step); id in t.recentBegins && began <= t.recentBegins[id]
  {
    hide Prune, Finalize, WithRequest, ProofUpdate, ProofValid, ProofProcessed, AdmitBegin, OpenRequest, Insert;
    hide Replace, ResponseValid;
    if Reading(step).Some? {
      PruneCache(s, Reading(step).value, c.ttl);
    }
    match step
    case Open(deviceId, peer, now) => OpenCache(s, c, deviceId, peer, now);
    case CompleteOutgoing(peer, begin, response, now) => StoreCache(s, OutgoingSession(c, peer, begin, response, now));
    case Admit(hello, peer, host, now) => AdmitRemembers(s, c, hello, peer, host, now, id, began);
    case CompleteIncoming(hello, response, now) => StoreCache(s, IncomingSession(c, hello, response, now));
    case Accepting(at, now, stored) => AcceptCache(s, c, at, now, stored);
    case Applying(at, decision, stored) => DecisionCache(s, at, decision, stored);
    case Proving(p, now, stored) => ProofCache(s, c, p, now, stored);
    case Rejecting(at, now) => RejectCache(s, c, at, now);
    case _ =>
  }

  lemma OpenCache(s: State, c: Config, deviceId: string, peer: Option<Peer>, now: int)
    ensures var t := OpenRequest(s, c, deviceId, peer, now).0; t == s || t == Prune(s, now, c.ttl)
  {
    hide Prune;
  }

  lemma StoreCache(s: State, session: Session)
    ensures Insert(s, session).recentBegins == s.recentBegins && Replace(s, session).recentBegins == s.recentBegins
  {
  }

  lemma AdmitRemembers(s: State, c: Config, hello: SignedHello, peer: Option<Peer>, host: string, now: int,
      id: string, began: int)
    requires 0 < c.ttl && id in s.recentBegins && began <= s.recentBegins[id] && now - began <= c.ttl
    ensures var t := AdmitBegin(s, c, hello, peer, host, now).0; id in t.recentBegins && began <= t.recentBegins[id]
  {
    hide AdmitBegin, BeginValid;
    AdmissionUsesCache(s, c, hello, peer, host, now);
  }

  lemma FinalizeCache(s: State, id: string, stored: bool, request: Request)
    requires id in s.sessions
    ensures Finalize(s, id, stored).recentBegins == s.recentBegins
    ensures WithRequest(s, id, request).recentBegins == s.recentBegins && id in WithRequest(s, id, request).sessions
  {
  }

  lemma AcceptCache(s: State, c: Config, id: string, now: int, stored: bool)
    ensures Accept(s, c, id, now, stored).0.recentBegins == Prune(s, now, c.ttl).recentBegins
  {
    hide Prune, WithRequest, Finalize;
    var p := Prune(s, now, c.ttl);
    if id in p.sessions {
      var request := p.sessions[id].request.(localConfirmed := true, state := Confirming);
      FinalizeCache(p, id, stored, request);
      FinalizeCache(WithRequest(p, id, request), id, stored, request);
    }
  }

  lemma DecisionCache(s: State, id: string, d: PeerDecision, stored: bool)
    ensures var r := ApplyDecision(s, id, d, stored); r.Some? ==> r.value.recentBegins == s.recentBegins
  {
    hide WithRequest, Finalize;
    if id in s.sessions {
      var request := s.sessions[id].request.(remoteConfirmed := d.localConfirmed);
      FinalizeCache(s, id, stored, request);
      FinalizeCache(s, id, stored, request.(state := Rejected));
      FinalizeCache(s, id, stored, request.(state := Confirming));
      FinalizeCache(WithRequest(s, id, request), id, stored, request);
    }
  }

  lemma ProofCache(s: State, c: Config, p: Proof, now: int, stored: bool)
    ensures var t := ReceiveProof(s, c, p, now, stored).0;
      t.recentBegins == s.recentBegins || t.recentBegins == Prune(s, now, c.ttl).recentBegins
  {
    hide Prune, Finalize, ProofValid, AfterAction;
    var q := Prune(s, now, c.ttl);
    if p.requestId in q.sessions {
      var r := ProofUpdate(q, p);
      FinalizeCache(r, p.requestId, true, r.sessions[p.requestId].request);
    }
  }

  lemma RejectCache(s: State, c: Config, id: string, now: int)
    ensures Reject(s, c, id, now).recentBegins == Prune(s, now, c.ttl).recentBegins
  {
    hide Prune;
  }

  predicate Later(t: Timed, began: int, ttl: int) {
    Reading(t.step).Some? && ttl < Reading(t.step).value - began
  }

  ghost predicate Outlived(run: seq<Timed>, began: int, ttl: int, i: nat, k: nat)
    requires i < k <= |run|
  {
    exists m :: i < m < k && Later(run[m], began, ttl)
  }

  // An admitted ID stays in the cache, with that time or a later one, until some
  // later call reads a clock more than a lifetime ahead or the process restarts.
  lemma {:induction false} CachedOrOutlived(c: Config, run: seq<Timed>, i: nat, k: nat)
    requires 0 < c.ttl && i < k <= |run| && AdmittedAt(c, run, i)
    ensures var (id, began) := (run[i].step.hello.body.requestId, run[i].step.now);
      Outlived(run, began, c.ttl, i, k) || RestartsBetween(run, i, k)
      || (id in StateAt(c, run, k).recentBegins && began <= StateAt(c, run, k).recentBegins[id])
  {
    hide AdmitBegin, Reading, KeptBegins, ValidProtocolTime;
    var (id, began) := (run[i].step.hello.body.requestId, run[i].step.now);
    if i + 1 == k {
      var a := run[i].step;
      AdmissionUsesCache(StateAt(c, run, i), c, a.hello, a.peer, a.host, a.now);
      assert StateAt(c, run, k) == AdmitBegin(StateAt(c, run, i), c, a.hello, a.peer, a.host, a.now).0;
    } else {
      CachedOrOutlived(c, run, i, k - 1);
      if Outlived(run, began, c.ttl, i, k - 1) {
        var m :| i < m < k - 1 && Later(run[m], began, c.ttl);
        assert Outlived(run, began, c.ttl, i, k);
      } else if RestartsBetween(run, i, k - 1) {
        var m :| i < m < k - 1 && run[m].step.Restarting?;
        assert RestartsBetween(run, i, k);
      } else if run[k - 1].step.Restarting? {
        assert RestartsBetween(run, i, k);
      } else if Later(run[k - 1], began, c.ttl) {
        assert Outlived(run, began, c.ttl, i, k);
      } else {
        hide Runs.Apply;
        StepRemembers(c, StateAt(c, run, k - 1), run[k - 1].step, id, began);
      }
    }
  }

  // A remembered ID is not admitted within its lifetime.
  lemma RememberedIsDeclined(s: State, c: Config, hello: SignedHello, peer: Option<Peer>, host: string, now: int,
      began: int)
    requires hello.body.requestId in s.recentBegins && began <= s.recentBegins[hello.body.requestId]
    requires now - began < c.ttl
    ensures !AdmitBegin(s, c, hello, peer, host, now).1.Admitted?
  {
    hide AdmitBegin, ValidProtocolTime;
    AdmissionUsesCache(s, c, hello, peer, host, now);
  }

  lemma TwiceNeedsTime(c: Config, run: seq<Timed>, stall: nat, gap: nat)
    requires 0 < c.ttl && TimelyRun(c, run, stall, gap) && OpenedTwice(c, run)
    ensures c.ttl < WINDOW || c.ttl - WINDOW + 1 < stall || gap < WINDOW
  {
    hide StateAt, Runs.Apply, AdmitBegin, ValidProtocolTime, Answers, Reading;
    var i, j, hello :| 0 <= i < j < |run| && Opens(c, run, i, hello) && Opens(c, run, j, hello);
    var a, b := run[i].step, run[j].step;
    assert TimelyStep(run[i], stall) && TimelyStep(run[j], stall);
    ReadingOfAdmit(a);
    ReadingOfAdmit(b);
    AdmissionUsesCache(StateAt(c, run, i), c, a.hello, a.peer, a.host, a.now);
    AdmissionUsesCache(StateAt(c, run, j), c, b.hello, b.peer, b.host, b.now);
    TimeGiven(hello.body.seconds, a.now);
    WindowWidth(hello.body.seconds.value, a.now, b.now);
    CachedOrOutlived(c, run, i, j);
    if RestartsBetween(run, i, j) {
      assert FarApart(run[i], run[j], gap);
    } else if Outlived(run, a.now, c.ttl, i, j) {
      var m :| i < m < j && Later(run[m], a.now, c.ttl);
      assert TimelyStep(run[m], stall) && run[m].lock <= run[j].lock;
    } else if WINDOW <= c.ttl {
      RememberedIsDeclined(StateAt(c, run, j), c, b.hello, b.peer, b.host, b.now, a.now);
    }
  }

  lemma TimeGiven(seconds: Option<int>, now: int)
    ensures ValidProtocolTime(seconds, now) ==> seconds.Some?
  {
  }

  lemma ReadingOfAdmit(step: Runs.Step)
    ensures step.Admit? ==> Reading(step) == Some(step.now)
  {
  }

  // --- the three ways to fail -----------------------------------------------------------

  function Plain(ttl: int): Config {
    Config(ttl, UuidShaped, key => key, _ => 0)
  }

  const FIRST_ID := SampleId('1')
  const SECOND_ID := SampleId('2')
  const DEVICE_ID := SampleId('3')
  const PEER := Peer(DEVICE_ID, "k", true)

  function Begin(id: string): SignedHello {
    Sign(Hello(PROTOCOL_VERSION, id, DEVICE_ID, "", "", "k", 0, Some(SKEW), ""))
  }

  function AdmitStep(id: string, host: string, now: int, lock: int): Timed {
    Timed(Runs.Admit(Begin(id), Some(PEER), host, now), lock)
  }

  function CompleteStep(id: string, now: int, lock: int): Timed {
    Timed(Runs.CompleteIncoming(Begin(id), Begin(id), now), lock)
  }

  lemma IdsShaped()
    ensures UuidShaped(FIRST_ID) && UuidShaped(SECOND_ID) && FIRST_ID != SECOND_ID && FIRST_ID != ""
  {
    hide UuidShaped, SampleId;
    SampleShaped('1');
    SampleShaped('2');
    assert FIRST_ID[35] != SECOND_ID[35];
  }

  lemma AtMostOne(m: map<string, Session>, only: string)
    requires m.Keys <= {only}
    ensures |m| <= 1
  {
    assert m.Keys == {} || m.Keys == {only};
  }

  // A begin is admitted by a service that trusts nobody, has at most one other
  // session, and does not remember it.
  lemma Admits(s: State, ttl: int, id: string, host: string, now: int, only: string)
    requires 0 <= now < WINDOW && s.trusted == map[] && UuidShaped(id)
    requires Prune(s, now, ttl).sessions.Keys <= {only} && only != id
    requires id in s.recentBegins ==> ttl <= now - s.recentBegins[id]
    requires host in s.lastBeginByHost ==> COOLDOWN <= now - s.lastBeginByHost[host]
    ensures var (t, r) := AdmitBegin(s, Plain(ttl), Begin(id), Some(PEER), host, now);
      && r.Admitted? && t.sessions == Prune(s, now, ttl).sessions && t.trusted == map[]
      && t.pendingByDevice == Prune(s, now, ttl).pendingByDevice
      && t.lastBeginByHost == s.lastBeginByHost[host := now]
      && t.recentBegins == KeptBegins(s.recentBegins, now, ttl)[id := now]
  {
    hide DeviceExpires, Expired, KeptBegins, UuidShaped, SampleId;
    SampleShaped('3');
    AtMostOne(Prune(s, now, ttl).sessions, only);
    PruneCache(s, now, ttl);
    NotKeptOrOld(s.recentBegins, id, now, ttl);
    AcceptedThen(now);
  }

  lemma AcceptedThen(now: int)
    requires 0 <= now < WINDOW
    ensures ValidProtocolTime(Some(SKEW), now)
  {
  }

  lemma NotKeptOrOld(recent: map<string, int>, id: string, now: int, ttl: int)
    requires id in recent ==> ttl <= now - recent[id]
    ensures !RecentlyBegun(KeptBegins(recent, now, ttl), id, now, ttl)
  {
  }

  function ShortRun(): seq<Timed> {
    [AdmitStep(FIRST_ID, "1", 0, 0), CompleteStep(FIRST_ID, 0, 0),
     AdmitStep(SECOND_ID, "2", 0, 0), CompleteStep(SECOND_ID, 0, 0),
     AdmitStep(FIRST_ID, "1", WINDOW - 1, WINDOW - 1), CompleteStep(FIRST_ID, WINDOW - 1, WINDOW - 1)]
  }

  function StallRun(ttl: int): seq<Timed> {
    [AdmitStep(FIRST_ID, "1", 0, 0), CompleteStep(FIRST_ID, 0, 0),
     Timed(Runs.List(ttl + 1), ttl + 1),
     AdmitStep(FIRST_ID, "1", WINDOW - 1, ttl + 1), CompleteStep(FIRST_ID, WINDOW - 1, ttl + 1)]
  }

  function RestartRun(): seq<Timed> {
    [AdmitStep(FIRST_ID, "1", 0, 0), CompleteStep(FIRST_ID, 0, 0),
     Timed(Runs.Restarting, 0),
     AdmitStep(FIRST_ID, "1", WINDOW - 1, WINDOW - 1), CompleteStep(FIRST_ID, WINDOW - 1, WINDOW - 1)]
  }

  // After the first begin is answered.
  lemma FirstOpened(ttl: int, run: seq<Timed>)
    requires 0 < ttl && 2 <= |run| && run[0] == AdmitStep(FIRST_ID, "1", 0, 0) && run[1] == CompleteStep(FIRST_ID, 0, 0)
    ensures Opens(Plain(ttl), run, 0, Begin(FIRST_ID))
    ensures var s := StateAt(Plain(ttl), run, 2);
      && s.sessions.Keys == {FIRST_ID} && s.sessions[FIRST_ID].request.expiresAt == ttl
      && s.sessions[FIRST_ID].request.deviceId == DEVICE_ID
      && s.pendingByDevice == map[DEVICE_ID := FIRST_ID]
      && s.recentBegins == map[FIRST_ID := 0] && s.lastBeginByHost == map["1" := 0] && s.trusted == map[]
  {
    hide UuidShaped, SampleId, AdmitBegin, Begin;
    IdsShaped();
    BeginsAs(FIRST_ID);
    Admits(FRESH_STATE, ttl, FIRST_ID, "1", 0, "");
    assert Prune(FRESH_STATE, 0, ttl) == FRESH_STATE;
    assert KeptBegins(map[], 0, ttl) == map[];
    assert StateAt(Plain(ttl), run, 0) == FRESH_STATE;
    assert StateAt(Plain(ttl), run, 1) == AdmitBegin(FRESH_STATE, Plain(ttl), Begin(FIRST_ID), Some(PEER), "1", 0).0;
  }

  lemma BeginsAs(id: string)
    ensures Begin(id).body.requestId == id && Begin(id).body.deviceId == DEVICE_ID && Begin(id).body.seconds == Some(SKEW)
  {
  }

  // A second begin of the device takes the first one's place.
  lemma SecondOpened(ttl: int)
    requires 0 < ttl
    ensures Opens(Plain(ttl), ShortRun(), 0, Begin(FIRST_ID)) && Opens(Plain(ttl), ShortRun(), 2, Begin(SECOND_ID))
    ensures var s := StateAt(Plain(ttl), ShortRun(), 4);
      && s.sessions.Keys == {SECOND_ID} && s.recentBegins == map[FIRST_ID := 0, SECOND_ID := 0]
      && s.lastBeginByHost == map["1" := 0, "2" := 0] && s.trusted == map[]
  {
    hide UuidShaped, SampleId, AdmitBegin, Begin, Prune;
    var run := ShortRun();
    FirstOpened(ttl, run);
    IdsShaped();
    BeginsAs(SECOND_ID);
    var s := StateAt(Plain(ttl), run, 2);
    NothingExpires(s, ttl);
    Admits(s, ttl, SECOND_ID, "2", 0, FIRST_ID);
    var t := AdmitBegin(s, Plain(ttl), Begin(SECOND_ID), Some(PEER), "2", 0).0;
    assert StateAt(Plain(ttl), run, 3) == t;
    assert StateAt(Plain(ttl), run, 4) == Replace(t, IncomingSession(Plain(ttl), Begin(SECOND_ID), Begin(SECOND_ID), 0));
  }

  lemma NothingExpires(s: State, ttl: int)
    requires 0 < ttl && s.sessions.Keys == {FIRST_ID} && s.sessions[FIRST_ID].request.expiresAt == ttl
    requires s.recentBegins == map[FIRST_ID := 0]
    ensures Prune(s, 0, ttl) == s
    ensures KeptBegins(s.recentBegins, 0, ttl) == s.recentBegins
  {
    assert forall id :: id in s.sessions ==> !Expired(s.sessions[id], 0);
    assert Prune(s, 0, ttl).pendingByDevice == s.pendingByDevice;
  }

  lemma ThirdOpened(ttl: int)
    requires 0 < ttl < WINDOW
    ensures Opens(Plain(ttl), ShortRun(), 4, Begin(FIRST_ID))
  {
    hide UuidShaped, SampleId, AdmitBegin, Begin, Prune;
    IdsShaped();
    BeginsAs(FIRST_ID);
    SecondOpened(ttl);
    var s := StateAt(Plain(ttl), ShortRun(), 4);
    PrunedKeys(s, WINDOW - 1, ttl);
    hide StateAt;
    Admits(s, ttl, FIRST_ID, "1", WINDOW - 1, SECOND_ID);
  }

  lemma PrunedKeys(s: State, now: int, ttl: int)
    ensures Prune(s, now, ttl).sessions.Keys <= s.sessions.Keys
  {
    hide DeviceExpires;
  }

  lemma ShortLifetimeReplays(ttl: int, stall: nat, gap: nat)
    requires 0 < ttl < WINDOW
    ensures TimelyRun(Plain(ttl), ShortRun(), stall, gap) && OpenedTwice(Plain(ttl), ShortRun())
  {
    SecondOpened(ttl);
    ThirdOpened(ttl);
    hide UuidShaped, SampleId, Opens, StateAt, Begin, Plain;
    ShortTimely(Plain(ttl), stall, gap);
  }

  lemma ShortTimely(c: Config, stall: nat, gap: nat)
    requires Opens(c, ShortRun(), 0, Begin(FIRST_ID)) && Opens(c, ShortRun(), 2, Begin(SECOND_ID))
    requires Opens(c, ShortRun(), 4, Begin(FIRST_ID))
    ensures TimelyRun(c, ShortRun(), stall, gap)
  {
    hide UuidShaped, SampleId, Opens, StateAt, Begin;
    BeginsAs(FIRST_ID);
    BeginsAs(SECOND_ID);
    var run := ShortRun();
    assert Answers(c, run, 1) && Answers(c, run, 3) && Answers(c, run, 5);
  }

  lemma StallReplays(ttl: int, stall: nat, gap: nat)
    requires WINDOW <= ttl && ttl - WINDOW + 1 < stall && SaneClock(ttl + 1)
    ensures TimelyRun(Plain(ttl), StallRun(ttl), stall, gap) && OpenedTwice(Plain(ttl), StallRun(ttl))
  {
    FirstOpened(ttl, StallRun(ttl));
    AgainAfterStall(ttl);
    hide UuidShaped, SampleId, Opens, StateAt, Begin, Plain;
    StallTimely(Plain(ttl), ttl, stall, gap);
  }

  lemma AgainAfterStall(ttl: int)
    requires WINDOW <= ttl
    ensures Opens(Plain(ttl), StallRun(ttl), 3, Begin(FIRST_ID))
  {
    hide UuidShaped, SampleId, AdmitBegin, Begin;
    FirstOpened(ttl, StallRun(ttl));
    IdsShaped();
    BeginsAs(FIRST_ID);
    var s := StateAt(Plain(ttl), StallRun(ttl), 2);
    assert StateAt(Plain(ttl), StallRun(ttl), 3) == Prune(s, ttl + 1, ttl);
    hide StateAt;
    AllExpired(s, ttl);
    Admits(Prune(s, ttl + 1, ttl), ttl, FIRST_ID, "1", WINDOW - 1, "");
  }

  lemma AllExpired(s: State, ttl: int)
    requires s.sessions.Keys == {FIRST_ID} && s.sessions[FIRST_ID].request.expiresAt == ttl
    requires s.recentBegins == map[FIRST_ID := 0]
    ensures var t := Prune(s, ttl + 1, ttl);
      t.recentBegins == map[] && t.sessions == map[] && t.trusted == s.trusted && t.lastBeginByHost == s.lastBeginByHost
    ensures Prune(Prune(s, ttl + 1, ttl), WINDOW - 1, ttl).sessions == map[]
  {
    hide DeviceExpires;
  }

  lemma StallTimely(c: Config, ttl: int, stall: nat, gap: nat)
    requires WINDOW <= ttl && ttl - WINDOW + 1 < stall && SaneClock(ttl + 1)
    requires Opens(c, StallRun(ttl), 0, Begin(FIRST_ID)) && Opens(c, StallRun(ttl), 3, Begin(FIRST_ID))
    ensures TimelyRun(c, StallRun(ttl), stall, gap)
  {
    hide UuidShaped, SampleId, Opens, StateAt, Begin;
    BeginsAs(FIRST_ID);
    assert Answers(c, StallRun(ttl), 1) && Answers(c, StallRun(ttl), 4);
  }

  lemma RestartReplays(ttl: int, stall: nat, gap: nat)
    requires 0 < ttl && gap < WINDOW
    ensures TimelyRun(Plain(ttl), RestartRun(), stall, gap) && OpenedTwice(Plain(ttl), RestartRun())
  {
    FirstOpened(ttl, RestartRun());
    AgainAfterRestart(ttl);
    hide UuidShaped, SampleId, Opens, StateAt, Begin, Plain;
    RestartTimely(Plain(ttl), stall, gap);
  }

  lemma AgainAfterRestart(ttl: int)
    requires 0 < ttl
    ensures Opens(Plain(ttl), RestartRun(), 3, Begin(FIRST_ID))
  {
    hide UuidShaped, SampleId, AdmitBegin, Begin, Prune;
    FirstOpened(ttl, RestartRun());
    IdsShaped();
    BeginsAs(FIRST_ID);
    var t := Runs.Restarted(StateAt(Plain(ttl), RestartRun(), 2));
    assert StateAt(Plain(ttl), RestartRun(), 3) == t;
    hide StateAt;
    PrunedKeys(t, WINDOW - 1, ttl);
    Admits(t, ttl, FIRST_ID, "1", WINDOW - 1, "");
  }

  lemma RestartTimely(c: Config, stall: nat, gap: nat)
    requires gap < WINDOW && Opens(c, RestartRun(), 0, Begin(FIRST_ID)) && Opens(c, RestartRun(), 3, Begin(FIRST_ID))
    ensures TimelyRun(c, RestartRun(), stall, gap)
  {
    hide UuidShaped, SampleId, Opens, StateAt, Begin;
    BeginsAs(FIRST_ID);
    assert Answers(c, RestartRun(), 1) && Answers(c, RestartRun(), 4);
  }

  // No signed begin opens two sessions, in any run of the service, exactly when a
  // request lives at least 241 seconds, no call waits longer than the rest of it
  // between reading the clock and taking the lock - 59 seconds and a nanosecond
  // for the default - and no process starts within 241 seconds of the last one.
  lemma BeginOnceIff(ttl: int, stall: nat, gap: nat)
    requires 0 < ttl && SaneClock(ttl + 1)
    ensures (forall c: Config, run :: c.ttl == ttl && TimelyRun(c, run, stall, gap) ==> !OpenedTwice(c, run))
            <==> WINDOW <= ttl && stall <= ttl - WINDOW + 1 && WINDOW <= gap
    ensures DEFAULT_TTL - WINDOW + 1 == 59 * SECOND + 1
  {
    hide TimelyRun, OpenedTwice, ShortRun, StallRun, RestartRun;
    if ttl < WINDOW {
      ShortLifetimeReplays(ttl, stall, gap);
    } else if ttl - WINDOW + 1 < stall {
      StallReplays(ttl, stall, gap);
    } else if gap < WINDOW {
      RestartReplays(ttl, stall, gap);
    } else {
      forall c: Config, run | c.ttl == ttl && TimelyRun(c, run, stall, gap) ensures !OpenedTwice(c, run) {
        if OpenedTwice(c, run) {
          TwiceNeedsTime(c, run, stall, gap);
        }
      }
    }
  }
}
