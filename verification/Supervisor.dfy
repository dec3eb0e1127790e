// The runtime supervisor: a loop that reads the settings twice, starts and stops
// the transfer and discovery services, and blocks on the coalesced change signal,
// the services' ends, and shutdown, while the settings change at any moment.
module Supervisor {
  import opened Results
  import opened Settings

  // The program counter, with the local variables that are live there.
  datatype Pc =
    | ReadingValues
    | ReadingAccepted(values: Values)
    | OnTransfers(values: Values, accepted: bool)
    | StoppingTransfers(values: Values, accepted: bool)
    | OnDiscovery(values: Values, accepted: bool)
    | StoppingDiscovery(values: Values, accepted: bool)
    | Blocked(values: Values, accepted: bool)
    | LeavingTransfers
    | LeavingDiscovery
    | Returned

  // One supervised service: the instance the loop holds a cancel function for,
  // and the goroutines whose done channel is still open.
  datatype Slot = Slot(held: Option<nat>, running: set<nat>)

  datatype World = World(
    store: Values, signalled: bool, shutdown: bool, pc: Pc,
    transfers: Slot, discovery: Slot, discoveryRunning: bool, instances: nat)

  datatype Service = Transfers | Discovery

  datatype Step =
    | WriteSettings(values: Values)
    | Shutdown
    | Exit(service: Service, instance: nat)
    | Advance            // the loop's next action, when there is only one
    | TakeChange | TakeShutdown | TakeEnd(service: Service)

  function Start(store: Values): World {
    World(store, false, false, ReadingValues, Slot(None, {}), Slot(None, {}), false, 0)
  }

  // The held instance's done channel is closed.
  predicate Ended(s: Slot) {
    s.held.Some? && s.held.value !in s.running
  }

  predicate MayClear(s: Slot) {
    s.held.Some? ==> Ended(s)
  }

  predicate Enabled(w: World, step: Step) {
    match step
    case WriteSettings(values) => true
    case Shutdown => true
    case Exit(service, i) => i in (if service.Transfers? then w.transfers else w.discovery).running
    case Advance =>
      (match w.pc
       case StoppingTransfers(_, _) => MayClear(w.transfers)
       case StoppingDiscovery(_, _) => MayClear(w.discovery)
       case LeavingTransfers => MayClear(w.transfers)
       case LeavingDiscovery => MayClear(w.discovery)
       case Blocked(_, _) => false
       case Returned => false
       case _ => true)
    case TakeChange => w.pc.Blocked? && w.signalled
    case TakeShutdown => w.pc.Blocked? && w.shutdown
    case TakeEnd(service) => w.pc.Blocked? && Ended(if service.Transfers? then w.transfers else w.discovery)
  }

  function Launch(s: Slot, i: nat): Slot {
    Slot(Some(i), s.running + {i})
  }

  function Cleared(s: Slot): Slot {
    s.(held := None)
  }

  function Advanced(w: World): World
    requires Enabled(w, Advance)
  {
    match w.pc
    case ReadingValues => w.(pc := ReadingAccepted(w.store))
    case ReadingAccepted(v) => w.(pc := OnTransfers(v, PrivacyAccepted(w.store)))
    case OnTransfers(v, a) =>
      if a && w.transfers.held.None?
      then w.(transfers := Launch(w.transfers, w.instances), instances := w.instances + 1, pc := OnDiscovery(v, a))
      else if !a then w.(pc := StoppingTransfers(v, a))
      else w.(pc := OnDiscovery(v, a))
    case StoppingTransfers(v, a) => w.(transfers := Cleared(w.transfers), pc := OnDiscovery(v, a))
    case OnDiscovery(v, a) =>
      if a && v.discoverable && w.discovery.held.None?
      then w.(discovery := Launch(w.discovery, w.instances), instances := w.instances + 1, discoveryRunning := true,
              pc := Blocked(v, a))
      else if (!a || !v.discoverable) && w.discovery.held.Some? then w.(pc := StoppingDiscovery(v, a))
      else w.(pc := Blocked(v, a))
    case StoppingDiscovery(v, a) => w.(discovery := Cleared(w.discovery), discoveryRunning := false, pc := Blocked(v, a))
    case LeavingTransfers => w.(transfers := Cleared(w.transfers), pc := LeavingDiscovery)
    case LeavingDiscovery => w.(discovery := Cleared(w.discovery), discoveryRunning := false, pc := Returned)
  }

  function Apply(w: World, step: Step): World
    requires Enabled(w, step)
  {
    match step
    case WriteSettings(values) => w.(store := values, signalled := true)
    case Shutdown => w.(shutdown := true)
    case Exit(service, i) =>
      if service.Transfers? then w.(transfers := w.transfers.(running := w.transfers.running - {i}))
      else w.(discovery := w.discovery.(running := w.discovery.running - {i}))
    case Advance => Advanced(w)
    case TakeChange => w.(signalled := false, pc := ReadingValues)
    case TakeShutdown => w.(pc := LeavingTransfers)
    case TakeEnd(service) =>
      if service.Transfers? then w.(transfers := Cleared(w.transfers), pc := ReadingValues)
      else w.(discovery := Cleared(w.discovery), discoveryRunning := false, pc := ReadingValues)
  }

  // --- invariants ----------------------------------------------------------------------

  // Whatever the loop has read is current, or the signal is pending.
  ghost predicate NoLostUpdate(w: World) {
    match w.pc
    case ReadingAccepted(v) => w.signalled || v == w.store
    case OnTransfers(v, a) => w.signalled || (v == w.store && a == PrivacyAccepted(w.store))
    case StoppingTransfers(v, a) => w.signalled || (v == w.store && a == PrivacyAccepted(w.store))
    case OnDiscovery(v, a) => w.signalled || (v == w.store && a == PrivacyAccepted(w.store))
    case StoppingDiscovery(v, a) => w.signalled || (v == w.store && a == PrivacyAccepted(w.store))
    case Blocked(v, a) => w.signalled || (v == w.store && a == PrivacyAccepted(w.store))
    case _ => true
  }

  ghost predicate SingleInstance(s: Slot) {
    forall i :: i in s.running ==> s.held == Some(i)
  }

  ghost predicate Obeys(w: World) {
    match w.pc
    case OnDiscovery(v, a) => w.transfers.held.Some? <==> a
    case StoppingTransfers(v, a) => !a
    case StoppingDiscovery(v, a) => (w.transfers.held.Some? <==> a) && !(a && v.discoverable)
    case Blocked(v, a) => (w.transfers.held.Some? <==> a) && (w.discovery.held.Some? <==> a && v.discoverable)
    case LeavingTransfers => w.shutdown
    case LeavingDiscovery => w.shutdown && w.transfers.held.None?
    case Returned => w.shutdown && w.transfers.held.None? && w.discovery.held.None?
    case _ => true
  }

  ghost predicate Inv(w: World) {
    && NoLostUpdate(w) && Obeys(w)
    && SingleInstance(w.transfers) && SingleInstance(w.discovery)
    && (w.discoveryRunning <==> w.discovery.held.Some?)
  }

  lemma AdvanceInv(w: World)
    requires Inv(w) && Enabled(w, Advance)
    ensures Inv(Advanced(w))
  {
    hide PrivacyAccepted;
  }

  lemma StepInv(w: World, step: Step)
    requires Inv(w) && Enabled(w, step)
    ensures Inv(Apply(w, step))
  {
    hide PrivacyAccepted, Advanced;
    if step.Advance? {
      AdvanceInv(w);
    }
  }

  ghost predicate Valid(w: World, steps: seq<Step>)
    decreases |steps|
  {
    steps == [] || (Enabled(w, steps[0]) && Valid(Apply(w, steps[0]), steps[1..]))
  }

  ghost function Run(w: World, steps: seq<Step>): World
    requires Valid(w, steps)
    decreases |steps|
  {
    if steps == [] then w else Run(Apply(w, steps[0]), steps[1..])
  }

  lemma {:induction false} RunInv(w: World, steps: seq<Step>)
    requires Inv(w) && Valid(w, steps)
    ensures Inv(Run(w, steps))
    decreases |steps|
  {
    hide Inv;
    if steps != [] {
      StepInv(w, steps[0]);
      RunInv(Apply(w, steps[0]), steps[1..]);
    }
  }

  // Blocked, and no case of the select is ready.
  predicate Quiet(w: World) {
    w.pc.Blocked? && !w.signalled && !w.shutdown && !Ended(w.transfers) && !Ended(w.discovery)
  }

  // In every run: at most one instance of each service exists, at any moment; and
  // whenever the supervisor is quiet it has acted on the current settings.
  lemma SupervisionHolds(store: Values, steps: seq<Step>)
    requires Valid(Start(store), steps)
    ensures var w := Run(Start(store), steps);
      && |w.transfers.running| <= 1 && |w.discovery.running| <= 1
      && (w.discovery.running != {} ==> w.discoveryRunning)
      && (Quiet(w) ==>
            && w.pc.values == w.store
            && (w.transfers.running != {} <==> PrivacyAccepted(w.store))
            && (w.discovery.running != {} <==> PrivacyAccepted(w.store) && w.store.discoverable)
            && (w.discoveryRunning <==> w.discovery.running != {}))
      && (w.pc.Returned? ==>
            w.shutdown && w.transfers.running == {} && w.discovery.running == {} && !w.discoveryRunning)
  {
    RunInv(Start(store), steps);
    hide Valid, Run, PrivacyAccepted;
    var w := Run(Start(store), steps);
    AtMostOne(w.transfers);
    AtMostOne(w.discovery);
  }

  lemma AtMostOne(s: Slot)
    requires SingleInstance(s)
    ensures |s.running| <= 1
    ensures s.running == {} || (s.held.Some? && s.running == {s.held.value})
    ensures s.held.Some? && !Ended(s) ==> s.running != {}
  {
    if s.running != {} {
      var i :| i in s.running;
      assert s.running == {i};
    }
  }

  // The supervisor waits for nothing but its select, or a service it has asked
  // to stop.
  lemma NeverStuck(w: World)
    requires Inv(w) && !Quiet(w) && !w.pc.Returned?
    ensures || Enabled(w, Advance) || Enabled(w, TakeChange) || Enabled(w, TakeShutdown)
            || Enabled(w, TakeEnd(Transfers)) || Enabled(w, TakeEnd(Discovery))
            || ((w.pc.StoppingTransfers? || w.pc.LeavingTransfers?) && w.transfers.running != {})
            || ((w.pc.StoppingDiscovery? || w.pc.LeavingDiscovery?) && w.discovery.running != {})
  {
    hide PrivacyAccepted;
    AtMostOne(w.transfers);
    AtMostOne(w.discovery);
  }

  // --- it settles -------------------------------------------------------------------------

  predicate Stopping(w: World, service: Service) {
    if service.Transfers? then w.pc.StoppingTransfers? || w.pc.LeavingTransfers?
    else w.pc.StoppingDiscovery? || w.pc.LeavingDiscovery?
  }

  // What happens when nobody writes settings or shuts down and no service ends but
  // the one that is being stopped.
  predicate Own(w: World, step: Step) {
    match step
    case WriteSettings(_) => false
    case Shutdown => false
    case Exit(service, _) => Stopping(w, service)
    case _ => true
  }

  ghost predicate OwnRun(w: World, steps: seq<Step>)
    decreases |steps|
  {
    steps == [] || (Own(w, steps[0]) && Enabled(w, steps[0]) && OwnRun(Apply(w, steps[0]), steps[1..]))
  }

  function Count(b: bool): nat {
    if b then 1 else 0
  }

  // What the select still has to take.
  function Pending(w: World): nat {
    Count(w.signalled)
    + Count(Ended(w.transfers) && !w.pc.StoppingTransfers? && !w.pc.LeavingTransfers? && !w.pc.LeavingDiscovery?)
    + Count(Ended(w.discovery) && !w.pc.StoppingDiscovery? && !w.pc.LeavingTransfers? && !w.pc.LeavingDiscovery?)
  }

  // How far the loop is from its select, or from its return.
  function Ahead(w: World): nat {
    match w.pc
    case ReadingValues => 13
    case ReadingAccepted(_) => 12
    case OnTransfers(_, _) => 11
    case StoppingTransfers(_, _) => 9 + Count(!MayClear(w.transfers))
    case OnDiscovery(_, _) => 8
    case StoppingDiscovery(_, _) => 6 + Count(!MayClear(w.discovery))
    case Blocked(_, _) => 5
    case LeavingTransfers => 3 + Count(!MayClear(w.transfers))
    case LeavingDiscovery => 1 + Count(!MayClear(w.discovery))
    case Returned => 0
  }

  function Rank(w: World): nat {
    14 * Pending(w) + Ahead(w)
  }

  lemma AdvanceComesNearer(w: World)
    requires Enabled(w, Advance)
    ensures Ahead(Advanced(w)) < Ahead(w)
    ensures Advanced(w).store == w.store && Advanced(w).shutdown == w.shutdown
  {
    hide PrivacyAccepted, MayClear, Launch, Cleared;
  }

  lemma AdvanceLeavesPending(w: World)
    requires Obeys(w) && Enabled(w, Advance)
    ensures Pending(Advanced(w)) <= Pending(w)
  {
    hide PrivacyAccepted, Ahead;
  }

  lemma OwnStepDescends(w: World, step: Step)
    requires Inv(w) && Own(w, step) && Enabled(w, step)
    ensures Rank(Apply(w, step)) < Rank(w)
    ensures Apply(w, step).store == w.store && Apply(w, step).shutdown == w.shutdown
  {
    hide Advanced, NoLostUpdate;
    if step.Advance? {
      AdvanceComesNearer(w);
      AdvanceLeavesPending(w);
    }
  }

  lemma {:induction false} OwnRunDescends(w: World, steps: seq<Step>)
    requires Inv(w) && OwnRun(w, steps)
    ensures Valid(w, steps) && Inv(Run(w, steps)) && |steps| + Rank(Run(w, steps)) <= Rank(w)
    ensures Run(w, steps).store == w.store && Run(w, steps).shutdown == w.shutdown
    decreases |steps|
  {
    hide Inv, Own, Enabled, Apply, Rank;
    if steps != [] {
      OwnStepDescends(w, steps[0]);
      StepInv(w, steps[0]);
      OwnRunDescends(Apply(w, steps[0]), steps[1..]);
    }
  }

  lemma OwnStepReady(w: World) returns (step: Step)
    requires Inv(w) && !Quiet(w) && !w.pc.Returned?
    ensures Own(w, step) && Enabled(w, step)
  {
    hide PrivacyAccepted, NoLostUpdate, Obeys;
    if Enabled(w, Advance) {
      step := Advance;
    } else if w.pc.Blocked? {
      step := if w.signalled then TakeChange else if w.shutdown then TakeShutdown
              else TakeEnd(if Ended(w.transfers) then Transfers else Discovery);
    } else {
      step := if Stopping(w, Transfers) then Exit(Transfers, w.transfers.held.value)
              else Exit(Discovery, w.discovery.held.value);
    }
  }

  // After any history, once it is left alone, the loop settles in at most 55 steps,
  // whichever ready case its select takes: as long as it has not, a step is ready,
  // and when it has, it has returned if there was a shutdown, and otherwise runs
  // what the settings say.
  lemma Settles(store: Values, past: seq<Step>, own: seq<Step>)
    requires Valid(Start(store), past) && OwnRun(Run(Start(store), past), own)
    ensures |own| <= 55 && Valid(Run(Start(store), past), own)
    ensures var (b, w) := (Run(Start(store), past), Run(Run(Start(store), past), own));
      && w.store == b.store
      && (w.pc.Returned? || Quiet(w) || exists step :: Own(w, step) && Enabled(w, step))
      && (|own| == 55 ==> w.pc.Returned? || Quiet(w))
      && (b.shutdown ==> !Quiet(w))
      && (Quiet(w) ==>
            && (w.transfers.running != {} <==> PrivacyAccepted(b.store))
            && (w.discovery.running != {} <==> PrivacyAccepted(b.store) && b.store.discoverable))
  {
    hide Inv, PrivacyAccepted, Own, Enabled, Apply;
    assert Inv(Start(store)) by { StartInv(store); }
    RunInv(Start(store), past);
    var b := Run(Start(store), past);
    OwnRunDescends(b, own);
    var w := Run(b, own);
    RankBounded(b);
    if !w.pc.Returned? && !Quiet(w) {
      var step := OwnStepReady(w);
      OwnStepDescends(w, step);
    } else if Quiet(w) {
      QuietObeys(w);
    }
  }

  lemma StartInv(store: Values)
    ensures Inv(Start(store))
  {
  }

  lemma RankBounded(w: World)
    ensures Rank(w) <= 55
  {
  }

  lemma QuietObeys(w: World)
    requires Inv(w) && Quiet(w)
    ensures w.transfers.running != {} <==> PrivacyAccepted(w.store)
    ensures w.discovery.running != {} <==> PrivacyAccepted(w.store) && w.store.discoverable
  {
    hide PrivacyAccepted;
    AtMostOne(w.transfers);
    AtMostOne(w.discovery);
  }

  // So the last write counts, and a shutdown ends it: whenever they came, the loop
  // comes to rest as they say.
  lemma ComesToRest(store: Values, past: seq<Step>, values: Values, own: seq<Step>, later: seq<Step>)
    requires Valid(Start(store), past)
    requires OwnRun(Apply(Run(Start(store), past), WriteSettings(values)), own)
    requires OwnRun(Apply(Run(Start(store), past), Shutdown), later)
    ensures Valid(Apply(Run(Start(store), past), WriteSettings(values)), own)
    ensures var w := Run(Apply(Run(Start(store), past), WriteSettings(values)), own);
      && w.store == values
      && (Quiet(w) ==>
            && (w.transfers.running != {} <==> PrivacyAccepted(values))
            && (w.discovery.running != {} <==> PrivacyAccepted(values) && values.discoverable))
    ensures Valid(Apply(Run(Start(store), past), Shutdown), later)
    ensures !Quiet(Run(Apply(Run(Start(store), past), Shutdown), later))
  {
    hide PrivacyAccepted;
    StartInv(store);
    RunInv(Start(store), past);
    var b := Run(Start(store), past);
    var (written, stopped) := (Apply(b, WriteSettings(values)), Apply(b, Shutdown));
    StepInv(b, WriteSettings(values));
    StepInv(b, Shutdown);
    OwnRunDescends(written, own);
    OwnRunDescends(stopped, later);
    var w := Run(written, own);
    if Quiet(w) {
      QuietObeys(w);
    }
  }
}
