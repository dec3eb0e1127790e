// The sender's goroutines on one outbound transfer: dispatch starts them, their
// store writes fail once their context is cancelled, and after an error each
// reads the record back and marks it failed unless it was paused or cancelled.
module Outbound {
  import opened Results
  import opened Transfers
  import opened Lifecycle
  import D = Dispatch

  datatype Worker =
    | Running(stage: nat)  // how many of STAGES are behind it
    | Leaving(quiet: bool) // returned; quiet: without an error, or with context.Canceled
    | Unread               // unregistered, about to read the record
    | Failing              // has read it and will mark it failed
    | Gone

  // The statuses a worker stores on its way; the first only for a transfer that has
  // no files yet.
  const STAGES: seq<Status> := [Preparing, Connecting, Negotiating, Sending]

  datatype World = World(stored: Transfer, active: Option<nat>, cancelled: set<nat>, workers: map<nat, Worker>)

  datatype WorkerStep =
    | Write(tid: nat, now: int)
    | Complete(tid: nat, now: int)
    | Leave(tid: nat, quiet: bool)
    | Unregister(tid: nat)
    | ReadBack(tid: nat)
    | FailNow(tid: nat, message: string, now: int)

  predicate Is(w: World, tid: nat, worker: Worker) {
    tid in w.workers && w.workers[tid] == worker
  }

  predicate Runs(w: World, tid: nat) {
    tid in w.workers && w.workers[tid].Running?
  }

  predicate Enabled(w: World, step: WorkerStep) {
    match step
    case Write(tid, _) => Runs(w, tid) && tid !in w.cancelled && w.workers[tid].stage < |STAGES|
    case Complete(tid, _) => Runs(w, tid) && tid !in w.cancelled && |STAGES| <= w.workers[tid].stage
    case Leave(tid, quiet) => Runs(w, tid) && (quiet ==> tid in w.cancelled)
    case Unregister(tid) => tid in w.workers && w.workers[tid].Leaving?
    case ReadBack(tid) => Is(w, tid, Unread)
    case FailNow(tid, _, _) => Is(w, tid, Failing)
  }

  function Apply(w: World, step: WorkerStep): World
    requires Enabled(w, step)
  {
    match step
    case Write(tid, now) =>
      var stage := w.workers[tid].stage;
      w.(stored := w.stored.(status := STAGES[stage], updatedAt := now), workers := w.workers[tid := Running(stage + 1)])
    case Complete(tid, now) =>
      w.(stored := Finished(w.stored.(progress := w.stored.size), Completed, "", now),
         workers := w.workers[tid := Leaving(true)])
    case Leave(tid, quiet) => w.(workers := w.workers[tid := Leaving(quiet)])
    // delete(s.active, id), whoever is registered
    case Unregister(tid) =>
      w.(active := None, workers := w.workers[tid := if w.workers[tid].quiet then Gone else Unread])
    case ReadBack(tid) =>
      var over := w.stored.status.Paused? || w.stored.status.Cancelled?;
      w.(workers := w.workers[tid := if over then Gone else Failing])
    case FailNow(tid, message, now) =>
      w.(stored := Finished(w.stored, Status.Failed, message, now), workers := w.workers[tid := Gone])
  }

  // A call by the user. Pause and Cancel end the registered worker's context, Cancel
  // even when it is then refused.
  function Asked(w: World, call: Call, now: int): World {
    var next := Called(w.stored, call, now);
    var ends := call.Cancel? || (call.Pause? && next.Some?);
    w.(stored := if next.Some? then next.value else w.stored,
       cancelled := if ends && w.active.Some? then w.cancelled + {w.active.value} else w.cancelled)
  }

  predicate Valid(w: World, steps: seq<WorkerStep>)
    decreases |steps|
  {
    steps == [] || (Enabled(w, steps[0]) && Valid(Apply(w, steps[0]), steps[1..]))
  }

  function Run(w: World, steps: seq<WorkerStep>): World
    requires Valid(w, steps)
    decreases |steps|
  {
    if steps == [] then w else Run(Apply(w, steps[0]), steps[1..])
  }

  // Every running worker can be stopped through the active map or already has
  // been, and none has read the record and is about to fail it.
  ghost predicate Stoppable(w: World) {
    && (forall tid :: Runs(w, tid) ==> tid in w.cancelled || w.active == Some(tid))
    && (forall tid :: !Is(w, tid, Failing))
  }

  ghost predicate Harmless(w: World) {
    && w.stored.status in {Paused, Cancelled}
    && (forall tid :: Runs(w, tid) ==> tid in w.cancelled)
    && (forall tid :: !Is(w, tid, Failing))
  }

  lemma {:induction false} HarmlessStays(w: World, steps: seq<WorkerStep>)
    requires Harmless(w) && Valid(w, steps)
    ensures Run(w, steps).stored == w.stored
    decreases |steps|
  {
    if steps != [] {
      var after := Apply(w, steps[0]);
      forall tid ensures (Runs(after, tid) ==> tid in after.cancelled) && !Is(after, tid, Failing) {
        assert Runs(after, tid) ==> Runs(w, tid);
        assert !Is(w, tid, Failing);
      }
      HarmlessStays(after, steps[1..]);
    }
  }

  lemma Escapes(w: World, d: World) returns (step: WorkerStep)
    requires !Stoppable(w) && d.workers == w.workers && d.stored.status in {Paused, Cancelled}
    requires d.cancelled == if w.active.Some? then w.cancelled + {w.active.value} else w.cancelled
    ensures Enabled(d, step) && Apply(d, step).stored.status != d.stored.status
  {
    if tid :| Is(w, tid, Failing) {
      step := FailNow(tid, "", 0);
    } else {
      var tid :| Runs(w, tid) && tid !in w.cancelled && w.active != Some(tid);
      step := if w.workers[tid].stage < |STAGES| then Write(tid, 0) else Complete(tid, 0);
    }
  }

  // A pause or cancellation, with the whole record as it left it, outlives everything
  // the transfer's workers may still do exactly when at that moment they were all
  // stoppable.
  lemma DecisionHoldsIff(w: World, call: Call, now: int)
    requires call in {Call.Pause, Call.Cancel} && Called(w.stored, call, now).Some?
    ensures var d := Asked(w, call, now);
      && d.stored.status == (if call.Pause? then Paused else Cancelled)
      && ((forall steps :: Valid(d, steps) ==> Run(d, steps).stored == d.stored) <==> Stoppable(w))
  {
    var d := Asked(w, call, now);
    if Stoppable(w) {
      assert Harmless(d) by {
        forall tid ensures (Runs(d, tid) ==> tid in d.cancelled) && !Is(d, tid, Failing) {
          assert (Runs(d, tid) <==> Runs(w, tid)) && (Is(d, tid, Failing) <==> Is(w, tid, Failing));
        }
      }
      forall steps | Valid(d, steps) ensures Run(d, steps).stored == d.stored {
        HarmlessStays(d, steps);
      }
    } else {
      var step := Escapes(w, d);
      OneStep(d, step);
    }
  }

  lemma OneStep(w: World, step: WorkerStep)
    requires Enabled(w, step)
    ensures Valid(w, [step]) && Run(w, [step]) == Apply(w, step)
  {
    assert [step][1..] == [];
    assert Run(Apply(w, step), []) == Apply(w, step);
  }

  // --- when workers are stoppable ---------------------------------------------------

  datatype Step =
    | Work(step: WorkerStep)
    | Dispatch(tid: nat)
    | Ask(call: Call, now: int)

  predicate Live(w: World, tid: nat) {
    tid in w.workers && !w.workers[tid].Gone?
  }

  predicate StepEnabled(w: World, step: Step) {
    match step
    case Work(s) => Enabled(w, s)
    case Dispatch(tid) => tid !in w.workers && D.Eligible(w.stored)
    case Ask(call, _) => call in {Call.Pause, Call.Resume, Call.Cancel, Call.Retry}
  }

  function Dispatched(w: World, tid: nat): World {
    w.(active := Some(tid), workers := w.workers[tid := Running(if w.stored.files == [] then 0 else 1)])
  }

  function StepApply(w: World, step: Step): World
    requires StepEnabled(w, step)
  {
    match step
    case Work(s) => Apply(w, s)
    case Dispatch(tid) => Dispatched(w, tid)
    case Ask(call, now) => Asked(w, call, now)
  }

  // One worker at a time: a dispatch happens only when none is alive.
  ghost predicate OneAtATime(w: World, step: Step) {
    step.Dispatch? ==> forall tid :: !Live(w, tid)
  }

  ghost predicate Registered(w: World) {
    && (forall a, b :: Live(w, a) && Live(w, b) ==> a == b)
    && (forall tid: nat :: Runs(w, tid) ==> w.active == Some(tid))
  }

  lemma StepRegistered(w: World, step: Step)
    requires Registered(w) && StepEnabled(w, step) && OneAtATime(w, step)
    ensures Registered(StepApply(w, step))
  {
    hide Called, D.Eligible;
    var after := StepApply(w, step);
    forall a: nat, b: nat | Live(after, a) && Live(after, b) ensures a == b {
      assert step.Dispatch? || (Live(w, a) && Live(w, b));
      assert step.Dispatch? ==> a == step.tid || Live(w, a);
      assert step.Dispatch? ==> b == step.tid || Live(w, b);
    }
    forall tid: nat | Runs(after, tid) ensures after.active == Some(tid) {
      assert Runs(w, tid) || (step.Dispatch? && tid == step.tid);
      assert Runs(w, tid) ==> Live(w, tid);
      assert step.Work? && step.step.Unregister? ==> Live(w, step.step.tid);
    }
  }

  ghost predicate Disciplined(w: World, steps: seq<Step>)
    decreases |steps|
  {
    steps == []
    || (StepEnabled(w, steps[0]) && OneAtATime(w, steps[0]) && Disciplined(StepApply(w, steps[0]), steps[1..]))
  }

  ghost function RunAll(w: World, steps: seq<Step>): World
    requires Disciplined(w, steps)
    decreases |steps|
  {
    if steps == [] then w else RunAll(StepApply(w, steps[0]), steps[1..])
  }

  // While a transfer has one worker at a time, a pause can only be lost to a
  // worker that has already read the record in order to fail it.
  lemma {:induction false} OneWorkerIsStoppable(w: World, steps: seq<Step>)
    requires Registered(w) && Disciplined(w, steps)
    ensures Stoppable(RunAll(w, steps)) <==> forall tid :: !Is(RunAll(w, steps), tid, Failing)
    decreases |steps|
  {
    hide StepEnabled, StepApply, OneAtATime;
    if steps != [] {
      StepRegistered(w, steps[0]);
      OneWorkerIsStoppable(StepApply(w, steps[0]), steps[1..]);
    }
  }

  // With a second worker that is lost: the first one's exit unregisters the
  // second, which no pause can stop afterwards.
  lemma ExitUnregistersOthers(w: World, first: nat, second: nat)
    requires Enabled(w, Unregister(first)) && Runs(w, second) && second !in w.cancelled
    ensures !Stoppable(Apply(w, Unregister(first)))
  {
    assert Runs(Apply(w, Unregister(first)), second);
  }

  // --- no transfer is left hanging ----------------------------------------------------

  // The one worker of a transfer nobody has paused or cancelled.
  ghost predicate OnItsWay(w: World, tid: nat) {
    && tid in w.workers && tid !in w.cancelled && (forall other :: Live(w, other) ==> other == tid)
    && w.stored.direction == Outbound && w.stored.status !in {Paused, Cancelled}
    && match w.workers[tid]
       case Running(stage) =>
         (0 < stage && w.stored.status == STAGES[if stage < 4 then stage - 1 else 3])
         || (stage < 2 && w.stored.status in {Queued, Resuming})
       case Leaving(quiet) => quiet ==> w.stored.status == Completed
       case Gone => w.stored.status in {Completed, Status.Failed} && w.active == None
       case _ => w.active == None
  }

  // An upper bound on what it still has to do.
  function Left(worker: Worker): nat {
    match worker
    case Running(stage) => if stage < 4 then 9 - stage else 5
    case Leaving(_) => 4
    case Unread => 2
    case Failing => 1
    case Gone => 0
  }

  // It goes through its statuses in order, and completes only out of Sending.
  predicate InOrder(from: Status, to: Status) {
    || to == from || to == Status.Failed
    || (from in {Queued, Resuming} && to in {Preparing, Connecting})
    || (from == Preparing && to == Connecting)
    || (from == Connecting && to == Negotiating)
    || (from == Negotiating && to == Sending)
    || (from == Sending && to == Completed)
  }

  lemma StepOnItsWay(w: World, tid: nat, step: WorkerStep)
    requires OnItsWay(w, tid) && Enabled(w, step)
    ensures OnItsWay(Apply(w, step), tid) && InOrder(w.stored.status, Apply(w, step).stored.status)
    ensures Left(Apply(w, step).workers[tid]) < Left(w.workers[tid])
  {
    assert Live(w, step.tid);
    forall other | Live(Apply(w, step), other) ensures other == tid {
      assert Live(w, other);
    }
  }

  // A dispatched transfer that nobody stops passes through the statuses of its
  // stages and ends, within nine steps of its worker, Completed or Failed, with its
  // place in the active set free again: as long as it has not, its worker can go on.
  lemma {:induction false} NeverLeftHanging(w: World, tid: nat, steps: seq<WorkerStep>)
    requires OnItsWay(w, tid) && Valid(w, steps)
    ensures var r := Run(w, steps);
      && OnItsWay(r, tid) && |steps| + Left(r.workers[tid]) <= Left(w.workers[tid]) <= 9
      && (r.workers[tid] != Gone ==> exists step :: Enabled(r, step) && step.tid == tid)
      && (r.workers[tid] == Gone ==> r.stored.status in {Completed, Status.Failed} && r.active == None)
    decreases |steps|
  {
    hide Valid, Run;
    if steps == [] {
      assert Run(w, []) == w by { NoSteps(w); }
      if w.workers[tid] != Gone {
        var step := NextStep(w, tid);
      }
    } else {
      FirstOf(w, steps);
      StepOnItsWay(w, tid, steps[0]);
      NeverLeftHanging(Apply(w, steps[0]), tid, steps[1..]);
    }
  }

  lemma NoSteps(w: World)
    ensures Valid(w, []) && Run(w, []) == w
  {
  }

  lemma FirstOf(w: World, steps: seq<WorkerStep>)
    requires steps != [] && Valid(w, steps)
    ensures Enabled(w, steps[0]) && Valid(Apply(w, steps[0]), steps[1..])
    ensures Run(w, steps) == Run(Apply(w, steps[0]), steps[1..])
  {
  }

  lemma NextStep(w: World, tid: nat) returns (step: WorkerStep)
    requires OnItsWay(w, tid) && w.workers[tid] != Gone
    ensures Enabled(w, step) && step.tid == tid
  {
    match w.workers[tid]
    case Running(stage) => step := Leave(tid, false);
    case Leaving(_) => step := Unregister(tid);
    case Unread => step := ReadBack(tid);
    case Failing => step := FailNow(tid, "", 0);
  }

  // A transfer that has no files yet is prepared first.
  lemma FirstStage(w: World, tid: nat, now: int)
    requires StepEnabled(w, Dispatch(tid)) && tid !in w.cancelled
    ensures Enabled(Dispatched(w, tid), Write(tid, now))
    ensures Apply(Dispatched(w, tid), Write(tid, now)).stored
            == w.stored.(status := if |w.stored.files| == 0 then Preparing else Connecting, updatedAt := now)
  {
  }

  // A pause that is granted and any cancellation stop the registered worker; nothing
  // else stops anybody.
  lemma WhoIsStopped(w: World, call: Call, now: int, tid: nat)
    ensures tid in Asked(w, call, now).cancelled <==>
      || tid in w.cancelled
      || (w.active == Some(tid) && (call == Call.Cancel || (call == Call.Pause && w.stored.status in ACTIVE)))
  {
  }

  lemma DispatchedIsOnItsWay(w: World, tid: nat)
    requires StepEnabled(w, Dispatch(tid)) && (forall other :: !Live(w, other)) && tid !in w.cancelled
    ensures OnItsWay(Dispatched(w, tid), tid)
  {
    forall other | Live(Dispatched(w, tid), other) ensures other == tid {
      assert !Live(w, other);
    }
  }

  // It can complete, with all of its size, and it can fail, with its error, after
  // which a retry puts it back into the line.
  lemma {:induction false} CanComplete(w: World, tid: nat, now: int) returns (steps: seq<WorkerStep>)
    requires OnItsWay(w, tid) && w.workers[tid].Running?
    ensures Valid(w, steps) && Run(w, steps).workers[tid := Gone] == Run(w, steps).workers
    ensures Run(w, steps).stored.status == Completed && Run(w, steps).stored.progress == w.stored.size
    ensures Run(w, steps).stored.finishedAt == Some(now) && Run(w, steps).stored.error == ""
    decreases Left(w.workers[tid])
  {
    var step := if w.workers[tid].stage < |STAGES| then Write(tid, now) else Complete(tid, now);
    StepOnItsWay(w, tid, step);
    var after := Apply(w, step);
    var rest: seq<WorkerStep>;
    if step.Write? {
      rest := CanComplete(after, tid, now);
    } else {
      OneStep(after, Unregister(tid));
      rest := [Unregister(tid)];
    }
    steps := [step] + rest;
    assert steps[1..] == rest;
  }

  lemma CanFail(w: World, tid: nat, message: string, now: int, later: int) returns (steps: seq<WorkerStep>)
    requires OnItsWay(w, tid) && w.workers[tid].Running?
    ensures Valid(w, steps) && Run(w, steps).stored == Finished(w.stored, Status.Failed, message, now)
    ensures Run(w, steps).workers == w.workers[tid := Gone]
    ensures D.Eligible(Asked(Run(w, steps), Call.Retry, later).stored)
  {
    var a := Apply(w, Leave(tid, false));
    var b := Apply(a, Unregister(tid));
    var c := Apply(b, ReadBack(tid));
    OneStep(c, FailNow(tid, message, now));
    steps := [FailNow(tid, message, now)];
    Before(b, ReadBack(tid), steps);
    steps := [ReadBack(tid)] + steps;
    Before(a, Unregister(tid), steps);
    steps := [Unregister(tid)] + steps;
    Before(w, Leave(tid, false), steps);
    steps := [Leave(tid, false)] + steps;
  }

  lemma Before(w: World, step: WorkerStep, rest: seq<WorkerStep>)
    requires Enabled(w, step) && Valid(Apply(w, step), rest)
    ensures Valid(w, [step] + rest) && Run(w, [step] + rest) == Run(Apply(w, step), rest)
  {
    assert ([step] + rest)[1..] == rest;
  }
}
