// The sender's bounded worker pool: an enqueuer feeding a channel of twice the
// worker count, workers that send and record chunks, and cancellation on the
// first error. Every interleaving of its goroutines is a sequence of steps.
module WorkerPool {
  import opened Chunking

  datatype Worker = Idle | Sending(task: Part) | Recording(task: Part) | Quit

  datatype Phase = Enqueuing | Waiting | Failed | Completing

  datatype Pool = Pool(
    tasks: seq<Part>,      // the chunks absent from the resume map, in order
    next: nat,             // how many of them have been enumerated
    queue: seq<Part>,
    workers: seq<Worker>,
    acknowledged: multiset<Part>,
    dropped: multiset<Part>,
    firstErr: bool,
    workerCancelled: bool,
    parentCancelled: bool,
    phase: Phase)

  datatype Step =
    | Enqueue | BreakOff | Close
    | Take(w: nat) | SendOk(w: nat) | SendFails(w: nat) | RecordOk(w: nat) | RecordFails(w: nat) | Leave(w: nat)
    | CancelParent
    | Return

  function Start(tasks: seq<Part>, workers: nat): Pool {
    Pool(tasks, 0, [], seq(workers, _ => Idle), multiset{}, multiset{}, false, false, false, Enqueuing)
  }

  predicate ContextDone(p: Pool) {
    p.workerCancelled || p.parentCancelled
  }

  predicate AllQuit(p: Pool) {
    forall w :: 0 <= w < |p.workers| ==> p.workers[w].Quit?
  }

  predicate Enabled(p: Pool, s: Step) {
    match s
    case Enqueue => p.phase.Enqueuing? && p.next < |p.tasks| && |p.queue| < 2 * |p.workers|
    case BreakOff => p.phase.Enqueuing? && p.next < |p.tasks| && ContextDone(p)
    case Close => p.phase.Enqueuing? && p.next == |p.tasks|
    case Take(w) => w < |p.workers| && p.workers[w].Idle? && p.queue != []
    case SendOk(w) => w < |p.workers| && p.workers[w].Sending?
    case SendFails(w) => w < |p.workers| && p.workers[w].Sending?
    case RecordOk(w) => w < |p.workers| && p.workers[w].Recording?
    case RecordFails(w) => w < |p.workers| && p.workers[w].Recording?
    case Leave(w) => w < |p.workers| && p.workers[w].Idle? && p.queue == [] && !p.phase.Enqueuing?
    case CancelParent => !p.parentCancelled
    case Return => p.phase.Waiting? && AllQuit(p)
  }

  function Fail(p: Pool, w: nat, task: Part): Pool
    requires w < |p.workers|
  {
    p.(workers := p.workers[w := Quit], dropped := p.dropped + multiset{task}, firstErr := true, workerCancelled := true)
  }

  function Apply(p: Pool, s: Step): Pool
    requires Enabled(p, s)
  {
    match s
    case Enqueue => p.(queue := p.queue + [p.tasks[p.next]], next := p.next + 1)
    case BreakOff => p.(phase := Waiting)
    case Close => p.(phase := Waiting)
    case Take(w) => p.(workers := p.workers[w := Sending(p.queue[0])], queue := p.queue[1..])
    case SendOk(w) => p.(workers := p.workers[w := Recording(p.workers[w].task)])
    case SendFails(w) => Fail(p, w, p.workers[w].task)
    case RecordOk(w) =>
      p.(workers := p.workers[w := Idle], acknowledged := p.acknowledged + multiset{p.workers[w].task})
    case RecordFails(w) => Fail(p, w, p.workers[w].task)
    case Leave(w) => p.(workers := p.workers[w := Quit])
    case CancelParent => p.(parentCancelled := true)
    case Return => p.(phase := if p.firstErr || p.parentCancelled then Failed else Completing)
  }

  // --- conservation -----------------------------------------------------------

  function Held(w: Worker, t: Part): nat {
    if (w.Sending? || w.Recording?) && w.task == t then 1 else 0
  }

  // How many workers hold the task.
  function InFlight(workers: seq<Worker>, t: Part): nat {
    if workers == [] then 0 else Held(workers[0], t) + InFlight(workers[1..], t)
  }

  lemma {:induction false} InFlightUpdate(workers: seq<Worker>, w: nat, now: Worker, t: Part)
    requires w < |workers|
    ensures InFlight(workers[w := now], t) + Held(workers[w], t) == InFlight(workers, t) + Held(now, t)
  {
    if w == 0 {
      assert workers[0 := now][1..] == workers[1..];
    } else {
      InFlightUpdate(workers[1..], w - 1, now, t);
      assert workers[w := now][1..] == workers[1..][w - 1 := now];
    }
  }

  // Every enumeration of t is accounted for.
  ghost predicate ConservedFor(p: Pool, t: Part)
    requires p.next <= |p.tasks|
  {
    multiset(p.tasks[..p.next])[t]
    == multiset(p.queue)[t] + InFlight(p.workers, t) + p.acknowledged[t] + p.dropped[t]
  }

  ghost predicate Conserved(p: Pool) {
    p.next <= |p.tasks| && forall t :: ConservedFor(p, t)
  }

  ghost predicate SomeQuit(p: Pool) {
    exists w :: 0 <= w < |p.workers| && p.workers[w].Quit?
  }

  ghost predicate ErrorsAgree(p: Pool) {
    (p.firstErr <==> p.workerCancelled) && (p.firstErr <==> p.dropped != multiset{})
  }

  ghost predicate PhasesAgree(p: Pool) {
    && (p.phase.Enqueuing? && SomeQuit(p) ==> p.firstErr)
    && (!p.phase.Enqueuing? && p.next < |p.tasks| ==> ContextDone(p))
    && (!p.phase.Enqueuing? && SomeQuit(p) && !p.firstErr ==> p.queue == [])
    && (p.phase.Completing? ==> AllQuit(p) && !p.firstErr && p.next == |p.tasks| && p.queue == [])
  }

  ghost predicate Inv(p: Pool) {
    |p.workers| > 0 && |p.queue| <= 2 * |p.workers| && Conserved(p) && ErrorsAgree(p) && PhasesAgree(p)
  }

  lemma StartInv(tasks: seq<Part>, workers: nat)
    requires workers > 0
    ensures Inv(Start(tasks, workers))
  {
    var p := Start(tasks, workers);
    forall t ensures ConservedFor(p, t) {
      NoneInFlight(p.workers, t);
      assert p.tasks[..0] == [];
    }
  }

  lemma {:induction false} NoneInFlight(workers: seq<Worker>, t: Part)
    requires forall w :: 0 <= w < |workers| ==> workers[w].Idle? || workers[w].Quit?
    ensures InFlight(workers, t) == 0
  {
    if workers != [] {
      NoneInFlight(workers[1..], t);
    }
  }

  lemma EnqueueConserves(p: Pool, t: Part)
    requires p.next <= |p.tasks| && ConservedFor(p, t) && Enabled(p, Enqueue)
    ensures ConservedFor(Apply(p, Enqueue), t)
  {
    assert p.tasks[..p.next + 1] == p.tasks[..p.next] + [p.tasks[p.next]];
  }

  lemma TakeConserves(p: Pool, w: nat, t: Part)
    requires p.next <= |p.tasks| && ConservedFor(p, t) && Enabled(p, Take(w))
    ensures ConservedFor(Apply(p, Take(w)), t)
  {
    InFlightUpdate(p.workers, w, Sending(p.queue[0]), t);
    assert p.queue == [p.queue[0]] + p.queue[1..];
    assert multiset(p.queue)[t] == multiset([p.queue[0]])[t] + multiset(p.queue[1..])[t];
  }

  // One worker's change balances against the two outcomes.
  lemma Balance(p: Pool, after: Pool, w: nat, t: Part)
    requires p.next <= |p.tasks| && ConservedFor(p, t) && w < |p.workers| == |after.workers|
    requires after.tasks == p.tasks && after.next == p.next && after.queue == p.queue
    requires after.workers == p.workers[w := after.workers[w]]
    requires after.acknowledged[t] + after.dropped[t] + Held(after.workers[w], t)
             == p.acknowledged[t] + p.dropped[t] + Held(p.workers[w], t)
    ensures ConservedFor(after, t)
  {
    InFlightUpdate(p.workers, w, after.workers[w], t);
  }

  lemma StepConservesFor(p: Pool, s: Step, t: Part)
    requires p.next <= |p.tasks| && ConservedFor(p, t) && Enabled(p, s)
    ensures Apply(p, s).next <= |p.tasks| && ConservedFor(Apply(p, s), t)
  {
    match s
    case Enqueue => EnqueueConserves(p, t);
    case Take(w) => TakeConserves(p, w, t);
    case SendOk(w) => Balance(p, Apply(p, s), w, t);
    case SendFails(w) => Balance(p, Apply(p, s), w, t);
    case RecordOk(w) => Balance(p, Apply(p, s), w, t);
    case RecordFails(w) => Balance(p, Apply(p, s), w, t);
    case Leave(w) => Balance(p, Apply(p, s), w, t);
    case BreakOff =>
    case Close =>
    case CancelParent =>
    case Return =>
  }

  lemma StepConserves(p: Pool, s: Step)
    requires Conserved(p) && Enabled(p, s)
    ensures Conserved(Apply(p, s))
  {
    forall t ensures Apply(p, s).next <= |p.tasks| && ConservedFor(Apply(p, s), t) {
      StepConservesFor(p, s, t);
    }
  }

  lemma QuitStays(p: Pool, s: Step)
    requires Enabled(p, s)
    ensures SomeQuit(Apply(p, s)) ==> SomeQuit(p) || s.SendFails? || s.RecordFails? || s.Leave?
  {
    if SomeQuit(Apply(p, s)) {
      var w :| 0 <= w < |p.workers| && Apply(p, s).workers[w].Quit?;
    }
  }

  lemma StepErrors(p: Pool, s: Step)
    requires ErrorsAgree(p) && Enabled(p, s)
    ensures ErrorsAgree(Apply(p, s))
  {
    if s.SendFails? || s.RecordFails? {
      assert p.workers[s.w].task in Apply(p, s).dropped;
    }
  }

  lemma StepPhases(p: Pool, s: Step)
    requires |p.workers| > 0 && p.next <= |p.tasks| && PhasesAgree(p) && (p.firstErr <==> p.workerCancelled)
    requires Enabled(p, s)
    ensures PhasesAgree(Apply(p, s))
  {
    QuitStays(p, s);
    if s.Return? {
      assert p.workers[0].Quit?;
    }
  }

  lemma StepInv(p: Pool, s: Step)
    requires Inv(p) && Enabled(p, s)
    ensures Inv(Apply(p, s))
  {
    StepConserves(p, s);
    StepErrors(p, s);
    StepPhases(p, s);
  }

  ghost predicate Valid(p: Pool, steps: seq<Step>)
    decreases |steps|
  {
    steps == [] || (Enabled(p, steps[0]) && Valid(Apply(p, steps[0]), steps[1..]))
  }

  ghost function Run(p: Pool, steps: seq<Step>): Pool
    requires Valid(p, steps)
    decreases |steps|
  {
    if steps == [] then p else Run(Apply(p, steps[0]), steps[1..])
  }

  lemma {:induction false} RunInv(p: Pool, steps: seq<Step>)
    requires Inv(p) && Valid(p, steps)
    ensures Inv(Run(p, steps)) && Run(p, steps).tasks == p.tasks && |Run(p, steps).workers| == |p.workers|
    decreases |steps|
  {
    hide Inv;
    if steps != [] {
      StepInv(p, steps[0]);
      RunInv(Apply(p, steps[0]), steps[1..]);
    }
  }

  lemma CompletingAcknowledgedAll(p: Pool)
    requires Inv(p) && p.phase.Completing?
    ensures forall t :: t in p.tasks ==> t in p.acknowledged
    ensures p.acknowledged == multiset(p.tasks)
  {
    assert p.tasks[..p.next] == p.tasks;
    forall t ensures p.acknowledged[t] == multiset(p.tasks)[t] {
      assert ConservedFor(p, t);
      NoneInFlight(p.workers, t);
    }
    forall t | t in p.tasks ensures t in p.acknowledged {
      assert t in multiset(p.tasks);
    }
  }

  // Whatever the interleaving: the enumerated chunks are exactly the queued,
  // in-flight, acknowledged and dropped ones; something is dropped only after
  // cancellation; and the completion call is reached only when every task was
  // acknowledged and recorded.
  lemma PoolConservation(tasks: seq<Part>, workers: nat, steps: seq<Step>)
    requires workers > 0 && Valid(Start(tasks, workers), steps)
    ensures var p := Run(Start(tasks, workers), steps);
      && p.next <= |tasks| && |p.queue| <= 2 * workers
      && (forall t :: multiset(tasks[..p.next])[t]
            == multiset(p.queue)[t] + InFlight(p.workers, t) + p.acknowledged[t] + p.dropped[t])
      && (p.dropped != multiset{} ==> p.workerCancelled)
      && (p.phase.Completing? ==> p.acknowledged == multiset(tasks))
  {
    StartInv(tasks, workers);
    RunInv(Start(tasks, workers), steps);
    var p := Run(Start(tasks, workers), steps);
    forall t ensures multiset(tasks[..p.next])[t]
        == multiset(p.queue)[t] + InFlight(p.workers, t) + p.acknowledged[t] + p.dropped[t]
    {
      assert ConservedFor(p, t);
    }
    if p.phase.Completing? {
      CompletingAcknowledgedAll(p);
    }
  }

  // --- no goroutine waits forever -----------------------------------------------

  predicate Busy(p: Pool) {
    p.phase.Enqueuing? || p.phase.Waiting?
  }

  // While the pool is busy some goroutine can move without outside help; when
  // all workers have quit early, the enqueuer's cancellation case is ready.
  lemma NeverStuck(p: Pool) returns (s: Step)
    requires Inv(p) && Busy(p)
    ensures Enabled(p, s) && !s.CancelParent?
    ensures p.phase.Enqueuing? && (AllQuit(p) || p.parentCancelled) && p.next < |p.tasks| ==> Enabled(p, BreakOff)
  {
    if p.phase.Enqueuing? && AllQuit(p) {
      assert p.workers[0].Quit?;
      assert SomeQuit(p);
    }
    if p.phase.Enqueuing? && p.next == |p.tasks| {
      s := Close;
    } else if AllQuit(p) {
      s := if p.phase.Enqueuing? then BreakOff else Return;
    } else {
      var w :| 0 <= w < |p.workers| && !p.workers[w].Quit?;
      match p.workers[w]
      case Sending(_) => s := SendOk(w);
      case Recording(_) => s := RecordOk(w);
      case Idle =>
        s := if p.queue != [] then Take(w) else if p.phase.Enqueuing? then Enqueue else Leave(w);
    }
  }

  function WorkerRank(w: Worker): nat {
    match w
    case Sending(_) => 3
    case Recording(_) => 2
    case Idle => 1
    case Quit => 0
  }

  function WorkersRank(workers: seq<Worker>): nat {
    if workers == [] then 0 else WorkerRank(workers[0]) + WorkersRank(workers[1..])
  }

  lemma {:induction false} WorkersRankUpdate(workers: seq<Worker>, w: nat, now: Worker)
    requires w < |workers|
    ensures WorkersRank(workers[w := now]) + WorkerRank(workers[w]) == WorkersRank(workers) + WorkerRank(now)
  {
    if w == 0 {
      assert workers[0 := now][1..] == workers[1..];
    } else {
      WorkersRankUpdate(workers[1..], w - 1, now);
      assert workers[w := now][1..] == workers[1..][w - 1 := now];
    }
  }

  function Rank(p: Pool): int {
    4 * (|p.tasks| - p.next) + 3 * |p.queue| + WorkersRank(p.workers)
    + (if p.phase.Enqueuing? then 2 else if p.phase.Waiting? then 1 else 0)
    + (if p.parentCancelled then 0 else 1)
  }

  lemma StepDescends(p: Pool, s: Step)
    requires Enabled(p, s)
    ensures Rank(Apply(p, s)) < Rank(p)
  {
    match s
    case Take(w) => WorkersRankUpdate(p.workers, w, Sending(p.queue[0]));
    case SendOk(w) => WorkersRankUpdate(p.workers, w, Recording(p.workers[w].task));
    case SendFails(w) => WorkersRankUpdate(p.workers, w, Quit);
    case RecordOk(w) => WorkersRankUpdate(p.workers, w, Idle);
    case RecordFails(w) => WorkersRankUpdate(p.workers, w, Quit);
    case Leave(w) => WorkersRankUpdate(p.workers, w, Quit);
    case _ =>
  }

  // Every schedule ends: no run has more steps than the rank of its first state,
  // and (by NeverStuck) a run can only end once the pool has returned.
  lemma {:induction false} PoolTerminates(p: Pool, steps: seq<Step>)
    requires Inv(p) && Valid(p, steps)
    ensures |steps| <= Rank(p)
    decreases |steps|
  {
    if steps == [] {
      assert 0 <= Rank(p);
    } else {
      hide Inv;
      StepDescends(p, steps[0]);
      StepInv(p, steps[0]);
      PoolTerminates(Apply(p, steps[0]), steps[1..]);
    }
  }
}
