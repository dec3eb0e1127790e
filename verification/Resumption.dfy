// A transfer can always go on: whatever has been lost, repeated or torn so far,
// one more undisturbed attempt delivers it, and sends only what is missing.
module Resumption {
  import opened Results
  import opened Transfers
  import opened Chunking
  import opened Receiving
  import opened Delivery
  import P = WorkerPool
  import Sender
  import Simulation

  ghost function RequestFor(m: Manifest, part: Part): Request
    requires WellFormed(m) && ValidPart(m, part)
  {
    PartBounds(m, part);
    Request(part, Slice(m, part), m.hash(Slice(m, part)))
  }

  lemma GenuineAccepted(m: Manifest, part: Part)
    requires WellFormed(m) && ValidPart(m, part)
    ensures var r := RequestFor(m, part);
      0 <= Offset(m, part) && r.part == part && ChunkAccepted(m.files, part, r.data, r.checksum, m.hash)
  {
    PartBounds(m, part);
  }

  // An attempt between two chunks: the receiver takes chunks, every worker is idle
  // and nothing has gone wrong.
  ghost predicate Feeds(m: Manifest, s: System, pid: nat) {
    && s.receiving && pid in s.processes && s.processes[pid].Feeding? && Fresh(s.processes[pid].pool)
    && forall t :: t in s.processes[pid].pool.tasks ==> ValidPart(m, t)
  }

  predicate Fresh(p: P.Pool) {
    && p.phase == P.Enqueuing && p.queue == [] && p.next <= |p.tasks| && 0 < |p.workers|
    && !p.firstErr && !p.parentCancelled
    && forall w :: 0 <= w < |p.workers| ==> p.workers[w] == P.Idle
  }

  function WithPool(s: System, pid: nat, pool: P.Pool): System
    requires pid in s.processes && s.processes[pid].Feeding?
  {
    s.(processes := s.processes[pid := s.processes[pid].(pool := pool)])
  }

  lemma OneMove(m: Manifest, s: System, pid: nat, move: P.Step)
    requires WellFormed(m) && pid in s.processes && s.processes[pid].Feeding? && P.Enabled(s.processes[pid].pool, move)
    requires move.SendOk? ==> s.processes[pid].pool.workers[move.w].task in s.replies
    ensures Enabled(m, s, PoolMove(pid, move))
    ensures Apply(m, s, PoolMove(pid, move)) == WithPool(s, pid, P.Apply(s.processes[pid].pool, move))
  {
  }

  lemma Then(m: Manifest, s: System, steps: seq<Step>, step: Step)
    requires WellFormed(m) && Valid(m, s, steps) && Enabled(m, Run(m, s, steps), step)
    ensures Valid(m, s, steps + [step]) && Run(m, s, steps + [step]) == Apply(m, Run(m, s, steps), step)
  {
    hide Enabled, Apply, WellFormed;
    var t := Run(m, s, steps);
    FirstStep(m, t, step, []);
    assert [step] + [] == [step];
    RunJoins(m, s, steps, [step]);
  }

  // Moves of the pool that wait for no reply.
  lemma {:induction false} Moves(m: Manifest, s: System, pid: nat, moves: seq<P.Step>) returns (steps: seq<Step>)
    requires WellFormed(m) && pid in s.processes && s.processes[pid].Feeding?
    requires P.Valid(s.processes[pid].pool, moves) && forall i :: 0 <= i < |moves| ==> !moves[i].SendOk?
    ensures Valid(m, s, steps) && Run(m, s, steps) == WithPool(s, pid, P.Run(s.processes[pid].pool, moves))
    decreases |moves|
  {
    hide WellFormed, P.Enabled, P.Apply, Enabled, Apply;
    steps := [];
    if moves != [] {
      OneMove(m, s, pid, moves[0]);
      var rest := Moves(m, Apply(m, s, PoolMove(pid, moves[0])), pid, moves[1..]);
      FirstStep(m, s, PoolMove(pid, moves[0]), rest);
      steps := [PoolMove(pid, moves[0])] + rest;
    }
  }

  lemma FirstMove(p: P.Pool, move: P.Step, rest: seq<P.Step>)
    requires P.Enabled(p, move) && P.Valid(P.Apply(p, move), rest)
    ensures P.Valid(p, [move] + rest) && P.Run(p, [move] + rest) == P.Run(P.Apply(p, move), rest)
  {
    assert ([move] + rest)[1..] == rest;
  }

  // A worker takes the next chunk,
  lemma ChunkTaken(p: P.Pool)
    requires Fresh(p) && p.next < |p.tasks|
    ensures P.Valid(p, [P.Enqueue] + [P.Take(0)])
    ensures P.Run(p, [P.Enqueue] + [P.Take(0)])
            == p.(next := p.next + 1, workers := p.workers[0 := P.Sending(p.tasks[p.next])])
  {
    var q := P.Apply(p, P.Enqueue);
    assert q.queue == [p.tasks[p.next]];
    FirstMove(q, P.Take(0), []);
    assert [P.Take(0)] + [] == [P.Take(0)];
    FirstMove(p, P.Enqueue, [P.Take(0)]);
  }

  // and sends it.
  lemma ChunkSent(m: Manifest, s: System, pid: nat) returns (steps: seq<Step>)
    requires WellFormed(m) && Feeds(m, s, pid)
    requires s.processes[pid].pool.next < |s.processes[pid].pool.tasks|
    ensures Valid(m, s, steps)
    ensures var p := s.processes[pid].pool;
      var t := p.tasks[p.next];
      ValidPart(m, t)
      && Run(m, s, steps) == WithPool(s, pid, p.(next := p.next + 1, workers := p.workers[0 := P.Sending(t)])).(
           requests := s.requests + {RequestFor(m, t)})
  {
    var p := s.processes[pid].pool;
    assert p.tasks[p.next] in p.tasks;
    ChunkTaken(p);
    hide WellFormed, Slice, P.Valid, P.Run, ValidPart;
    steps := Moves(m, s, pid, [P.Enqueue] + [P.Take(0)]);
    Then(m, s, steps, SendRequest(pid, 0));
    steps := steps + [SendRequest(pid, 0)];
  }

  // Its acknowledgement arrives and is recorded.
  lemma ChunkRecorded(m: Manifest, s: System, pid: nat, t: Part) returns (steps: seq<Step>)
    requires WellFormed(m) && pid in s.processes && s.processes[pid].Feeding? && t in s.replies
    requires 0 < |s.processes[pid].pool.workers| && s.processes[pid].pool.workers[0] == P.Sending(t)
    ensures Valid(m, s, steps)
    ensures var p := s.processes[pid].pool;
      Run(m, s, steps) == WithPool(s, pid,
        p.(workers := p.workers[0 := P.Idle], acknowledged := p.acknowledged + multiset{t}))
  {
    var p := s.processes[pid].pool;
    OneMove(m, s, pid, P.SendOk(0));
    var s1 := Apply(m, s, PoolMove(pid, P.SendOk(0)));
    assert s1 == WithPool(s, pid, p.(workers := p.workers[0 := P.Recording(t)]));
    OneMove(m, s1, pid, P.RecordOk(0));
    assert p.workers[0 := P.Recording(t)][0 := P.Idle] == p.workers[0 := P.Idle];
    hide WellFormed, Enabled, Apply;
    FirstStep(m, s1, PoolMove(pid, P.RecordOk(0)), []);
    FirstStep(m, s, PoolMove(pid, P.SendOk(0)), [PoolMove(pid, P.RecordOk(0))] + []);
    steps := [PoolMove(pid, P.SendOk(0))] + ([PoolMove(pid, P.RecordOk(0))] + []);
  }

  // A number that no handler or process has.
  lemma Unused(taken: set<nat>) returns (n: nat)
    ensures n !in taken
  {
    n := 0;
    var left := taken;
    while n in left
      invariant left <= taken && forall k :: k in taken && n <= k ==> k in left
      decreases |left|
    {
      left := left - {n};
      n := n + 1;
    }
  }

  // One chunk, from the task list to the row.
  lemma ChunkDelivered(m: Manifest, s: System, pid: nat) returns (steps: seq<Step>)
    requires WellFormed(m) && Feeds(m, s, pid)
    requires s.processes[pid].pool.next < |s.processes[pid].pool.tasks|
    ensures Valid(m, s, steps)
    ensures var (p, r) := (s.processes[pid].pool, Run(m, s, steps));
      && ValidPart(m, p.tasks[p.next])
      && Feeds(m, r, pid) && r.processes[pid].pool.tasks == p.tasks && r.processes[pid].pool.next == p.next + 1
      && r.requests == s.requests + {RequestFor(m, p.tasks[p.next])}
  {
    hide WellFormed, Slice, WriteAt, ChunkAccepted, RequestFor, Offset;
    var p := s.processes[pid].pool;
    var t := p.tasks[p.next];
    var sending := ChunkSent(m, s, pid);
    var s1 := Run(m, s, sending);
    GenuineAccepted(m, t);
    var hid := Unused(s1.handlers.Keys);
    var storing := Simulation.StoredSteps(m, s1, hid, RequestFor(m, t), true);
    var s2 := Run(m, s1, storing);
    var recording := ChunkRecorded(m, s2, pid, t);
    RunJoins(m, s1, storing, recording);
    RunJoins(m, s, sending, storing + recording);
    steps := sending + (storing + recording);
    assert p.workers[0 := P.Sending(t)][0 := P.Idle] == p.workers;
  }

  // All the chunks that are left.
  lemma {:induction false} ChunksDelivered(m: Manifest, s: System, pid: nat) returns (steps: seq<Step>)
    requires WellFormed(m) && Feeds(m, s, pid)
    ensures Valid(m, s, steps)
    ensures var (p, r) := (s.processes[pid].pool, Run(m, s, steps));
      && Feeds(m, r, pid) && r.processes[pid].pool.tasks == p.tasks && r.processes[pid].pool.next == |p.tasks|
      && s.requests <= r.requests && forall q :: q in r.requests && q !in s.requests ==> q.part in p.tasks
    decreases |s.processes[pid].pool.tasks| - s.processes[pid].pool.next
  {
    hide WellFormed;
    var p := s.processes[pid].pool;
    if p.next == |p.tasks| {
      steps := [];
    } else {
      var first := ChunkDelivered(m, s, pid);
      var s1 := Run(m, s, first);
      var rest := ChunksDelivered(m, s1, pid);
      RunJoins(m, s, first, rest);
      assert p.tasks[p.next] in p.tasks && RequestFor(m, p.tasks[p.next]).part == p.tasks[p.next];
      steps := first + rest;
    }
  }

  // The workers leave one after the other.
  lemma {:induction false} WorkersLeave(p: P.Pool, gone: nat) returns (moves: seq<P.Step>)
    requires p.phase == P.Waiting && p.queue == [] && gone <= |p.workers|
    requires forall w :: 0 <= w < |p.workers| ==> p.workers[w] == if w < gone then P.Quit else P.Idle
    ensures P.Valid(p, moves) && forall i :: 0 <= i < |moves| ==> !moves[i].SendOk?
    ensures P.Run(p, moves) == p.(workers := seq(|p.workers|, _ => P.Quit))
    decreases |p.workers| - gone
  {
    moves := [];
    if gone == |p.workers| {
      assert p.workers == seq(|p.workers|, _ => P.Quit);
    } else {
      var rest := WorkersLeave(P.Apply(p, P.Leave(gone)), gone + 1);
      FirstMove(p, P.Leave(gone), rest);
      moves := [P.Leave(gone)] + rest;
    }
  }

  // The attempt ends with its completion request.
  lemma CompletionAsked(m: Manifest, s: System, pid: nat) returns (steps: seq<Step>)
    requires WellFormed(m) && Feeds(m, s, pid)
    requires s.processes[pid].pool.next == |s.processes[pid].pool.tasks|
    ensures Valid(m, s, steps) && Run(m, s, steps).completeIssued && Run(m, s, steps).requests == s.requests
  {
    hide WellFormed;
    OneMove(m, s, pid, P.Close);
    var s1 := Apply(m, s, PoolMove(pid, P.Close));
    var moves := WorkersLeave(s1.processes[pid].pool, 0);
    var leaving := Moves(m, s1, pid, moves);
    FirstStep(m, s, PoolMove(pid, P.Close), leaving);
    steps := [PoolMove(pid, P.Close)] + leaving;
    OneMove(m, Run(m, s, steps), pid, P.Return);
    Then(m, s, steps, PoolMove(pid, P.Return));
    steps := steps + [PoolMove(pid, P.Return)];
    Then(m, s, steps, IssueComplete(pid));
    steps := steps + [IssueComplete(pid)];
  }

  // A new attempt asks where the transfer stands and lists what is missing.
  lemma AttemptStarts(m: Manifest, s: System, workers: nat) returns (pid: nat, steps: seq<Step>)
    requires WellFormed(m) && 0 < workers
    ensures Valid(m, s, steps)
    ensures var r := Run(m, s, steps);
      && Feeds(m, r, pid) && r.requests == s.requests
      && forall t :: t in r.processes[pid].pool.tasks ==> t !in s.rows
  {
    hide WellFormed;
    pid := Unused(s.processes.Keys);
    var tasks := Sender.Missing(m.files, s.rows);
    Sender.EnumerationFeedsDelivery(m, s.rows);
    steps := [];
    Then(m, s, steps, SetReceiving(true));
    steps := steps + [SetReceiving(true)];
    Then(m, s, steps, StartProcess(pid, workers));
    steps := steps + [StartProcess(pid, workers)];
    Then(m, s, steps, AnswerStatus);
    steps := steps + [AnswerStatus];
    Then(m, s, steps, ReadStatus(pid, s.rows, tasks, workers));
    steps := steps + [ReadStatus(pid, s.rows, tasks, workers)];
  }

  // From every state that a run can reach, with any number of workers: an attempt
  // that nothing disturbs asks for completion, whereupon every partial is its
  // source, and no chunk that was recorded before is sent again.
  lemma AlwaysResumable(m: Manifest, past: seq<Step>, workers: nat) returns (steps: seq<Step>)
    requires WellFormed(m) && Valid(m, EMPTY, past) && 0 < workers
    ensures Valid(m, EMPTY, past + steps) && Run(m, EMPTY, past + steps).completeIssued
    ensures forall f :: f in m.files && !f.directory ==>
      Contents(Run(m, EMPTY, past + steps).partials, f.id) == m.sources[f.id]
    ensures forall q :: q in Run(m, EMPTY, past + steps).requests && q !in Run(m, EMPTY, past).requests ==>
      q.part !in Run(m, EMPTY, past).rows
  {
    hide WellFormed, Contents;
    var s := Run(m, EMPTY, past);
    var pid, starting := AttemptStarts(m, s, workers);
    var s1 := Run(m, s, starting);
    var feeding := ChunksDelivered(m, s1, pid);
    var s2 := Run(m, s1, feeding);
    var ending := CompletionAsked(m, s2, pid);
    RunJoins(m, s1, feeding, ending);
    RunJoins(m, s, starting, feeding + ending);
    steps := starting + (feeding + ending);
    RunJoins(m, EMPTY, past, steps);
    ExactDelivery(m, past + steps);
  }
}
