// Any number of ReceiveChunk, Pause, Resume, Retry and finish calls on one
// transfer, interleaved at their store operations. progressMu is the only
// protection of the read-modify-write sequences on the transfer row.
module Interleaving {
  import opened Results
  import opened Transfers
  import opened Chunking
  import opened Sums
  import opened Lifecycle

  datatype Decision = DoPause | DoResume | DoRetry

  datatype Thread =
    // ReceiveChunk: validated and written, its row saved, then refreshProgress
    | ChunkWritten(part: Part)
    | ChunkRowSaved
    | RefreshLocked
    | RefreshRead(snapshot: Transfer)
    | RefreshSummed(snapshot: Transfer, sum: int)
    // Pause, Resume and Retry
    | DecisionWaiting(decision: Decision)
    | DecisionLocked(decision: Decision)
    | DecisionRead(decision: Decision, snapshot: Transfer)
    // finish: its caller read the transfer before, without the lock
    | FinishWaiting(snapshot: Transfer, status: Status)
    | FinishLocked(snapshot: Transfer, status: Status)
    | Done

  datatype System = System(
    files: seq<File>,
    stored: Transfer,
    complete: set<Part>,
    lock: Option<nat>,
    threads: map<nat, Thread>,
    // the status most recently written by a pause, resume, retry or finish
    decided: Status)

  // saved is false when the store call of this step reports an error.
  datatype Step = Spawn(tid: nat, thread: Thread) | Move(tid: nat, saved: bool, now: int)

  predicate StartOfCall(s: System, th: Thread) {
    match th
    case ChunkWritten(part) => part in AllParts(s.files)
    case DecisionWaiting(_) => true
    case FinishWaiting(_, status) => Terminal(status)
    case _ => false
  }

  predicate Holds(th: Thread) {
    th.RefreshLocked? || th.RefreshRead? || th.RefreshSummed?
    || th.DecisionLocked? || th.DecisionRead? || th.FinishLocked?
  }

  function Decide(d: Decision, t: Transfer, now: int): Option<Transfer> {
    match d
    case DoPause => PausedNow(t, now)
    case DoResume => Resumed(t, now)
    case DoRetry => Retried(t, now)
  }

  function Become(s: System, tid: nat, th: Thread): System {
    s.(threads := s.threads[tid := th])
  }

  function Acquire(s: System, tid: nat, th: Thread): System {
    if s.lock.None? then Become(s, tid, th).(lock := Some(tid)) else s
  }

  function Release(s: System, tid: nat): System {
    Become(s, tid, Done).(lock := None)
  }

  ghost function SumOf(s: System): nat {
    Total(s.complete, Weight(s.files))
  }

  ghost function Moved(s: System, tid: nat, saved: bool, now: int): System
    requires tid in s.threads
  {
    match s.threads[tid]
    case ChunkWritten(part) =>
      if saved then Become(s.(complete := s.complete + {part}), tid, ChunkRowSaved) else Become(s, tid, Done)
    case ChunkRowSaved => Acquire(s, tid, RefreshLocked)
    case RefreshLocked => Become(s, tid, RefreshRead(s.stored))
    case RefreshRead(t) => Become(s, tid, RefreshSummed(t, SumOf(s)))
    case RefreshSummed(t, sum) =>
      if saved then Release(s.(stored := Refreshed(t, sum, now)), tid) else Release(s, tid)
    case DecisionWaiting(d) => Acquire(s, tid, DecisionLocked(d))
    case DecisionLocked(d) => Become(s, tid, DecisionRead(d, s.stored))
    case DecisionRead(d, t) =>
      var next := Decide(d, t, now);
      if saved && next.Some? then Release(s.(stored := next.value, decided := next.value.status), tid)
      else Release(s, tid)
    case FinishWaiting(t, status) => Acquire(s, tid, FinishLocked(t, status))
    case FinishLocked(t, status) =>
      if saved then Release(s.(stored := Finished(t, status, "", now), decided := status), tid) else Release(s, tid)
    case Done => s
  }

  ghost function Next(s: System, step: Step): System {
    match step
    case Spawn(tid, th) => if tid !in s.threads && StartOfCall(s, th) then Become(s, tid, th) else s
    case Move(tid, saved, now) => if tid in s.threads then Moved(s, tid, saved, now) else s
  }

  ghost function Run(s: System, steps: seq<Step>): System
    decreases |steps|
  {
    if steps == [] then s else Next(Run(s, steps[..|steps| - 1]), steps[|steps| - 1])
  }

  // --- one call by itself -------------------------------------------------------

  // n moves of one thread, with every save succeeding.
  ghost function Alone(s: System, tid: nat, n: nat, now: int): System
    decreases n
  {
    if n == 0 then s else Alone(Next(s, Move(tid, true, now)), tid, n - 1, now)
  }

  // A chunk call that nothing interleaves records its chunk, stores what all the
  // recorded chunks count, and leaves the lock free.
  lemma ChunkAlone(s: System, tid: nat, part: Part, now: int)
    requires s.lock.None? && tid !in s.threads && part in AllParts(s.files)
    ensures Alone(Next(s, Spawn(tid, ChunkWritten(part))), tid, 5, now) == s.(
      complete := s.complete + {part},
      stored := s.stored.(progress := Total(s.complete + {part}, Weight(s.files)), updatedAt := now),
      threads := s.threads[tid := Done])
  {
    hide Weight, Total;
    var s0 := Next(s, Spawn(tid, ChunkWritten(part)));
    var s1 := Next(s0, Move(tid, true, now));
    var s2 := Next(s1, Move(tid, true, now));
    var s3 := Next(s2, Move(tid, true, now));
    var s4 := Next(s3, Move(tid, true, now));
    var s5 := Next(s4, Move(tid, true, now));
    assert s5.threads == s.threads[tid := Done];
    hide Next;
    assert Alone(s4, tid, 1, now) == Alone(s5, tid, 0, now);
    assert Alone(s3, tid, 2, now) == Alone(s4, tid, 1, now);
    assert Alone(s2, tid, 3, now) == Alone(s3, tid, 2, now);
    assert Alone(s1, tid, 4, now) == Alone(s2, tid, 3, now);
  }

  // And a decision does what the user asked for, if the status allows it.
  lemma DecisionAlone(s: System, tid: nat, d: Decision, now: int)
    requires s.lock.None? && tid !in s.threads
    ensures var r := Alone(Next(s, Spawn(tid, DecisionWaiting(d))), tid, 3, now);
      var next := Called(s.stored, if d.DoPause? then Call.Pause else if d.DoResume? then Call.Resume else Call.Retry, now);
      && r.lock.None? && r.threads == s.threads[tid := Done] && r.complete == s.complete
      && r.stored == (if next.Some? then next.value else s.stored)
      && r.decided == (if next.Some? then next.value.status else s.decided)
  {
    hide PausedNow, Resumed, Retried;
    var s0 := Next(s, Spawn(tid, DecisionWaiting(d)));
    var s1 := Next(s0, Move(tid, true, now));
    var s2 := Next(s1, Move(tid, true, now));
    var s3 := Next(s2, Move(tid, true, now));
    assert s3.threads == s.threads[tid := Done];
    hide Next;
    assert Alone(s2, tid, 1, now) == Alone(s3, tid, 0, now);
    assert Alone(s1, tid, 2, now) == Alone(s2, tid, 1, now);
  }

  // A move whose save fails changes nothing that is stored.
  lemma NothingWithoutSave(s: System, tid: nat, now: int)
    ensures var r := Next(s, Move(tid, false, now));
      r.stored == s.stored && r.complete == s.complete && r.decided == s.decided
  {
  }

  // The moves a thread has left.
  function StepsLeft(th: Thread): nat {
    match th
    case ChunkWritten(_) => 5
    case ChunkRowSaved => 4
    case RefreshLocked => 3
    case RefreshRead(_) => 2
    case RefreshSummed(_, _) => 1
    case DecisionWaiting(_) => 3
    case DecisionLocked(_) => 2
    case DecisionRead(_, _) => 1
    case FinishWaiting(_, _) => 2
    case FinishLocked(_, _) => 1
    case Done => 0
  }

  // The calls do not wait for each other for ever: while one is not done, one can
  // come nearer to its end, whether its save succeeds or not.
  lemma NeverStuck(s: System, saved: bool, now: int) returns (tid: nat)
    requires Exclusive(s) && exists k :: k in s.threads && s.threads[k] != Done
    ensures tid in s.threads && tid in Next(s, Move(tid, saved, now)).threads
    ensures StepsLeft(Next(s, Move(tid, saved, now)).threads[tid]) < StepsLeft(s.threads[tid])
  {
    if s.lock.Some? {
      tid := s.lock.value;
    } else {
      tid :| tid in s.threads && s.threads[tid] != Done;
    }
    MoveDescends(s, tid, saved, now);
  }

  lemma MoveDescends(s: System, tid: nat, saved: bool, now: int)
    requires tid in s.threads && s.threads[tid] != Done
    requires s.lock.None? || Holds(s.threads[tid])
    ensures tid in Next(s, Move(tid, saved, now)).threads
    ensures StepsLeft(Next(s, Move(tid, saved, now)).threads[tid]) < StepsLeft(s.threads[tid])
  {
    hide SumOf, Refreshed, Finished;
  }

  // --- mutual exclusion -----------------------------------------------------

  ghost predicate Exclusive(s: System) {
    && (s.lock.Some? ==> s.lock.value in s.threads)
    && forall tid :: tid in s.threads ==> (Holds(s.threads[tid]) <==> s.lock == Some(tid))
  }

  lemma NextExclusive(s: System, step: Step)
    requires Exclusive(s)
    ensures Exclusive(Next(s, step))
  {
  }

  // --- the status is the last decision's -------------------------------------

  ghost predicate RefreshKnowsStatus(s: System) {
    forall tid :: tid in s.threads ==>
      match s.threads[tid]
      case RefreshRead(t) => t.status == s.decided
      case RefreshSummed(t, _) => t.status == s.decided
      case _ => true
  }

  ghost predicate StatusDecided(s: System) {
    Exclusive(s) && s.stored.status == s.decided && RefreshKnowsStatus(s)
  }

  lemma NextStatusDecided(s: System, step: Step)
    requires StatusDecided(s)
    ensures StatusDecided(Next(s, step))
  {
    NextExclusive(s, step);
  }

  // However many chunk calls are in flight and wherever they are interrupted,
  // the stored status is the one the last pause, resume, retry or finish wrote.
  lemma {:induction false} LateChunksCannotUndoADecision(s: System, steps: seq<Step>)
    requires StatusDecided(s)
    ensures StatusDecided(Run(s, steps))
    ensures Run(s, steps).stored.status == Run(s, steps).decided
    decreases |steps|
  {
    if steps != [] {
      LateChunksCannotUndoADecision(s, steps[..|steps| - 1]);
      NextStatusDecided(Run(s, steps[..|steps| - 1]), steps[|steps| - 1]);
    }
  }

  // --- Finalize's own status write takes no lock -----------------------------

  // Finalize saves Verifying on the record it read, without progressMu.
  function MarkedVerifying(s: System, t: Transfer, now: int): System {
    s.(stored := t.(status := Verifying, updatedAt := now), decided := Verifying)
  }

  predicate RefreshHasSnapshot(th: Thread) {
    th.RefreshRead? || th.RefreshSummed?
  }

  // The write survives every continuation when no refresh holds a snapshot.
  lemma VerifyingSurvives(s: System, t: Transfer, now: int, steps: seq<Step>)
    requires StatusDecided(s)
    requires forall tid :: tid in s.threads ==> !RefreshHasSnapshot(s.threads[tid])
    ensures Run(MarkedVerifying(s, t, now), steps).stored.status == Run(MarkedVerifying(s, t, now), steps).decided
  {
    var marked := MarkedVerifying(s, t, now);
    assert StatusDecided(marked);
    LateChunksCannotUndoADecision(marked, steps);
  }

  // And it is undone by at most two steps of a refresh that does hold one.
  lemma VerifyingLost(s: System, t: Transfer, now: int, tid: nat) returns (steps: seq<Step>)
    requires StatusDecided(s) && !s.decided.Verifying?
    requires tid in s.threads && RefreshHasSnapshot(s.threads[tid])
    ensures |steps| <= 2
    ensures Run(MarkedVerifying(s, t, now), steps).stored.status != Run(MarkedVerifying(s, t, now), steps).decided
  {
    var move := Move(tid, true, now);
    var marked := MarkedVerifying(s, t, now);
    assert Run(marked, [move]) == Next(marked, move) by {
      assert [move][..0] == [];
    }
    if s.threads[tid].RefreshSummed? {
      steps := [move];
    } else {
      steps := [move, move];
      assert [move, move][..1] == [move];
      assert Run(marked, steps) == Next(Next(marked, move), move);
    }
  }

  // --- progress --------------------------------------------------------------

  // What a thread in flight knows about the progress, given the sum of the
  // completed chunks' sizes.
  predicate ThreadKnows(th: Thread, progress: int, sum: int) {
    match th
    case RefreshSummed(_, mine) => progress <= mine <= sum
    case DecisionRead(_, t) => t.progress == progress
    case _ => true
  }

  ghost predicate KnownAt(s: System, sum: int) {
    && 0 <= s.stored.progress <= sum
    && forall tid :: tid in s.threads ==> ThreadKnows(s.threads[tid], s.stored.progress, sum)
  }

  ghost predicate ProgressKnown(s: System) {
    KnownAt(s, SumOf(s))
  }

  ghost predicate WithinManifest(s: System) {
    s.complete <= AllParts(s.files)
    && forall tid :: tid in s.threads && s.threads[tid].ChunkWritten? ==> s.threads[tid].part in AllParts(s.files)
  }

  predicate IsFinish(s: System, step: Step) {
    step.Move? && step.tid in s.threads && s.threads[step.tid].FinishLocked?
  }

  lemma NextKnown(s: System, step: Step, before: int, after: int)
    requires Exclusive(s) && KnownAt(s, before) && !IsFinish(s, step)
    requires before == SumOf(s) && before <= after
    requires Next(s, step).complete == s.complete ==> before == after
    ensures KnownAt(Next(s, step), after)
    ensures s.stored.progress <= Next(s, step).stored.progress
  {
    var next := Next(s, step);
    if step.Move? && step.tid in s.threads {
      var th := s.threads[step.tid];
      assert ThreadKnows(th, s.stored.progress, before);
      forall tid | tid in next.threads && tid != step.tid
        ensures ThreadKnows(next.threads[tid], next.stored.progress, after)
      {
        assert ThreadKnows(s.threads[tid], s.stored.progress, before);
        assert Holds(th) ==> !Holds(s.threads[tid]);
      }
    }
  }

  lemma NextGrows(s: System, step: Step)
    requires WithinManifest(s)
    ensures Next(s, step).files == s.files && s.complete <= Next(s, step).complete
    ensures WithinManifest(Next(s, step))
  {
  }

  // Chunk, pause, resume and retry steps never lower the stored progress, and
  // it never exceeds what the completed chunks add up to.
  lemma NextProgress(s: System, step: Step)
    requires Exclusive(s) && WithinManifest(s) && ProgressKnown(s) && !IsFinish(s, step)
    ensures ProgressKnown(Next(s, step))
    ensures s.stored.progress <= Next(s, step).stored.progress
  {
    var after := Next(s, step);
    NextGrows(s, step);
    var before, sum := SumOf(s), SumOf(after);
    assert before <= sum by {
      ProgressMonotone(s.files, s.complete, after.complete);
    }
    NextKnown(s, step, before, sum);
  }

  // Every snapshot in flight carries the transfer's size.
  ghost predicate SizeKnown(s: System) {
    s.stored.size == TotalSize(s.files)
    && forall tid :: tid in s.threads ==>
      match s.threads[tid]
      case RefreshRead(t) => t.size == s.stored.size
      case RefreshSummed(t, _) => t.size == s.stored.size
      case DecisionRead(_, t) => t.size == s.stored.size
      case _ => true
  }

  lemma NextSize(s: System, step: Step)
    requires SizeKnown(s) && !IsFinish(s, step)
    ensures SizeKnown(Next(s, step)) && Next(s, step).stored.size == s.stored.size
  {
    hide SumOf, AllParts;
  }

  ghost predicate NoFinish(s: System, steps: seq<Step>) {
    forall i :: 0 <= i < |steps| ==> !IsFinish(Run(s, steps[..i]), steps[i])
  }

  lemma {:induction false} ProgressInvariant(s: System, steps: seq<Step>)
    requires Exclusive(s) && WithinManifest(s) && ProgressKnown(s) && SizeKnown(s) && NoFinish(s, steps)
    ensures var after := Run(s, steps);
      && Exclusive(after) && WithinManifest(after) && ProgressKnown(after) && SizeKnown(after)
      && after.files == s.files && after.stored.size == s.stored.size
      && s.stored.progress <= after.stored.progress && s.complete <= after.complete
    decreases |steps|
  {
    hide Exclusive, WithinManifest, ProgressKnown, SizeKnown, IsFinish, Next;
    if steps != [] {
      var k := |steps| - 1;
      forall i | 0 <= i < k ensures !IsFinish(Run(s, steps[..k][..i]), steps[..k][i]) {
        assert steps[..k][..i] == steps[..i];
      }
      ProgressInvariant(s, steps[..k]);
      NextGrows(Run(s, steps[..k]), steps[k]);
      NextProgress(Run(s, steps[..k]), steps[k]);
      NextExclusive(Run(s, steps[..k]), steps[k]);
      NextSize(Run(s, steps[..k]), steps[k]);
    }
  }

  // Over any run without a finish, the stored progress rises within [0, size] of
  // the stored record, whose size stays; and once a refresh has caught up with
  // the chunk rows it equals the size exactly when every chunk is complete.
  lemma ProgressNeverFalls(s: System, steps: seq<Step>)
    requires WellFormedFiles(s.files)
    requires Exclusive(s) && WithinManifest(s) && ProgressKnown(s) && SizeKnown(s) && NoFinish(s, steps)
    ensures var after := Run(s, steps);
      && 0 <= s.stored.progress <= after.stored.progress <= after.stored.size == s.stored.size
      && (after.stored.progress == after.stored.size ==> after.complete == AllParts(s.files))
      && (after.complete == AllParts(s.files) && after.stored.progress == SumOf(after)
          ==> after.stored.progress == after.stored.size)
  {
    ProgressInvariant(s, steps);
    ProgressExact(s.files, s.stored.size, Run(s, steps).complete);
  }
}
