// The transfer state machine: what each service method does to the stored
// record, and which statuses no later method leaves.
module Lifecycle {
  import opened Results
  import opened Transfers

  function PausedNow(t: Transfer, now: int): Option<Transfer> {
    match t.status
    case Sending | Receiving | Connecting | Negotiating | Preparing | Resuming =>
      Some(t.(status := Paused, updatedAt := now))
    case _ => None
  }

  function Resumed(t: Transfer, now: int): Option<Transfer> {
    if !t.status.Paused? then None
    else Some(t.(status := if t.direction.Inbound? then Receiving else Resuming, error := "", updatedAt := now))
  }

  function Retried(t: Transfer, now: int): Option<Transfer> {
    if !t.status.Failed? then None
    else Some(t.(status := if t.direction.Inbound? && t.approved then Receiving else Queued,
                 error := "", finishedAt := None, updatedAt := now))
  }

  function Finished(t: Transfer, status: Status, message: string, now: int): Transfer {
    t.(status := status, error := message, updatedAt := now, finishedAt := Some(now))
  }

  // Refreshing keeps the record and replaces its progress.
  function Refreshed(t: Transfer, progress: int, now: int): Transfer {
    t.(progress := progress, updatedAt := now)
  }

  predicate MayReceive(t: Transfer) {
    t.approved && (t.status.Receiving? || t.status.Resuming?)
  }

  function Recovered(t: Transfer, now: int): Transfer {
    if t.direction.Outbound? then
      match t.status
      case Preparing | Connecting | Negotiating | Sending | Resuming =>
        t.(status := Queued, updatedAt := now, error := "recovered after restart")
      case _ => t
    else if t.status.Verifying? then t.(status := Receiving, updatedAt := now)
    else t
  }

  // One call of a service method on one transfer, with what it read elsewhere
  // (the approved destinations, the summed progress, the verdict of Finalize).
  datatype Call =
    | Accept(files: seq<File>, policy: Policy)
    | Reject
    | Pause
    | Resume
    | Cancel
    | PeerCancel
    | Retry
    | Chunk(progress: int)
    | Finalize(verdict: Option<string>)
    | Recover

  // None is the error return that leaves the record alone.
  function Called(t: Transfer, call: Call, now: int): Option<Transfer> {
    match call
    case Accept(files, policy) =>
      if t.direction.Inbound? && t.status.Queued? && t.approvalRequired
      then Some(t.(files := files, approved := true, policy := policy, status := Receiving, updatedAt := now))
      else None
    case Reject =>
      if t.direction.Inbound? && !t.approved && t.status.Queued? then Some(Finished(t, Cancelled, "", now)) else None
    case Pause => PausedNow(t, now)
    case Resume => Resumed(t, now)
    case Cancel =>
      if t.status.Completed? || t.status.Cancelled? then None else Some(Finished(t, Cancelled, "", now))
    case PeerCancel =>
      if t.status.Completed? || t.status.Cancelled? then None
      else Some(Finished(t, Cancelled, "cancelled by sender", now))
    case Retry => Retried(t, now)
    case Chunk(progress) => if MayReceive(t) then Some(Refreshed(t, progress, now)) else None
    case Finalize(verdict) =>
      if !MayReceive(t) then None
      else if verdict.Some? then Some(Finished(t, Failed, verdict.value, now))
      else Some(Finished(t.(progress := t.size), Completed, "", now))
    case Recover => Some(Recovered(t, now))
  }

  function Run(t: Transfer, calls: seq<(Call, int)>): Transfer
    decreases |calls|
  {
    if calls == [] then t
    else
      var next := Called(t, calls[0].0, calls[0].1);
      Run(if next.Some? then next.value else t, calls[1..])
  }

  // An inbound transfer that is Completed or Cancelled keeps its whole record
  // through every sequence of calls; only deleting the history ends it.
  lemma {:induction false} TerminalIsAbsorbing(t: Transfer, calls: seq<(Call, int)>)
    requires t.direction.Inbound? && (t.status.Completed? || t.status.Cancelled?)
    ensures Run(t, calls) == t
    decreases |calls|
  {
    if calls != [] {
      TerminalIsAbsorbing(t, calls[1..]);
    }
  }

  // No call turns an inbound transfer that the user has not accepted into one
  // that receives, verifies or completes.
  lemma {:induction false} NothingReceivedBeforeApproval(t: Transfer, calls: seq<(Call, int)>)
    requires t.direction.Inbound? && !t.approved
    requires t.status.Queued? || t.status.Cancelled? || t.status.Failed?
    requires forall i :: 0 <= i < |calls| ==> !calls[i].0.Accept?
    ensures !Run(t, calls).approved
    ensures Run(t, calls).status in {Queued, Cancelled, Failed} && Run(t, calls).progress == t.progress
    decreases |calls|
  {
    if calls != [] {
      var next := Called(t, calls[0].0, calls[0].1);
      NothingReceivedBeforeApproval(if next.Some? then next.value else t, calls[1..]);
    }
  }

  // --- what the calls are for ------------------------------------------------------

  // The record is the same but for its status, its error and its times.
  predicate SameBut(t: Transfer, u: Transfer) {
    u == t.(status := u.status, error := u.error, updatedAt := u.updatedAt, finishedAt := u.finishedAt)
  }

  // Outbound and waiting for a dispatch.
  predicate Waits(t: Transfer) {
    t.direction == Outbound && t.status in {Queued, Resuming}
  }

  // Running at either end, so that a pause means something.
  const ACTIVE := {Preparing, Connecting, Negotiating, Sending, Receiving, Resuming}

  // What is paused goes on where it belongs: an approved inbound transfer takes
  // chunks again, an outbound one waits for a dispatch, and nothing of the record
  // is lost on the way.
  lemma PauseThenResume(t: Transfer, now: int, later: int)
    ensures Called(t, Call.Pause, now).Some? <==> t.status in ACTIVE
    ensures t.status in ACTIVE ==>
      && var p := Called(t, Call.Pause, now).value;
      && p.status == Paused && p.updatedAt == now && p.finishedAt == t.finishedAt && p.error == t.error && SameBut(t, p)
      && !MayReceive(p) && !Waits(p)
      && Called(p, Call.Resume, later).Some?
      && var r := Called(p, Call.Resume, later).value;
      && SameBut(t, r) && r.error == "" && r.updatedAt == later && r.finishedAt == t.finishedAt
      && (if t.direction == Inbound then r.status == Receiving && (MayReceive(r) <==> t.approved)
          else r.status == Resuming && Waits(r))
    ensures t.status != Paused ==> Called(t, Call.Resume, now) == None
  {
  }

  // What failed can be tried again, from where it stopped, with every trace of the
  // failure gone.
  lemma FailThenRetry(t: Transfer, message: string, now: int, later: int)
    requires MayReceive(t)
    ensures var f := Called(t, Call.Finalize(Some(message)), now);
      && f.Some? && f.value.status == Failed && f.value.finishedAt == Some(now) && f.value.error == message
      && f.value.updatedAt == now && SameBut(t, f.value)
      && var r := Called(f.value, Call.Retry, later);
      && r.Some? && SameBut(t, r.value)
      && r.value.error == "" && r.value.finishedAt == None && r.value.updatedAt == later
      && (t.direction == Inbound ==> r.value.status == Receiving && MayReceive(r.value))
      && (t.direction == Outbound ==> Waits(r.value))
  {
  }

  lemma RetryOnlyFailed(t: Transfer, now: int)
    ensures Called(t, Call.Retry, now).Some? <==> t.status == Failed
    ensures t.status == Failed ==>
      && var r := Called(t, Call.Retry, now).value;
      && SameBut(t, r) && r.error == "" && r.finishedAt == None && r.updatedAt == now
      && (if t.direction == Inbound && t.approved then r.status == Receiving && MayReceive(r) else r.status == Queued)
      && (t.direction == Outbound ==> Waits(r))
      && (t.direction == Inbound && !t.approved && t.approvalRequired ==>
            forall files, policy :: Called(r, Call.Accept(files, policy), now).Some?)
  {
  }

  // Everything unfinished can be cancelled, by either side, once and for all.
  lemma CancelEnds(t: Transfer, now: int, later: int)
    ensures Called(t, Call.Cancel, now).Some? <==> t.status !in {Completed, Cancelled}
    ensures Called(t, Call.PeerCancel, now).Some? <==> t.status !in {Completed, Cancelled}
    ensures t.status !in {Completed, Cancelled} ==>
      && var (c, p) := (Called(t, Call.Cancel, now).value, Called(t, Call.PeerCancel, now).value);
      && c == t.(status := Cancelled, error := "", updatedAt := now, finishedAt := Some(now))
      && p == c.(error := "cancelled by sender")
      && Called(c, Call.Cancel, later) == None && Called(c, Call.Retry, later) == None
      && Called(c, Call.Resume, later) == None
  {
  }

  // The user's answer to an offer: an acceptance makes the transfer receive, with
  // the given files and policy; a rejection ends it; and only an offer that still
  // waits for one has an answer.
  lemma OfferIsAnswered(t: Transfer, files: seq<File>, policy: Policy, now: int)
    ensures Called(t, Call.Accept(files, policy), now).Some? <==>
      t.direction == Inbound && t.status == Queued && t.approvalRequired
    ensures Called(t, Call.Accept(files, policy), now).Some? ==>
      && var a := Called(t, Call.Accept(files, policy), now).value;
      && a.status == Receiving && MayReceive(a) && a.files == files && a.policy == policy && a.updatedAt == now
      && a == t.(files := files, policy := policy, approved := true, status := Receiving, updatedAt := now)
    ensures Called(t, Call.Reject, now).Some? <==> t.direction == Inbound && t.status == Queued && !t.approved
    ensures Called(t, Call.Reject, now).Some? ==>
      Called(t, Call.Reject, now).value == t.(status := Cancelled, error := "", updatedAt := now, finishedAt := Some(now))
  {
  }

  // Chunks are taken exactly while an approved transfer receives, and only change
  // its progress; finalizing then ends it with all of its size.
  lemma ReceivingTakesChunks(t: Transfer, progress: int, now: int)
    ensures MayReceive(t) <==> t.approved && t.status in {Receiving, Resuming}
    ensures Called(t, Call.Chunk(progress), now) ==
      if MayReceive(t) then Some(t.(progress := progress, updatedAt := now)) else None
    ensures Called(t, Call.Finalize(None), now) ==
      if MayReceive(t)
      then Some(t.(progress := t.size, status := Completed, error := "", updatedAt := now, finishedAt := Some(now)))
      else None
  {
  }

  // The statuses an approved inbound record can have between calls.
  predicate InboundLive(t: Transfer) {
    t.direction == Inbound && t.approved && t.status in {Receiving, Resuming, Verifying, Paused, Failed}
  }

  // No dead ends: at most one call, by the user or by the recovery after a restart,
  // brings every approved transfer that is not finished back to receiving, and
  // every outbound one back into the dispatcher's line.
  lemma NoDeadEnds(t: Transfer, now: int)
    ensures InboundLive(t) && !MayReceive(t) ==>
      exists call :: call in {Call.Resume, Call.Retry, Call.Recover}
        && Called(t, call, now).Some? && MayReceive(Called(t, call, now).value)
    ensures t.direction == Outbound && t.status !in {Completed, Cancelled, Receiving, Verifying} && !Waits(t) ==>
      exists call :: call in {Call.Resume, Call.Retry, Call.Recover}
        && Called(t, call, now).Some? && Waits(Called(t, call, now).value)
  {
    var resumed, retried, recovered := Called(t, Call.Resume, now), Called(t, Call.Retry, now), Called(t, Call.Recover, now);
  }

  // A restart touches interrupted work only: an outbound transfer that a worker had
  // goes back into the line, an inbound one that was being verified receives again.
  lemma RestartRequeues(t: Transfer, now: int)
    ensures var r := Recovered(t, now);
      if t.direction == Outbound && t.status in {Preparing, Connecting, Negotiating, Sending, Resuming} then
        r == t.(status := Queued, error := "recovered after restart", updatedAt := now) && Waits(r)
      else if t.direction == Inbound && t.status == Verifying then
        r == t.(status := Receiving, updatedAt := now) && (MayReceive(r) <==> t.approved)
      else r == t
    ensures Recovered(Recovered(t, now), now) == Recovered(t, now)
    ensures Called(t, Call.Recover, now) == Some(Recovered(t, now))
  {
  }
}
