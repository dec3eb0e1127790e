// The whole transfer: any number of sender processes and their worker pools, a
// network that loses, duplicates, delays and reorders chunk requests, replies
// and status answers, a receiver whose handlers may be interrupted anywhere,
// and crashes of either side.
module Delivery {
  import opened Results
  import opened Transfers
  import opened Chunking
  import opened Receiving
  import opened WorkerPool

  // sources are the sender's files; they do not change during the transfer.
  datatype Manifest = Manifest(files: seq<File>, sources: map<string, Bytes>, hash: Bytes -> string)

  ghost predicate WellFormed(m: Manifest) {
    && WellFormedFiles(m.files)
    && forall f :: f in m.files && !f.directory ==>
        f.id in m.sources && |m.sources[f.id]| == f.size && f.checksum == m.hash(m.sources[f.id])
  }

  datatype Request = Request(part: Part, data: Bytes, checksum: string)

  // A ReceiveChunk call on the receiver, by how far it has come.
  datatype Handler =
    | Writing(request: Request)
    | Synced(request: Request)
    | RowSaved(request: Request)

  // A processOutbound call on the sender.
  datatype Process =
    | AwaitingStatus
    | Feeding(resume: set<Part>, pool: Pool)

  datatype System = System(
    // the receiver's disk and database
    partials: map<string, Bytes>,
    rows: set<Part>,
    receiving: bool,
    // the receiver's calls in progress
    handlers: map<nat, Handler>,
    // everything ever put on the network
    requests: set<Request>,
    replies: set<Part>,
    statusAnswers: set<set<Part>>,
    // the sender
    processes: map<nat, Process>,
    completeIssued: bool)

  datatype Step =
    | StartProcess(pid: nat, workers: nat)
    | ReadStatus(pid: nat, resume: set<Part>, tasks: seq<Part>, workers: nat)
    | PoolMove(pid: nat, move: WorkerPool.Step)
    | SendRequest(pid: nat, w: nat)
    | IssueComplete(pid: nat)
    | SenderCrash
    | AnswerStatus
    | Deliver(hid: nat, request: Request)
    | PartialWrite(hid: nat, after: Bytes)
    | FinishWrite(hid: nat)
    | SaveRow(hid: nat)
    | Reply(hid: nat)
    | GiveUp(hid: nat)
    | SetReceiving(receiving: bool)
    | ReceiverCrash

  const EMPTY := System(map[], {}, false, map[], {}, {}, {}, map[], false)

  // --- sendChunk's slice of the source ----------------------------------------

  function Offset(m: Manifest, part: Part): int {
    var f := FindFile(m.files, part.file);
    if f.None? then 0 else part.index * f.value.chunkSize
  }

  function Length(m: Manifest, part: Part): int {
    var f := FindFile(m.files, part.file);
    if f.None? then 0 else ChunkLength(f.value.size, f.value.chunkSize, part.index)
  }

  ghost predicate ValidPart(m: Manifest, part: Part) {
    part in AllParts(m.files)
  }

  lemma PartBounds(m: Manifest, part: Part)
    requires WellFormed(m) && ValidPart(m, part)
    ensures FindFile(m.files, part.file).Some?
    ensures var f := FindFile(m.files, part.file).value;
      f in m.files && !f.directory && f.id == part.file && 0 <= part.index < f.chunkCount
      && part.file in m.sources && |m.sources[part.file]| == f.size
    ensures 0 <= Offset(m, part) && 0 < Length(m, part)
    ensures Offset(m, part) + Length(m, part) <= |m.sources[part.file]|
  {
    InAllParts(m.files, part);
    var f :| f in m.files && f.id == part.file && 0 <= part.index < f.chunkCount;
    FindFileMember(m.files, f);
    ChunksTile(f.size, f.chunkSize, part.index, 0);
  }

  function Slice(m: Manifest, part: Part): Bytes
    requires part.file in m.sources
    requires 0 <= Offset(m, part) && 0 <= Length(m, part)
    requires Offset(m, part) + Length(m, part) <= |m.sources[part.file]|
  {
    m.sources[part.file][Offset(m, part)..Offset(m, part) + Length(m, part)]
  }

  ghost predicate Genuine(m: Manifest, r: Request)
    requires WellFormed(m)
  {
    ValidPart(m, r.part) && (PartBounds(m, r.part); r.data == Slice(m, r.part))
  }

  // The tasks of a process are the manifest's chunks that its resume map lacks.
  ghost predicate TasksFor(m: Manifest, resume: set<Part>, tasks: seq<Part>) {
    forall p :: p in tasks <==> p in AllParts(m.files) && p !in resume
  }

  // --- steps --------------------------------------------------------------------

  ghost predicate Enabled(m: Manifest, s: System, step: Step)
    requires WellFormed(m)
  {
    match step
    case StartProcess(pid, workers) => pid !in s.processes
    case ReadStatus(pid, resume, tasks, workers) =>
      pid in s.processes && s.processes[pid].AwaitingStatus? && resume in s.statusAnswers
      && workers > 0 && TasksFor(m, resume, tasks)
    case PoolMove(pid, move) =>
      && pid in s.processes && s.processes[pid].Feeding?
      && WorkerPool.Enabled(s.processes[pid].pool, move)
      // a send succeeds only on a successful reply to that chunk
      && (move.SendOk? ==> s.processes[pid].pool.workers[move.w].task in s.replies)
    case SendRequest(pid, w) =>
      pid in s.processes && s.processes[pid].Feeding?
      && w < |s.processes[pid].pool.workers| && s.processes[pid].pool.workers[w].Sending?
      && ValidPart(m, s.processes[pid].pool.workers[w].task)
    case IssueComplete(pid) =>
      pid in s.processes && s.processes[pid].Feeding? && s.processes[pid].pool.phase.Completing?
    case Deliver(hid, r) =>
      hid !in s.handlers && r in s.requests && s.receiving
      && ChunkAccepted(m.files, r.part, r.data, r.checksum, m.hash)
    case PartialWrite(hid, after) =>
      && hid in s.handlers && s.handlers[hid].Writing?
      && 0 <= Offset(m, s.handlers[hid].request.part)
      && TornWrite(Contents(s.partials, s.handlers[hid].request.part.file),
                   Offset(m, s.handlers[hid].request.part), s.handlers[hid].request.data, after)
    case FinishWrite(hid) =>
      hid in s.handlers && s.handlers[hid].Writing? && 0 <= Offset(m, s.handlers[hid].request.part)
    case SaveRow(hid) => hid in s.handlers && s.handlers[hid].Synced?
    case Reply(hid) => hid in s.handlers && s.handlers[hid].RowSaved?
    case GiveUp(hid) => hid in s.handlers
    case _ => true
  }

  function Contents(partials: map<string, Bytes>, file: string): Bytes {
    if file in partials then partials[file] else []
  }

  ghost function Apply(m: Manifest, s: System, step: Step): System
    requires WellFormed(m) && Enabled(m, s, step)
  {
    match step
    case StartProcess(pid, workers) => s.(processes := s.processes[pid := AwaitingStatus])
    case ReadStatus(pid, resume, tasks, workers) =>
      s.(processes := s.processes[pid := Feeding(resume, WorkerPool.Start(tasks, workers))])
    case PoolMove(pid, move) =>
      var p := s.processes[pid];
      s.(processes := s.processes[pid := p.(pool := WorkerPool.Apply(p.pool, move))])
    case SendRequest(pid, w) =>
      var part := s.processes[pid].pool.workers[w].task;
      PartBounds(m, part);
      s.(requests := s.requests + {Request(part, Slice(m, part), m.hash(Slice(m, part)))})
    case IssueComplete(pid) => s.(completeIssued := true)
    case SenderCrash => s.(processes := map[])
    case AnswerStatus => s.(statusAnswers := s.statusAnswers + {s.rows})
    case Deliver(hid, r) => s.(handlers := s.handlers[hid := Writing(r)])
    case PartialWrite(hid, after) =>
      s.(partials := s.partials[s.handlers[hid].request.part.file := after])
    case FinishWrite(hid) =>
      var r := s.handlers[hid].request;
      s.(partials := s.partials[r.part.file := WriteAt(Contents(s.partials, r.part.file), Offset(m, r.part), r.data)],
         handlers := s.handlers[hid := Synced(r)])
    case SaveRow(hid) =>
      var r := s.handlers[hid].request;
      s.(rows := s.rows + {r.part}, handlers := s.handlers[hid := RowSaved(r)])
    case Reply(hid) => s.(replies := s.replies + {s.handlers[hid].request.part}, handlers := s.handlers - {hid})
    case GiveUp(hid) => s.(handlers := s.handlers - {hid})
    case SetReceiving(receiving) => s.(receiving := receiving)
    case ReceiverCrash => s.(handlers := map[])
  }

  // --- what the disk holds --------------------------------------------------------

  // The partial file holds this chunk of the source.
  ghost predicate Holds(m: Manifest, partials: map<string, Bytes>, part: Part)
    requires WellFormed(m) && ValidPart(m, part)
  {
    PartBounds(m, part);
    && part.file in partials
    && Offset(m, part) + Length(m, part) <= |partials[part.file]|
    && forall i :: Offset(m, part) <= i < Offset(m, part) + Length(m, part) ==>
        partials[part.file][i] == m.sources[part.file][i]
  }

  ghost predicate DiskSound(m: Manifest, partials: map<string, Bytes>, rows: set<Part>)
    requires WellFormed(m)
  {
    && (forall f :: f in m.files && f.id in partials ==> |partials[f.id]| <= f.size)
    && (forall p :: p in rows ==> ValidPart(m, p) && Holds(m, partials, p))
  }

  ghost predicate HandlerSound(m: Manifest, partials: map<string, Bytes>, rows: set<Part>, h: Handler)
    requires WellFormed(m)
  {
    && Genuine(m, h.request)
    && (!h.Writing? ==> Holds(m, partials, h.request.part))
    && (h.RowSaved? ==> h.request.part in rows)
  }

  ghost predicate HandlersSound(m: Manifest, partials: map<string, Bytes>, rows: set<Part>, handlers: map<nat, Handler>)
    requires WellFormed(m)
  {
    forall hid :: hid in handlers ==> HandlerSound(m, partials, rows, handlers[hid])
  }

  ghost predicate NetworkSound(m: Manifest, rows: set<Part>, requests: set<Request>, replies: set<Part>,
      answers: set<set<Part>>)
    requires WellFormed(m)
  {
    && (forall r :: r in requests ==> Genuine(m, r))
    && replies <= rows
    && (forall a :: a in answers ==> a <= rows)
  }

  // What one process has been told is on the receiver really is there.
  ghost predicate ProcessSound(m: Manifest, rows: set<Part>, p: Process) {
    p.Feeding? ==>
      && WorkerPool.Inv(p.pool)
      && p.resume <= rows
      && TasksFor(m, p.resume, p.pool.tasks)
      && (forall t :: t in p.pool.acknowledged ==> t in rows)
      && (forall w :: 0 <= w < |p.pool.workers| && p.pool.workers[w].Recording? ==> p.pool.workers[w].task in rows)
  }

  ghost predicate ProcessesSound(m: Manifest, rows: set<Part>, processes: map<nat, Process>) {
    forall pid :: pid in processes ==> ProcessSound(m, rows, processes[pid])
  }

  ghost predicate Inv(m: Manifest, s: System)
    requires WellFormed(m)
  {
    && DiskSound(m, s.partials, s.rows)
    && HandlersSound(m, s.partials, s.rows, s.handlers)
    && NetworkSound(m, s.rows, s.requests, s.replies, s.statusAnswers)
    && ProcessesSound(m, s.rows, s.processes)
    && (s.completeIssued ==> AllParts(m.files) <= s.rows)
  }

  // A genuine write, torn or whole, never damages any chunk already held.
  lemma TornWriteKeeps(m: Manifest, partials: map<string, Bytes>, r: Request, after: Bytes, part: Part)
    requires WellFormed(m) && Genuine(m, r) && ValidPart(m, part) && Holds(m, partials, part)
    requires TornWrite(Contents(partials, r.part.file), (PartBounds(m, r.part); Offset(m, r.part)), r.data, after)
    ensures Holds(m, partials[r.part.file := after], part)
  {
    PartBounds(m, part);
    PartBounds(m, r.part);
  }

  lemma WriteAtHolds(m: Manifest, partials: map<string, Bytes>, r: Request)
    requires WellFormed(m) && Genuine(m, r)
    ensures (PartBounds(m, r.part); 0 <= Offset(m, r.part))
    ensures Holds(m, partials[r.part.file := WriteAt(Contents(partials, r.part.file), Offset(m, r.part), r.data)], r.part)
  {
    PartBounds(m, r.part);
  }

  lemma TornLength(m: Manifest, contents: Bytes, r: Request, after: Bytes, f: File)
    requires WellFormed(m) && Genuine(m, r) && f in m.files && f.id == r.part.file && |contents| <= f.size
    requires TornWrite(contents, (PartBounds(m, r.part); Offset(m, r.part)), r.data, after)
    ensures |after| <= f.size
  {
    PartBounds(m, r.part);
    FindFileMember(m.files, f);
  }

  lemma WriteKeepsDisk(m: Manifest, partials: map<string, Bytes>, rows: set<Part>, r: Request, after: Bytes)
    requires WellFormed(m) && Genuine(m, r) && DiskSound(m, partials, rows)
    requires TornWrite(Contents(partials, r.part.file), (PartBounds(m, r.part); Offset(m, r.part)), r.data, after)
    ensures DiskSound(m, partials[r.part.file := after], rows)
  {
    forall p | p in rows ensures Holds(m, partials[r.part.file := after], p) {
      TornWriteKeeps(m, partials, r, after, p);
    }
    forall f | f in m.files && f.id in partials[r.part.file := after]
      ensures |partials[r.part.file := after][f.id]| <= f.size
    {
      if f.id == r.part.file {
        TornLength(m, Contents(partials, f.id), r, after, f);
      }
    }
  }

  lemma WriteKeepsHandlers(m: Manifest, partials: map<string, Bytes>, rows: set<Part>,
      handlers: map<nat, Handler>, r: Request, after: Bytes)
    requires WellFormed(m) && Genuine(m, r) && HandlersSound(m, partials, rows, handlers)
    requires TornWrite(Contents(partials, r.part.file), (PartBounds(m, r.part); Offset(m, r.part)), r.data, after)
    ensures HandlersSound(m, partials[r.part.file := after], rows, handlers)
  {
    forall hid | hid in handlers ensures HandlerSound(m, partials[r.part.file := after], rows, handlers[hid]) {
      if !handlers[hid].Writing? {
        TornWriteKeeps(m, partials, r, after, handlers[hid].request.part);
      }
    }
  }

  // What one move of the pool acknowledges, and which worker it lets record.
  lemma MoveAcknowledges(pool: Pool, move: WorkerPool.Step, t: Part)
    requires WorkerPool.Enabled(pool, move) && t in WorkerPool.Apply(pool, move).acknowledged
    ensures t in pool.acknowledged || (move.RecordOk? && t == pool.workers[move.w].task)
  {
  }

  lemma MoveRecords(pool: Pool, move: WorkerPool.Step, w: nat)
    requires WorkerPool.Enabled(pool, move)
    ensures var after := WorkerPool.Apply(pool, move);
      && after.tasks == pool.tasks && |after.workers| == |pool.workers|
      && (w < |after.workers| && after.workers[w].Recording? ==>
            if move.SendOk? && move.w == w then after.workers[w].task == pool.workers[w].task
            else pool.workers[w] == after.workers[w])
  {
  }

  lemma PoolMoveKeeps(m: Manifest, rows: set<Part>, p: Process, move: WorkerPool.Step)
    requires p.Feeding? && ProcessSound(m, rows, p) && WorkerPool.Enabled(p.pool, move)
    requires move.SendOk? ==> p.pool.workers[move.w].task in rows
    ensures ProcessSound(m, rows, p.(pool := WorkerPool.Apply(p.pool, move)))
  {
    hide WorkerPool.Inv, WorkerPool.Apply, TasksFor;
    StepInv(p.pool, move);
    MoveRecords(p.pool, move, 0);
    var after := WorkerPool.Apply(p.pool, move);
    forall t | t in after.acknowledged ensures t in rows {
      MoveAcknowledges(p.pool, move, t);
    }
    forall w | 0 <= w < |after.workers| && after.workers[w].Recording? ensures after.workers[w].task in rows {
      MoveRecords(p.pool, move, w);
    }
  }

  lemma CompleteMeansAllRows(m: Manifest, rows: set<Part>, p: Process)
    requires p.Feeding? && ProcessSound(m, rows, p) && p.pool.phase.Completing?
    ensures AllParts(m.files) <= rows
  {
    CompletingAcknowledgedAll(p.pool);
  }

  lemma SenderStepInv(m: Manifest, s: System, step: Step)
    requires WellFormed(m) && Inv(m, s) && Enabled(m, s, step)
    requires step.StartProcess? || step.ReadStatus? || step.PoolMove? || step.SenderCrash?
    ensures Inv(m, Apply(m, s, step))
  {
    hide WorkerPool.Inv, DiskSound, HandlersSound;
    match step
    case ReadStatus(pid, resume, tasks, workers) => StartInv(tasks, workers);
    case PoolMove(pid, move) => PoolMoveKeeps(m, s.rows, s.processes[pid], move);
    case _ =>
  }

  lemma IssueCompleteInv(m: Manifest, s: System, step: Step)
    requires WellFormed(m) && Inv(m, s) && Enabled(m, s, step) && step.IssueComplete?
    ensures Inv(m, Apply(m, s, step))
  {
    CompleteMeansAllRows(m, s.rows, s.processes[step.pid]);
  }

  lemma SendRequestInv(m: Manifest, s: System, step: Step)
    requires WellFormed(m) && Inv(m, s) && Enabled(m, s, step) && step.SendRequest?
    ensures Inv(m, Apply(m, s, step))
  {
    PartBounds(m, s.processes[step.pid].pool.workers[step.w].task);
  }

  lemma PartialWriteInv(m: Manifest, s: System, step: Step)
    requires WellFormed(m) && Inv(m, s) && Enabled(m, s, step) && step.PartialWrite?
    ensures Inv(m, Apply(m, s, step))
  {
    var h := s.handlers[step.hid];
    assert HandlerSound(m, s.partials, s.rows, h);
    PartBounds(m, h.request.part);
    WriteKeepsDisk(m, s.partials, s.rows, h.request, step.after);
    WriteKeepsHandlers(m, s.partials, s.rows, s.handlers, h.request, step.after);
  }

  lemma FinishWriteInv(m: Manifest, s: System, step: Step)
    requires WellFormed(m) && Inv(m, s) && Enabled(m, s, step) && step.FinishWrite?
    ensures Inv(m, Apply(m, s, step))
  {
    var h := s.handlers[step.hid];
    var r := h.request;
    assert HandlerSound(m, s.partials, s.rows, h);
    PartBounds(m, r.part);
    var after := WriteAt(Contents(s.partials, r.part.file), Offset(m, r.part), r.data);
    WriteAtIsTorn(Contents(s.partials, r.part.file), Offset(m, r.part), r.data);
    WriteKeepsDisk(m, s.partials, s.rows, r, after);
    WriteKeepsHandlers(m, s.partials, s.rows, s.handlers, r, after);
    WriteAtHolds(m, s.partials, r);
  }

  lemma SaveRowInv(m: Manifest, s: System, step: Step)
    requires WellFormed(m) && Inv(m, s) && Enabled(m, s, step) && step.SaveRow?
    ensures Inv(m, Apply(m, s, step))
  {
    var h, t := s.handlers[step.hid], Apply(m, s, step);
    assert HandlerSound(m, s.partials, s.rows, h);
    forall pid | pid in t.processes ensures ProcessSound(m, t.rows, t.processes[pid]) {
      assert ProcessSound(m, s.rows, s.processes[pid]);
    }
  }

  lemma ReceiverStepInv(m: Manifest, s: System, step: Step)
    requires WellFormed(m) && Inv(m, s) && Enabled(m, s, step)
    requires step.AnswerStatus? || step.Deliver? || step.Reply? || step.GiveUp? || step.SetReceiving? || step.ReceiverCrash?
    ensures Inv(m, Apply(m, s, step))
  {
    hide DiskSound, ProcessesSound, Holds, Genuine;
    if step.Reply? {
      assert HandlerSound(m, s.partials, s.rows, s.handlers[step.hid]);
    }
  }

  lemma StepKeepsInv(m: Manifest, s: System, step: Step)
    requires WellFormed(m) && Inv(m, s) && Enabled(m, s, step)
    ensures Inv(m, Apply(m, s, step))
  {
    hide Inv;
    match step
    case StartProcess(_, _) => SenderStepInv(m, s, step);
    case ReadStatus(_, _, _, _) => SenderStepInv(m, s, step);
    case PoolMove(_, _) => SenderStepInv(m, s, step);
    case IssueComplete(_) => IssueCompleteInv(m, s, step);
    case SenderCrash => SenderStepInv(m, s, step);
    case SendRequest(_, _) => SendRequestInv(m, s, step);
    case PartialWrite(_, _) => PartialWriteInv(m, s, step);
    case FinishWrite(_) => FinishWriteInv(m, s, step);
    case SaveRow(_) => SaveRowInv(m, s, step);
    case _ => ReceiverStepInv(m, s, step);
  }

  ghost predicate Valid(m: Manifest, s: System, steps: seq<Step>)
    requires WellFormed(m)
    decreases |steps|
  {
    steps == [] || (Enabled(m, s, steps[0]) && Valid(m, Apply(m, s, steps[0]), steps[1..]))
  }

  ghost function Run(m: Manifest, s: System, steps: seq<Step>): System
    requires WellFormed(m) && Valid(m, s, steps)
    decreases |steps|
  {
    if steps == [] then s else Run(m, Apply(m, s, steps[0]), steps[1..])
  }

  lemma FirstStep(m: Manifest, s: System, step: Step, rest: seq<Step>)
    requires WellFormed(m) && Enabled(m, s, step) && Valid(m, Apply(m, s, step), rest)
    ensures Valid(m, s, [step] + rest) && Run(m, s, [step] + rest) == Run(m, Apply(m, s, step), rest)
  {
    hide Enabled, Apply, WellFormed;
    assert ([step] + rest)[1..] == rest;
  }

  // A run can be continued by any run from where it ends.
  lemma {:induction false} RunJoins(m: Manifest, s: System, steps: seq<Step>, more: seq<Step>)
    requires WellFormed(m) && Valid(m, s, steps) && Valid(m, Run(m, s, steps), more)
    ensures Valid(m, s, steps + more) && Run(m, s, steps + more) == Run(m, Run(m, s, steps), more)
    decreases |steps|
  {
    hide Enabled, Apply, WellFormed;
    if steps == [] {
      assert steps + more == more;
    } else {
      assert (steps + more)[1..] == steps[1..] + more;
      RunJoins(m, Apply(m, s, steps[0]), steps[1..], more);
    }
  }

  lemma {:induction false} RunInv(m: Manifest, s: System, steps: seq<Step>)
    requires WellFormed(m) && Inv(m, s) && Valid(m, s, steps)
    ensures Inv(m, Run(m, s, steps))
    decreases |steps|
  {
    hide Inv;
    if steps != [] {
      StepKeepsInv(m, s, steps[0]);
      RunInv(m, Apply(m, s, steps[0]), steps[1..]);
    }
  }

  lemma ByteDelivered(m: Manifest, s: System, f: File, i: int)
    requires WellFormed(m) && Inv(m, s) && AllParts(m.files) <= s.rows && f in m.files && !f.directory
    requires 0 <= i < f.size
    ensures f.id in s.partials && i < |s.partials[f.id]| && s.partials[f.id][i] == m.sources[f.id][i]
  {
    FindFileMember(m.files, f);
    ByteHasChunk(f.size, f.chunkSize, i);
    var p := Part(f.id, i / f.chunkSize);
    InAllParts(m.files, p);
    assert Holds(m, s.partials, p);
    ChunksTile(f.size, f.chunkSize, p.index, i);
  }

  lemma AllRowsMeanIdentical(m: Manifest, s: System, f: File)
    requires WellFormed(m) && Inv(m, s) && AllParts(m.files) <= s.rows && f in m.files && !f.directory
    ensures Contents(s.partials, f.id) == m.sources[f.id]
    ensures 0 < f.size ==> f.id in s.partials
  {
    var partial := Contents(s.partials, f.id);
    if 0 < f.size {
      ByteDelivered(m, s, f, f.size - 1);
    }
    forall i | 0 <= i < |partial| ensures partial[i] == m.sources[f.id][i] {
      ByteDelivered(m, s, f, i);
    }
  }

  // End to end: in every run, from the moment any sender process issues its
  // first complete request, every chunk row is present, every partial equals
  // its source byte for byte, and Finalize's verdict on every file is positive.
  lemma ExactDelivery(m: Manifest, steps: seq<Step>)
    requires WellFormed(m) && Valid(m, EMPTY, steps)
    requires Run(m, EMPTY, steps).completeIssued
    ensures Run(m, EMPTY, steps).rows == AllParts(m.files)
    ensures forall f :: f in m.files && !f.directory ==>
      && Contents(Run(m, EMPTY, steps).partials, f.id) == m.sources[f.id]
      && FileVerified(f, Run(m, EMPTY, steps).rows,
          if f.id in Run(m, EMPTY, steps).partials then Some(Run(m, EMPTY, steps).partials[f.id]) else None, m.hash)
  {
    RunInv(m, EMPTY, steps);
    var s := Run(m, EMPTY, steps);
    assert s.rows == AllParts(m.files);
    forall f | f in m.files && !f.directory
      ensures Contents(s.partials, f.id) == m.sources[f.id]
      ensures FileVerified(f, s.rows, if f.id in s.partials then Some(s.partials[f.id]) else None, m.hash)
    {
      AllRowsMeanIdentical(m, s, f);
      FittingCountCovers(f.size, f.chunkSize);
      CountImpliesComplete(m.files, s.rows, f);
      forall p | p in FileParts(f, f.chunkCount) ensures p in s.rows {
        InAllParts(m.files, p);
      }
    }
  }
}
