# SyncSpace verification

This project models the peer-to-peer file transfer engine of SyncSpace in Dafny
and proves its protocol properties. It covers four stateful protocols and the
pieces they stand on.

* **Chunked, resumable transfers.** A sender builds a manifest, offers it, reads
  back the receiver's resume map and feeds the missing chunks through a bounded
  worker pool. The receiver writes chunks by offset, records rows, derives
  progress, verifies by counting and hashing, and commits under a conflict policy,
  through pauses, retries, crashes and late requests.
* **Pairing.** Two services exchange begins, responses, proofs and decisions; both
  users compare a code and confirm, and only then is trust written.
* **Discovery.** A registry, its event log, a bounded fan-out broker and late-joining
  sockets that must converge.
* **The runtime supervisor** over coalesced settings notifications.

## How it is organised

| files | content |
|---|---|
| Results, Sums, Sorting, Transfers | shared types, sums over sets, stable sorting, the transfer record |
| Chunking, Paths, Receiving | chunk arithmetic in int64, lexical paths, one chunk and one finished file |
| Store | the SQLite tables and their refinement of a map of transfers |
| Lifecycle, Interleaving | the status machine per call, and the calls split at their store operations |
| Outbound, WorkerPool, Sender, Delivery, Resumption | the sender's goroutines and their status writes, its worker pool, its loops, the whole transfer over a bad network, and how it goes on after anything |
| Disk, Committing, Approval | the file system, the commit loop's frame, which approvals are safe |
| Sessions, Offers, Staging, Accounts, Service | stored sessions, accepted offers, the partial files of all sessions, progress against the rows, the receiving service |
| Verifying, Obstruction, UnsafeApprovals | the verification loop, partials that obstruct each other, approvals that go wrong |
| Persistence, Simulation, Completion | the service on its store, the service as the delivery system's receiver, Finalize after a delivery |
| Manifests, Replay, Dispatch | manifest producer and validator, nonce cache, the queue |
| Pairing, PairingEffects, PairingService | the pairing calls as functions, their effects, the service class |
| PairingLaws, PairingRuns, PairingReplay, PairingSystem, PairingExchange | what each pairing call does for its caller, whole lives of one service, replayed begins, two services, an undisturbed exchange |
| Registry, Brokers, Sockets | discovery and its event streams |
| Settings, Supervisor | the settings store and the supervising loop |

Methods that change state in the program are methods of classes here, each proved
against a function of the old state; what the program promises is proved about those
functions. Concurrency is a `Step` datatype with one constructor per atomic action,
and a statement about "every run" quantifies over every sequence of enabled steps.

## Hypotheses

* File IDs of an offer are distinct, `size + chunkSize - 1` fits int64 for each file and
  the total fits int64 (`Offers.Unambiguous`): ReceiveOffer checks none of the three.
  `Chunking.CountCoversIffFits` and `Chunking.TotalFitsIff` say what the 64-bit
  arithmetic does beyond.
* Source files do not change during a transfer (`Delivery`).
* No ReceiveChunk is in flight when Finalize starts; the sender's wait supplies this
  (backend/internal/transfer/sender.go:173), and `Interleaving.VerifyingLost` shows
  what happens otherwise.
* The statements about file lengths (`Staging`) are for destinations outside the staging
  directory and for sessions that find nothing longer than their own files left over
  there; `UnsafeApprovals.CompletedOverAnother` shows the first to be needed and
  `Staging.NewSessionStagedIff` the second. A file whose partial an earlier, failed commit
  took has its size unless SHA-256 collides on the two contents.
* Discovery events are published in the order of the registry's lock, although the
  code publishes after releasing it (backend/internal/discovery/registry.go:101-106);
  `Registry.SwapIff` says exactly which events may change places.
* Request IDs are generated once; signatures and MACs are unforgeable
  and derived secrets collide only for equal inputs; the two devices' identity hints
  differ. X25519 commutes (section 6.1 of RFC 7748) and HKDF is a function of its
  inputs (section 2 of RFC 5869). Begin requests and begin responses have the same
  canonical fields, so the model has one type for both and lets either be delivered
  as the other.
* Clocks do not go back and lie between 1970 and the year 146 billion.
* SHA-256, UUID parsing, Unicode case folding and trimming are parameters.
* Stores and disks may fail at any operation. `steady`, `durable` and `reliable` name those
  on which none fails by itself; only for these is it stated that an operation succeeds.

## Where the code falls short of its promise

* docs/transfer-protocol.md has a changed offer under an existing ID rejected; the code
  returns the stored session as it is (backend/internal/transfer/service.go:294-295).
  `Service.TransferService.ReceiveOffer` follows the code.
* docs/database.md gives every transfer one mirror row; Sending, Receiving and
  Verifying have none (backend/internal/transfer/sqlite_store.go:89-102).
* Under the overwrite policy a Completed transfer can lack a file: when an earlier
  destination is a later file's partial, its bytes are overwritten and then moved on.
  `Service.TransferService.Finalize` has the exact condition, `Approval.ApprovalAboveIff`
  puts it in terms of the manifest and the chosen directory, and
  `UnsafeApprovals.CompletedWithoutFile` is the failing input.
* A session approved into another one's staging directory can overrun a partial there
  (`UnsafeApprovals.CompletedOverAnother`).
* Chunk writes never shorten a file. A new session whose ID and paths meet longer partials
  of a deleted one starts outside the length bound (`Staging.NewSessionStagedIff`).
* Used nonces and begun requests are remembered only in memory and pruned by clock
  readings taken before the lock: `Replay.NoReplayIff` and `PairingReplay.BeginOnceIff`
  give the exact bounds on stalls and on the time between two processes. The request
  lifetime is configurable, and below 241 seconds a begin can be replayed.
* A file `a` and a file `a.part/b` are accepted in one manifest although their partials
  obstruct each other (`Obstruction`).
* An initiator's rejection does not outlive a decision of its peer that is none:
  applyPeerDecision does not look at the session's state (backend/internal/pairing/service.go:544-551);
  `PairingRuns.DecisionUndoesIff` says when that writes trust.
* Two devices using one request ID crash RequestPairing (`PairingRuns.SharedIdCrashes`).

## Model

| member | source | states |
|---|---|---|
| Delivery.ExactDelivery | backend/internal/transfer/sender.go:91-183 | In every run - any number of sender processes, chunks lost, repeated, reordered, applied though the reply was lost, torn by crashes of either side - once the sender has issued its completion request every partial equals its source byte for byte and passes Finalize's count and checksum tests. |
| Resumption.AlwaysResumable | backend/internal/transfer/sender.go:91-183 | From every state that any run can reach, with any number of workers: one more attempt that nothing disturbs gets to its completion request, every partial then equals its source, and no chunk recorded before is sent again. |
| Delivery.StepKeepsInv | backend/internal/transfer/service.go:535-607 | Every protocol step, interrupted writes included, keeps: a row exists only for a chunk whose bytes are on disk, and replies, status answers and the senders' acknowledgements name only such rows. |
| Delivery.RunJoins | backend/internal/transfer/service.go:535-607 | A run is continued by any run from where it ends, so the service's calls add up to one. |
| Delivery.TornWriteKeeps | backend/internal/transfer/service.go:585-600 | A whole or torn write of a genuine chunk leaves every chunk already held intact. |
| Delivery.CompleteMeansAllRows | backend/internal/transfer/sender.go:174-183 | A process that reaches the completion call has every manifest chunk recorded at the receiver. |
| Sender.EnumerateTasks | backend/internal/transfer/sender.go:152-171 | The nested loop yields the missing chunks of the non-directory files in manifest order. |
| Sender.MissingExact | backend/internal/transfer/sender.go:152-171 | Each chunk absent from the resume map is enumerated exactly once, and nothing else is. |
| Sender.EnumerationFeedsDelivery | backend/internal/transfer/sender.go:116-171 | The loop's output is what a process of the delivery system starts from. |
| Sender.SendChunk | backend/internal/transfer/sender.go:199-271 | At most three identical requests with the chunk's bytes and checksum; success exactly when one is acknowledged; fewer than three failing requests only for a source that cannot be opened, read or is too short, a cancellation before or after an attempt, or an attempt whose request or client cannot be made. |
| Sender.UnchangedIsReadable | backend/internal/transfer/sender.go:205-217 | Every chunk of an unchanged source can be read, and none of a source that ends before it. |
| Sender.SentIsGenuine | backend/internal/transfer/sender.go:205-217 | The request sendChunk builds from an unchanged source is the genuine one of the delivery system. |
| WorkerPool.PoolConservation | backend/internal/transfer/sender.go:116-183 | For any workers and interleaving, enumerated chunks are exactly queued, in flight, acknowledged or dropped, and at most two per worker are queued; a drop implies cancellation; reaching completion implies the acknowledged multiset is the list of tasks. |
| WorkerPool.NeverStuck | backend/internal/transfer/sender.go:152-173 | While the pool is busy some goroutine can move without outside help, and when all workers have quit early the enqueuer's cancellation case is ready. |
| WorkerPool.PoolTerminates | backend/internal/transfer/sender.go:127-179 | No schedule is longer than the pool's rank, so every pool returns. |
| Receiving.CountImpliesComplete | backend/internal/transfer/service.go:642-648 | With the index guard, as many distinct indexes as chunks means exactly the indexes 0 .. chunkCount-1 (pigeonhole), and conversely. |
| Receiving.TornKeepsLength | backend/internal/transfer/service.go:581-600 | Any part of an accepted chunk, whoever sent it, keeps the partial no longer than the manifest size and reaching every recorded chunk's end. |
| Receiving.WrittenIsCovered | backend/internal/transfer/service.go:581-605 | A chunk written whole may be recorded: the partial reaches its end as well. |
| Receiving.CompleteLength | backend/internal/transfer/service.go:642-660 | When all chunks are recorded such a partial's length is the manifest size. |
| Staging.ChunkStaged | backend/internal/transfer/service.go:581-605 | In the service: whatever became of one chunk write - whole, torn, row saved or not - every session's partials stay within their manifest sizes and reach every recorded chunk's end, until a commit takes them. |
| Staging.NewSessionStagedIff | backend/internal/transfer/service.go:294-313 | A new session starts in that state exactly when no file that an earlier session left at one of its partial paths is longer than its manifest says. |
| Staging.ApprovalKeepsStaging | backend/internal/transfer/service.go:336-378 | An approval keeps the state when no destination lies in the staging directory. |
| Staging.OutcomeKeepsStaging | backend/internal/transfer/service.go:383-533 | Every other lifecycle call keeps it, and keeps the stored sessions sound. |
| Staging.VerifiedIsSized | backend/internal/transfer/service.go:642-667 | In that state a file that passes the count and the checksum has exactly its manifest size, unless an earlier commit took its partial and these are other bytes with the digest of the taken ones. |
| Staging.CommitKeepsStaging | backend/internal/transfer/service.go:668-686 | A commit, finished or not, keeps it too: it takes only verified partials of its own session. |
| Staging.DeletionKeepsStaging | backend/internal/transfer/sqlite_store.go:154-176 | So does deleting the history, which forgets the sessions and leaves their files. |
| Sessions.AdmittedChunk | backend/internal/transfer/service.go:540-580 | ReceiveChunk's guards accept exactly the chunks with the right token, state, index, length and checksum, and then the offset does not go negative. |
| Sessions.WhyRefused | backend/internal/transfer/service.go:540-580 | And why the others are refused: a wrong token, a missing approval and a wrong state come first, then a chunk that the manifest does not have or not with that length, and a wrong checksum only for one that it does. |
| Service.TransferService.ReceiveChunk | backend/internal/transfer/service.go:535-607 | A chunk is stored, counted and answered Ok exactly when every guard admits it and disk and store take it, which steady ones do; a refused one gets the guard's error and changes nothing; an admitted one writes only its partial, adds exactly its row and sets this transfer's progress to what the rows count; a failure leaves every record as it was, progress never falls, and every session's partials stay sound. |
| Service.TransferService.StoreChunk | backend/internal/transfer/service.go:581-605 | The row is saved only after the bytes are at their offset; a failure adds no row and leaves at most a torn write of the chunk. |
| Service.TransferService.RefreshProgress | backend/internal/transfer/service.go:695-733 | The stored and returned progress is the sum of the manifest sizes of the chunks with a complete row: in [0, Size], and Size exactly when no chunk is missing; no transfer's progress falls, nothing else of the record changes, and on a steady store it succeeds. |
| Service.TransferService.SumRows | backend/internal/transfer/service.go:707-712 | The loop computes the sum of the complete rows' manifest sizes. |
| Accounts.RowAccounted | backend/internal/transfer/service.go:597-607 | One more row keeps every stored progress within what the rows count: a progress is never ahead of the rows. |
| Accounts.OutcomeAccounted | backend/internal/transfer/service.go:383-533 | The lifecycle calls keep it too, and lower nobody's progress. |
| Accounts.ApprovalAccounted | backend/internal/transfer/service.go:336-378 | So does an approval: destinations count nothing. |
| Accounts.DeletionAccounted | backend/internal/transfer/sqlite_store.go:154-176 | And deleting the history, for the sessions that stay. |
| Service.TransferService.VerifyFiles | backend/internal/transfer/service.go:642-667 | Success means every file's count and checksum hold of its regular partial; the named failures mean a file that misses chunks or hashes differently; only directories and empty partials are created; on a disk that does not fail it succeeds whenever counts and checksums are right and the missing empty partials can be made. |
| Service.TransferService.VerifyFile | backend/internal/transfer/service.go:642-667 | One file: missing chunks are reported exactly when the count differs, whatever is on disk, and a storage failure only for a file that misses none and, on a disk that does not fail, has no readable partial. |
| Verifying.CreationKeepsVerifiable | backend/internal/transfer/service.go:650-659 | Creating one empty partial on the way leaves every other file verifiable, when no partial's name runs through another's. |
| Service.TransferService.CommitFiles | backend/internal/transfer/service.go:668-686 | A commit that runs to its end has placed every entry if no earlier destination was a later destination or partial, and has left every file at a target of its own only if so; on a disk that does not fail an unhindered one always runs to its end; whatever the outcome, files outside the transfer are unchanged. |
| Service.TransferService.Finalize | backend/internal/transfer/service.go:609-689 | A Completed transfer has, per file, exactly the chunks 0 .. n-1 and bytes with the manifest checksum at a target of its own, exactly when the commit was safe. Then the bytes are those of the partial, and, with sound partials, as many as the manifest says for every file whose partial no earlier commit took. MissingChunks is returned only when a row is missing and ChecksumMismatch only when a hash differs. On a steady store an admitted call that is not Ok leaves the record Failed with its finish time, so that a retry makes it receive again; Verifying stays only when a store write failed. A verified, unhindered session is completed when neither disk nor store fails; under rename and prompt nothing that existed before is changed, whatever the outcome; refused calls name the guard and change nothing. |
| Service.TransferService.Conclude | backend/internal/transfer/service.go:646-689 | The last save: Completed with the whole size, or Failed with the problem's error, each with the finish time. |
| Verifying.VerifiedHashed | backend/internal/transfer/service.go:642-667 | The verification's verdict in terms of the disk before it: every partial, an absent empty one included, has its manifest checksum. |
| Service.TransferService.DeleteHistory | backend/internal/transfer/service.go:324 | The terminal sessions and their rows go, the others stay with theirs, and the partials of those stay sound; on a steady store it succeeds. |
| Service.PlacedVerified | backend/internal/transfer/service.go:642-686 | The commit loop's result carries the verification loop's verdict to the final paths. |
| Service.PlacedSized | backend/internal/transfer/service.go:642-686 | And the files' sizes: outright where no earlier commit took the partial. |
| Service.PlacedMoved | backend/internal/transfer/service.go:668-686 | And the partials' very bytes. |
| Simulation.ReceiveSimulated | backend/internal/transfer/service.go:535-607 | The service refines the delivery system's receiver: whatever becomes of a chunk call on a session that mirrors a state of it, some of its steps lead to the new rows and partials, and an acknowledgement is one of its replies. |
| Simulation.StatusAnswered | backend/internal/transfer/service.go:500-519 | The answer to a status question is one that the delivery system gives in the mirrored state, so that a sender may start from it. |
| Simulation.StatusSimulated | backend/internal/transfer/service.go:326-533 | A lifecycle call or an acceptance is the step that opens or closes the receiver. |
| Simulation.OthersKeepMirror | backend/internal/transfer/service.go:500-533 | The sender's and the network's steps leave the mirrored session alone. |
| Simulation.OfferedMirrors | backend/internal/transfer/service.go:294-313 | A session just offered, without rows or partials, mirrors the start. |
| Completion.VerifyDelivered | backend/internal/transfer/service.go:628-667 | When the sender's completion request reaches a session that mirrors a run of the delivery system, VerifyFiles reports neither missing chunks nor a checksum mismatch: only the disk can make it fail. |
| Completion.FinalizeDelivered | backend/internal/transfer/service.go:609-689 | End to end: such a session, once Completed by a safe commit, has exactly the sender's bytes at the target of every file. |
| UnsafeApprovals.LosingManifestAccepted | backend/internal/transfer/service.go:262-293 | A manifest of 'id/b.part' and 'b', with any well-formed IDs, checksums and sizes, passes every check of ReceiveOffer and is stored in that order. |
| UnsafeApprovals.CompletedWithoutFile | backend/internal/transfer/service.go:609-689 | Approved into the parent of its staging directory under overwrite, with all chunks and checksums right and no fault of disk or store, it is reported Completed although a file is missing. |
| UnsafeApprovals.OverrunManifestAccepted | backend/internal/transfer/service.go:262-293 | A manifest with a file called like the partial of any valid path passes every check too. |
| UnsafeApprovals.CompletedOverAnother | backend/internal/transfer/service.go:609-689 | Approved into the staging directory of another session, it completes and leaves that session a partial longer than its manifest says: the destinations' place is needed for the length bound. |
| Committing.FileStep | backend/internal/transfer/service.go:679-685 | Moving one more partial in a safe commit keeps all earlier files in place, all later partials untouched and all bystanders unchanged, also when a manifest name equals a generated candidate. |
| Committing.TargetIsFresh | backend/internal/transfer/service.go:679-685 | In a safe commit a resolved target is no earlier target and no later partial; it may be a partial already moved. |
| Committing.PlacedOnlyIfSafe | backend/internal/transfer/service.go:679-685 | An overwriting commit that ran to its end with every file at its own target was safe. |
| Committing.FolderStep | backend/internal/transfer/service.go:673-678 | Creating a manifest directory disturbs nothing committed or waiting. |
| Disk.FileSystem.ResolveConflict | backend/internal/transfer/files.go:180-207 | A free path is kept; overwrite keeps it, prompt refuses, rename returns the first free candidate below 10000 or reports that all are taken. |
| Disk.CandidatesDiffer | backend/internal/transfer/files.go:192-201 | The names that rename tries are the stem, the number in brackets and the extension; all differ from each other and from the path. |
| Disk.FileSystem.CommitFile | backend/internal/transfer/service.go:1010-1054 | Rename or copy-and-delete: success moves exactly the source's bytes; failure never loses the source; only source and target are touched; a disk that does not fail moves a regular source to any writable target. |
| Disk.FileSystem.WriteChunk | backend/internal/transfer/service.go:582-600 | A positional write touches one file; a failed one leaves at most a torn write of the same bytes; it succeeds only where no regular file stands for one of its directories and no directory at its path, and there always on a disk that does not fail. |
| Disk.FileSystem.CreateEmpty | backend/internal/transfer/service.go:650-659 | An existing partial is kept, a missing one becomes empty. |
| Disk.FileSystem.MkdirAll | backend/internal/transfer/service.go:1011-1013 | Only ancestors of the directory are created, nothing is replaced. |
| Service.TransferService.ReceiveOffer | backend/internal/transfer/service.go:221-315 | Unauthenticated offers change neither store nor nonce cache. On a steady store an offer is accepted exactly when its IDs are UUIDs, the device is trusted with a known key that signed this offer within two minutes of the clock, the nonce has not been used for five minutes, it comes from the discovered address, and its terms and manifest are valid; each refusal has its error. A known ID returns the stored session as is, even for a changed offer; otherwise one queued, unapproved session is added, its files in the order in which the store returns them. |
| Offers.AuthenticIff | backend/internal/transfer/service.go:221-257 | Who may make an offer, written out: a trusted device whose key signed this very offer, with a nonce, at most two minutes from the clock (for every timestamp but the one without an int64 distance). |
| Offers.NewSessionWaits | backend/internal/transfer/service.go:294-313 | A new session waits for the user: only an acceptance makes it receive. |
| Offers.OfferedIsSound | backend/internal/transfer/service.go:262-313 | The session stored for a valid manifest with distinct IDs and a total that fits int64 has distinct valid paths in path order, and its Size is the sum of its files' sizes. |
| Service.TransferService.Accept | backend/internal/transfer/service.go:326-381 | Exactly the unanswered inbound offers can be accepted. Destinations are the chosen root's components followed by the path's; under prompt none of them existed; with enough room, a free way to the root and no fault it succeeds; errors leave the store alone and the disk with at most new directories. |
| Service.TransferService.ChooseDestinations | backend/internal/transfer/service.go:354-367 | The destination loop: success gives every destination below the root and, under prompt, none of them exists; it fails only for an invalid path or, under prompt, a destination that is not free, and the conflict error names a real conflict. |
| Approval.ApprovalSafeIff | backend/internal/transfer/service.go:354-367 | Approved destinations never coincide, so the later overwriting commit is safe exactly when none is the partial of a file later in path order. |
| Approval.ApprovalElsewhere | backend/internal/transfer/service.go:354-367 | It is when the chosen directory is neither above nor below the staging directory. |
| Approval.ApprovalAboveIff | backend/internal/transfer/service.go:354-367 | Below the chosen directory, such as the home directory: exactly when the manifest does not name, earlier in path order, a partial of the transfer as seen from there. |
| Approval.ApprovalBelowIff | backend/internal/transfer/service.go:354-367 | Above the chosen directory: exactly when no partial of the transfer lies, as seen from there, at the path of an earlier file. |
| Approval.ApprovalAtStaging | backend/internal/transfer/service.go:354-367 | In the staging directory itself it always is, thanks to the path order. |
| Approval.ApprovalAtParentLoses | backend/internal/transfer/service.go:354-367 | In its parent it need not be: the files 'id/b.part' and 'b', whose commit nothing hinders. |
| Service.TransferService.Reject | backend/internal/transfer/service.go:383-392 | Ends an unapproved queued inbound session as Cancelled, otherwise changes nothing. |
| Service.TransferService.Pause | backend/internal/transfer/service.go:394-420 | Exactly the six active statuses become Paused. |
| Service.TransferService.Resume | backend/internal/transfer/service.go:422-446 | A paused inbound transfer receives again, an outbound one is resuming. |
| Service.TransferService.Cancel | backend/internal/transfer/service.go:448-469 | Everything but Completed and Cancelled becomes Cancelled. |
| Service.TransferService.ProtocolCancel | backend/internal/transfer/service.go:521-533 | The same for the peer, only with the session token. |
| Service.TransferService.ProtocolStatus | backend/internal/transfer/service.go:500-519 | The token's holder learns status and approval, and exactly the chunks with a complete row. |
| Service.TransferService.Retry | backend/internal/transfer/service.go:471-498 | A failed transfer is queued again, or receives again when inbound and approved. |
| Service.TransferService.Recover | backend/internal/transfer/service.go:759-785 | After a restart interrupted outbound work is queued, an interrupted verification receives again, and nothing else changes; sessions and partials stay sound. |
| Lifecycle.TerminalIsAbsorbing | backend/internal/transfer/service.go:394-533 | Completed and Cancelled inbound records survive every sequence of calls unchanged. |
| Lifecycle.NothingReceivedBeforeApproval | backend/internal/transfer/service.go:535-548 | Without the user's acceptance no sequence of calls makes an inbound transfer receive, verify or complete. |
| Lifecycle.PauseThenResume | backend/internal/transfer/service.go:394-446 | Exactly the six active statuses can be paused and only Paused can be resumed; pausing and resuming loses nothing of the record, and an approved inbound transfer takes chunks again while an outbound one waits for a dispatch. |
| Lifecycle.FailThenRetry | backend/internal/transfer/service.go:471-498 | A failed verification followed by a retry puts the transfer back to receiving with everything but the times as before. |
| Lifecycle.RetryOnlyFailed | backend/internal/transfer/service.go:471-498 | Exactly a Failed transfer can be retried: an approved inbound one receives again, one not yet approved can still be accepted, an outbound one waits for a dispatch, and every trace of the failure is gone. |
| Lifecycle.CancelEnds | backend/internal/transfer/service.go:448-533 | Everything but Completed and Cancelled can be cancelled from either side, and nothing brings it back. |
| Lifecycle.OfferIsAnswered | backend/internal/transfer/service.go:326-392 | Acceptance and rejection have an effect exactly on a queued inbound offer that waits for one. |
| Lifecycle.ReceivingTakesChunks | backend/internal/transfer/service.go:544-548 | Chunks are taken exactly by an approved transfer that receives or resumes, and completing gives it its whole size. |
| Lifecycle.NoDeadEnds | backend/internal/transfer/service.go:394-785 | Whatever unfinished status an approved inbound or an outbound record is in, one resume, retry or recovery makes it receive again or puts it back into the dispatcher's line. |
| Lifecycle.RestartRequeues | backend/internal/transfer/service.go:759-785 | A restart touches exactly the interrupted records, and a second one nothing more. |
| Interleaving.LateChunksCannotUndoADecision | backend/internal/transfer/service.go:394-498 | With any number of chunk calls split at their store operations, the stored status is always the one the last pause, resume, retry or finish wrote. |
| Interleaving.ChunkAlone | backend/internal/transfer/service.go:581-607 | A chunk call that nothing interleaves records its chunk and stores what all the recorded chunks count. |
| Interleaving.DecisionAlone | backend/internal/transfer/service.go:394-498 | A pause, resume or retry that nothing interleaves does what the status machine says of it. |
| Interleaving.NeverStuck | backend/internal/transfer/service.go:695-757 | The calls do not wait for each other for ever: while one is not done, one can come nearer to its end, whether its save succeeds or not. |
| Interleaving.VerifyingSurvives | backend/internal/transfer/service.go:623-627 | Finalize's unlocked status write survives when no refresh holds a snapshot. |
| Interleaving.VerifyingLost | backend/internal/transfer/service.go:623-627 | It is undone by any refresh that does hold one: the sender's wait before completing is needed. |
| Interleaving.ProgressNeverFalls | backend/internal/transfer/service.go:695-733 | Over chunk, pause, resume and retry steps, interleaved, progress rises within [0, Size] of the stored record and reaches Size only when every chunk is complete. |
| Outbound.DecisionHoldsIff | backend/internal/transfer/service.go:394-420 | The record as a pause or cancellation leaves it outlives everything the transfer's sending goroutines may still do exactly when each running one is registered or already cancelled and none has read the record in order to fail it. |
| Outbound.OneWorkerIsStoppable | backend/internal/transfer/service.go:805-819 | In every run with one worker at a time only the last of these can go wrong. |
| Outbound.ExitUnregistersOthers | backend/internal/transfer/service.go:807-811 | With two workers the exit of one unregisters the other, which no pause then stops. |
| Outbound.StepOnItsWay | backend/internal/transfer/sender.go:26-189 | Nobody stopping it, a dispatched transfer goes through its statuses in order, and completes only out of Sending. |
| Outbound.NeverLeftHanging | backend/internal/transfer/sender.go:26-189 | A dispatched transfer that nobody stops is never left hanging: within nine steps its worker has stored Completed or Failed and left the active set, and until then it can go on. |
| Outbound.CanComplete | backend/internal/transfer/sender.go:26-189 | It can complete, with all of its size, its finish time and no error. |
| Outbound.CanFail | backend/internal/transfer/service.go:807-819 | And it can fail, with its error stored, after which a retry puts it back into the dispatcher's line. |
| Chunking.CountCoversIffFits | backend/internal/transfer/files.go:122-127 | The 64-bit chunk count covers the file exactly when size + chunkSize - 1 does not wrap. |
| Chunking.ChunksTile | backend/internal/transfer/service.go:553-556 | Chunk ranges are disjoint, within the file and within int64; a byte lies in a chunk exactly when its quotient is the chunk's index. |
| Chunking.ByteHasChunk | backend/internal/transfer/files.go:122-127 | Every byte of the file lies in a counted chunk. |
| Chunking.ProgressExact | backend/internal/transfer/service.go:707-717 | The sum over complete chunks lies in [0, Size] and equals Size exactly when all are complete. |
| Chunking.TotalFitsIff | backend/internal/transfer/service.go:262-293 | The wrapping total that the manifest check compares with Size is the true sum of the sizes exactly when that sum fits int64. |
| Chunking.ProgressMonotone | backend/internal/transfer/service.go:707-717 | More complete chunks never sum to less. |
| Replay.NonceCache.Use | backend/internal/transfer/service.go:973-986 | The pruning loop forgets exactly the nonces older than five minutes, and a nonce is taken unless still remembered. |
| Replay.ValidTimeIff | backend/internal/transfer/service.go:961-971 | The skew test is the two-minute window plus the one timestamp whose int64 difference has no negation. |
| Replay.NoReplayIff | backend/internal/transfer/service.go:235-251 | For every history, process restarts included: no signed message is accepted twice exactly when no call stalls more than 59 s + 1 ns between the timestamp check and the cache, and no process starts within 241 s of its predecessor's last call. |
| Paths.ValidIffPortable | backend/internal/transfer/files.go:129-146 | validateRelativePath accepts exactly the non-empty relative paths all of whose components are proper, portable names: each is a fixed point of cleaning. |
| Paths.ReservedIff | backend/internal/transfer/files.go:171-178 | A component is reserved exactly when it ends in a dot or a blank, or is a device name up to its last dot, in any capitalisation. |
| Paths.SecureJoinPlaces | backend/internal/transfer/files.go:148-169 | Joining an accepted path gives the root's components followed by its own, and the final escape check rejects nothing more. |
| Paths.JoinInjective | backend/internal/transfer/files.go:148-169 | Distinct accepted paths have distinct destinations and distinct partial files. |
| Paths.PartialNameComponents | backend/internal/transfer/service.go:691-694 | The partial's path is the staging directory's components and the path's, the last with .part. |
| Paths.PartialBlocksIff | backend/internal/transfer/service.go:691-694 | One path's partial is a directory component of another's exactly when the second path runs through the first one's .part name. |
| Obstruction.ObstructingManifestAccepted | backend/internal/transfer/service.go:262-293 | A manifest with files 'a' and 'a.part/b' passes every manifest check although the one runs through the other's partial. |
| Obstruction.SecondPartialFails | backend/internal/transfer/service.go:581-600 | While one of two such partials is on disk no chunk write for the other succeeds, on any disk. |
| Obstruction.PartsCoexistIff | backend/internal/transfer/service.go:691-694 | All partials of a manifest can be on disk together exactly when no path runs through another one's .part name. |
| Manifests.BuildManifest | backend/internal/transfer/files.go:22-101 | Fails exactly for an empty selection, a bad chunk size, or a path or object that cannot be sent; otherwise returns the walked items sorted by path and their total. |
| Manifests.SelectionWalked | backend/internal/transfer/files.go:22-60 | A selection is walked in full: the visits are exactly the objects that names lead to from a selected one, each under those names. |
| Manifests.AlongSplits | backend/internal/transfer/files.go:44-56 | And those names are the components of the path it gets in the manifest. |
| Manifests.ManifestDescribes | backend/internal/transfer/files.go:44-96 | The manifest has one entry for each walked object and no other: a regular file with its own size and checksum, or a directory, at the walked path. |
| Manifests.SelectableIff | backend/internal/transfer/files.go:44-76 | Exactly walks over regular files and directories, at valid paths that differ however they are capitalised, can be sent. |
| Manifests.CheckManifest | backend/internal/transfer/service.go:262-293 | The validation loop accepts exactly the manifests whose entries, case-folded paths and wrapped total are all right. |
| Manifests.AcceptedIff | backend/internal/transfer/service.go:262-293 | What the loop accepts, entry by entry: one chunk size of at most 16 MiB, directories without bytes or chunks, files with a checksum of 64 hexadecimal digits and just as many chunks as cover them, for all sizes at which that arithmetic does not wrap. |
| Manifests.ProducerMeetsValidator | backend/internal/transfer/files.go:22-101 | Every manifest the producer returns, for any forest of roots, passes every check of the validator; it is sorted by path with distinct IDs. |
| Manifests.TotalsAgree | backend/internal/transfer/files.go:90-96 | Producer and validator totals agree because directories have size zero, wrap-around included. |
| Manifests.HexShape | backend/internal/transfer/files.go:117-120 | A hex-encoded digest has two hexadecimal digits per byte. |
| Manifests.HexRoundTrip | backend/internal/transfer/files.go:117-120 | And the digits give the bytes back: equal checksums are equal digests. |
| Store.SqliteStore.SaveTransfer | backend/internal/transfer/sqlite_store.go:35-110 | One transaction: transfer and file rows upserted, stale mirrors cleared, the status's mirror written; on failure nothing changes. |
| Store.SqliteStore.DeleteHistory | backend/internal/transfer/sqlite_store.go:154-176 | One transaction deleting chunks, files, transfers and the history mirrors. |
| Store.SqliteStore.GetTransfer | backend/internal/transfer/sqlite_store.go:112-123 | Reads the record back with its files ordered by path. |
| Store.MirrorsAlwaysAgree | backend/internal/transfer/sqlite_store.go:84-105 | After any sequence of writes each transfer is in exactly the mirror its status dictates, and in none for Sending, Receiving and Verifying. |
| Store.MirrorsAreRead | backend/internal/transfer/sqlite_store.go:84-105 | And each of the four tables, column by column: which statuses it lists and with what. |
| Store.CreationIsKept | backend/internal/transfer/sqlite_store.go:35-70 | A transfer keeps the creation time of its first save over all later ones until the history is deleted; everything else is as saved last. |
| Store.ChunkIsKept | backend/internal/transfer/sqlite_store.go:178-190 | A stored chunk row stays as it is over all saves until it is saved again or the history is deleted. |
| Store.DeleteHistoryExact | backend/internal/transfer/sqlite_store.go:154-176 | Exactly the terminal transfers go, with their files and chunks; every other row of every table is as before. |
| Store.SavedReadsBack | backend/internal/transfer/sqlite_store.go:71-83 | What was saved is what a read returns, when its files are in path order with distinct IDs and none of the stored ones has been dropped. |
| Store.SaveRefines | backend/internal/transfer/sqlite_store.go:35-110 | The tables refine a map of transfers: saving is a map update (except that created_at keeps its first value). |
| Store.PurgeRefines | backend/internal/transfer/sqlite_store.go:154-176 | Deleting the history is restricting that map to non-terminal transfers. |
| Store.ReadMatchesView | backend/internal/transfer/sqlite_store.go:112-123 | Reading any transfer from the tables is looking it up in that map. |
| Persistence.CallSavesOver | backend/internal/transfer/service.go:326-689 | Every lifecycle call, and Finalize's first save, saves a session over itself: same ID, Size and creation time, same files up to their destinations. |
| Persistence.OutcomeIsEvent | backend/internal/transfer/service.go:383-533 | What the service's lifecycle methods promise is such a save, or nothing. |
| Persistence.RecordIsEvent | backend/internal/transfer/service.go:609-785 | So are the saves of ReceiveChunk, Finalize and recovery. |
| Persistence.OfferIsEvent | backend/internal/transfer/service.go:294-313 | A new session of ReceiveOffer is a lawful addition. |
| Persistence.DeletionIsEvent | backend/internal/transfer/service.go:324 | And DeleteHistory is the purge. |
| Persistence.SessionsReadBack | backend/internal/transfer/sqlite_store.go:35-176 | After every run of accepted offers, such saves, chunk rows and history deletions the tables stand for exactly the records the service holds, file order included. |
| Persistence.StoreAnswersForService | backend/internal/transfer/sqlite_store.go:112-190 | So a read returns the record the service holds, and the foreign key refuses no chunk row the service writes. |
| Dispatch.Dispatcher.Dispatch | backend/internal/transfer/service.go:786-821 | What is started are outbound transfers with status Queued or Resuming, by rising priority number, a prefix of the waiting line; the limit is never exceeded; and a dispatch that leaves room leaves every such transfer active. |
| Dispatch.LineIsStable | backend/internal/transfer/service.go:797-804 | The line holds exactly the outbound transfers with status Queued or Resuming, priority numbers rise along it, and those of one priority keep the store's order. |
| Dispatch.NextInLine | backend/internal/transfer/service.go:786-806 | An outbound transfer just resumed, retried or recovered from interrupted work is in the next line; a paused, failed, running, finished or inbound one never is. |
| Sorting.SortStable | backend/internal/transfer/service.go:797 | Sorting keeps the order of mutually equivalent elements. |
| Sorting.SortCorrect | backend/internal/transfer/files.go:89 | Sorting is a sorted permutation. |
| Registry.DeviceRegistry.Upsert | backend/internal/discovery/registry.go:72-107 | An observation that is valid and foreign is refused exactly when the device is listed with a non-empty hint other than the observed one; any other is recorded, online and with the new LastSeen, and returns the event the change calls for. |
| Registry.SilentIff | backend/internal/discovery/registry.go:194-216 | An observation is silent exactly when nothing but the time changes: the field comparison leaves nothing out. |
| Registry.DeviceRegistry.Sweep | backend/internal/discovery/registry.go:131-157 | Devices past the removal timeout go, devices past the offline timeout are marked, and there is exactly one event per change. |
| Registry.DeviceRegistry.List | backend/internal/discovery/registry.go:110-127 | Every device once, ordered by folded name and then ID. |
| Registry.RefusedIff | backend/internal/discovery/registry.go:72-107 | Which observations leave the registry as it is, written out: an empty ID or name, the device's own ID, or another identity than the listed one. |
| Registry.SweptIff | backend/internal/discovery/registry.go:131-157 | A sweep drops exactly the devices silent for more than the removal timeout and marks exactly those silent for more than the offline timeout. |
| Registry.AnnouncerStaysOnline | backend/internal/discovery/registry.go:72-157 | Over every run of observations and sweeps, a peer that keeps announcing one identity more often than both timeouts is listed and online after every sweep, whatever else is announced in between. |
| Registry.UpsertFolds | backend/internal/discovery/registry.go:72-107 | A view that agreed before an observation agrees after folding its event. |
| Registry.SweepFolds | backend/internal/discovery/registry.go:131-157 | Likewise for a sweep's events in any order of the map walk. |
| Registry.SwapIff | backend/internal/discovery/registry.go:101-106 | Two events may change places for every view exactly when they concern different devices or say the same: publication must keep the lock order. |
| Registry.IdentityPinned | backend/internal/discovery/registry.go:72-157 | Over every run of observations and sweeps a peer that has shown an identity keeps it for as long as it is listed, whoever else announces its ID. |
| Registry.IdentityReleased | backend/internal/discovery/registry.go:136-144 | And no longer: after the sweep that drops it any valid observation takes the ID. |
| Brokers.Broker.Publish | backend/internal/websocket/broker.go:28-39 | Every subscriber with room gets the event; exactly the full ones are closed and dropped. |
| Brokers.Broker.Subscribe | backend/internal/websocket/broker.go:43-49 | A new empty queue under a new ID; others unchanged. |
| Brokers.Broker.Cancel | backend/internal/websocket/broker.go:51-61 | Closes and forgets the subscriber, once; nothing after a disconnection. |
| Sockets.Open | backend/internal/websocket/handler.go:64-76 | Subscribing then writing the snapshot leaves the client with exactly the registry. |
| Sockets.Pump | backend/internal/websocket/handler.go:83-90 | Draining writes the buffered events in order. |
| Sockets.StreamsAreGapFree | backend/internal/websocket/broker.go:28-39 | In every run what a client was sent and has queued is a gap-free stretch of the published events from its subscription, up to the last one while its queue is open. |
| Sockets.Convergence | backend/internal/websocket/handler.go:64-91 | In every run, for every overlap of log and snapshot: a caught-up client shows the registry's state at that point of the log, and a drained one the registry itself, up to LastSeen. |
| Sockets.CatchesUp | backend/internal/websocket/handler.go:64-91 | From every reachable state an open client has a way, by its snapshot, the due publications and its own reading, to show the registry as it stands: in between its queue need not overflow. |
| Sockets.SnapshotThenReplay | backend/internal/websocket/handler.go:64-91 | Replaying from an earlier point over a later snapshot equals the whole log. |
| Settings.Store.Update | backend/internal/settings/store.go:96-114 | Exactly a writable value is taken when the file can be written: what was wanted is what is read, but for the name's blanks, the schema and the privacy fields, which stay; it is always announced; a refused one changes nothing. |
| Settings.Store.AcceptPrivacy | backend/internal/settings/store.go:117-137 | Exactly the current version is accepted when the file can be written; then the policy is accepted at that time and that is announced. |
| Settings.AcceptanceIsExplicit | backend/internal/settings/store.go:89-137 | Over any history of writes the policy counts as accepted exactly when it was before or an explicit acceptance occurred. |
| Settings.WriteIsRead | backend/internal/settings/store.go:89-114 | Which preference writes are taken, written out, and what is read afterwards. |
| Settings.AcceptanceIsRead | backend/internal/settings/store.go:117-137 | After an acceptance, and only of the current version, the policy reads as accepted, and every preference as before. |
| Supervisor.SupervisionHolds | backend/internal/serverapp/server.go:255-310 | In every run there is at most one instance of each service at any moment, and whenever the loop is blocked with nothing pending it has acted on the current settings: transfers run iff accepted, discovery iff accepted and discoverable; it returns only after a shutdown, with nothing left running. |
| Supervisor.NeverStuck | backend/internal/serverapp/server.go:298-308 | The loop waits only in its select or for a service it has asked to stop. |
| Supervisor.Settles | backend/internal/serverapp/server.go:255-310 | After any history, left alone, the loop settles within 55 steps whichever ready case its select takes: as long as it has not, a step is ready, and then it has returned after a shutdown, and otherwise runs exactly what the current settings say. |
| Supervisor.ComesToRest | backend/internal/serverapp/server.go:255-310 | The last write counts, whenever it came, and after a shutdown the loop comes to rest only by returning. |
| Pairing.DerivationAgrees | backend/internal/pairing/crypto.go:72-94 | Both ends derive the same secret exactly when they used the same transcript. |
| Pairing.OpenNeverCrashes | backend/internal/pairing/service.go:246-250 | A sound index never sends the lookup to a missing session. |
| Pairing.PruneKeepsIndex | backend/internal/pairing/service.go:593-605 | Pruning keeps the device index sound. |
| PairingService.Service.PruneLocked | backend/internal/pairing/service.go:593-605 | The loops drop exactly the expired sessions, their devices' index entries and the outdated begins. |
| PairingService.Service.RequestPairing | backend/internal/pairing/service.go:224-255 | The checks in order; an index entry without a session is a crash. |
| PairingService.Service.CompleteRequest | backend/internal/pairing/service.go:268-281 | A session is stored exactly for a valid, signed, matching response. |
| PairingService.Service.ReceiveBegin | backend/internal/pairing/service.go:287-346 | The first critical section: existing session, replay, rate and capacity tests, pinned-key check, admission. |
| PairingService.Service.CompleteBegin | backend/internal/pairing/service.go:348-368 | The second: the device's older session gives way to the new one. |
| PairingService.Service.Accept | backend/internal/pairing/service.go:371-405 | Local confirmation, finalisation of a confirmed incoming session, or contacting the peer; a rejected session stays. |
| PairingService.Service.Refresh | backend/internal/pairing/service.go:407-435 | A status proof is sent only for a locally confirmed outgoing session. |
| PairingService.Service.ReceiveProof | backend/internal/pairing/service.go:438-478 | Device, MAC and nonce checks, the action, finalisation when both confirmed, and the signed decision. |
| PairingService.Service.ApplyPeerDecision | backend/internal/pairing/service.go:537-554 | The peer's decision applied to the session whose secret signs it. |
| PairingService.Service.FinalizeLocked | backend/internal/pairing/service.go:556-572 | Writes the trust record and clears the index entry, or nothing, which happens only when the record fails its checks or the store fails. |
| PairingService.Service.Reject | backend/internal/pairing/service.go:480-499 | A live session is found and marked rejected; nothing else changes. |
| PairingLaws.OpeningAnswers | backend/internal/pairing/service.go:224-255 | The answer of RequestPairing in every case: a paired device is refused as already trusted, or as changed if its key is suspect or not the discovered one; a live request is returned; 32 open sessions are the limit. |
| PairingLaws.AdmissionIff | backend/internal/pairing/service.go:287-346 | A begin is admitted exactly when it is introduced by discovery and its own signature, is recent, new and affordable, and the device is not paired; a known live one gets its stored response again. |
| PairingLaws.PinnedKeyGuards | backend/internal/pairing/service.go:331-342 | A paired device that begins again is refused as already trusted with its pinned key, and flagged as changed with any other. |
| PairingLaws.DeclinedBecause | backend/internal/pairing/service.go:319-330 | An introduced begin is refused as repeated exactly within a lifetime of the last one of its ID, and as too frequent exactly within two seconds of the host's last one or with 32 sessions open. |
| PairingLaws.ResponseIff | backend/internal/pairing/service.go:574-583 | A response is taken exactly when it answers this begin, recently, from the device asked, signed by the key that discovery knows. |
| PairingLaws.NewSessionIs | backend/internal/pairing/service.go:268-368 | A new session lives for one request lifetime, is confirmed by nobody, shows six digits of its own secret, and both ends of one exchange hold the same secret. |
| PairingLaws.AcceptanceIs | backend/internal/pairing/service.go:371-405 | The local yes in every case: paired when the peer of an incoming session has confirmed, waiting or contacting the peer otherwise, and without effect on a rejected or unknown session. |
| PairingLaws.ProofsDoAsTheySay | backend/internal/pairing/service.go:438-478 | A convincing proof spends its nonce and does what it says: a confirmation is noted and pairs once the local user has said yes, a rejection rejects, a status question changes nothing; any other proof only prunes. |
| PairingLaws.DecisionsAreApplied | backend/internal/pairing/service.go:537-554 | A decision is applied exactly when it is for this session and signed with its secret; a rejection rejects, and without both confirmations it only brings the peer's. |
| PairingLaws.DecisionPairs | backend/internal/pairing/service.go:537-572 | And it pairs when both have confirmed: the device's key, the session's secret, neither blocked nor suspect. |
| PairingLaws.PruneForgets | backend/internal/pairing/service.go:593-605 | A session lives up to and including its expiry and a begin is remembered for one lifetime; nothing else is forgotten. |
| PairingRuns.InsertIndexIff | backend/internal/pairing/service.go:278-281 | Storing a session keeps the index sound exactly when its ID is not indexed for another device. |
| PairingRuns.ReplaceIndexIff | backend/internal/pairing/service.go:360-366 | The same for the replacing store of ReceiveBegin. |
| PairingRuns.StepKeepsIndex | backend/internal/pairing/service.go:246-250 | Every call keeps the index sound while a request ID belongs to one device. |
| PairingRuns.IndexAlwaysSound | backend/internal/pairing/service.go:246-250 | In every state reached that way the index names live sessions of the right device, so the unchecked lookup of RequestPairing never crashes. |
| PairingRuns.SharedIdCrashes | backend/internal/pairing/service.go:246-250 | Otherwise it can: from a fresh service, a begin of one device and an exchange with another under the same ID make the next RequestPairing for the first crash once the session has expired. |
| PairingRuns.SharedIdHappens | backend/internal/pairing/service.go:246-250 | Such messages exist, with identifiers in the canonical form of UUIDs. |
| PairingRuns.NonceProcessedOnce | backend/internal/pairing/service.go:450-454 | In a session's life no proof nonce is processed twice, whatever happens in between. |
| PairingRuns.TrustComesFromSessions | backend/internal/pairing/service.go:556-572 | A trust record appears or changes its keys only by finalising a session of that device, with that session's keys. |
| PairingRuns.RejectionIsSticky | backend/internal/pairing/service.go:382-463 | A rejected session stays rejected and no later step writes trust for it, whatever arrives, unless an initiator applies a decision of its peer that is no rejection. |
| PairingRuns.NoIsHeard | backend/internal/pairing/service.go:438-554 | A no - the local user's, a reject proof with a fresh nonce, or a Rejected decision that an initiator applies - leaves the session rejected and writes no trust, and a reject proof is answered with a Rejected decision. |
| PairingRuns.RejectionIsFinal | backend/internal/pairing/service.go:382-554 | Over every run after such a no: the session stays rejected while it lives, the local user's acceptance is refused, and no step writes trust for it until another session takes its ID - for an initiator, unless it applies a decision of its peer that is no rejection. |
| PairingRuns.DecisionUndoesIff | backend/internal/pairing/service.go:544-554 | The exception, exactly: an initiator's no is undone by just the decisions that are no rejection, and trust is then written when both users have once confirmed. |
| PairingReplay.SameTimeTest | backend/internal/pairing/crypto.go:146-156 | The two timestamp tests of the program agree. |
| PairingReplay.AdmissionUsesCache | backend/internal/pairing/service.go:319-345 | A begin is admitted only past the cache test, and then cached with this clock reading. |
| PairingReplay.StepRemembers | backend/internal/pairing/service.go:593-605 | A begun request ID stays in the cache through every call that does not read a clock more than a lifetime later; only a restart loses it earlier. |
| PairingReplay.BeginOnceIff | backend/internal/pairing/service.go:287-369 | No signed begin opens two sessions, in any run of the service with its restarts, exactly when the request lifetime is at least 241 s, no call stalls longer than the rest of it, and no process starts within 241 s of the last one; each of the three conditions is shown necessary by a run from a fresh service. |
| PairingSystem.StepInv | backend/internal/pairing/service.go:224-572 | Every step of the two-service system, restarts included, keeps the invariant relating sessions, messages, acceptances and trust. |
| PairingSystem.ProveSound | backend/internal/pairing/service.go:438-478 | A proof a session accepts came from the peer that initiated it, so the confirmation and the returned decision are true. |
| PairingSystem.DecideSound | backend/internal/pairing/service.go:537-554 | A decision the initiator applies is its peer's. |
| PairingSystem.TrustNeedsBothUsers | backend/internal/pairing/service.go:371-572 | In every reachable state of two services over a lossy, repeating, reordering network, with restarts of either, a trust record pins the other's key and exists only if both users accepted that request having seen the code of the key it holds. |
| PairingSystem.PairingAgreement | backend/internal/pairing/service.go:224-369 | Two trust records from the same request hold the same key, pin each other's identity and showed the same code. |
| PairingSystem.PairingNeverCrashes | backend/internal/pairing/service.go:246-250 | In every reachable state of the two services RequestPairing finds a session behind every index entry. |
| PairingSystem.ShownCodes | backend/internal/pairing/crypto.go:85-93 | A session shows the code of its own secret, and that is what its user accepts. |
| PairingExchange.UndisturbedExchangePairs | backend/internal/pairing/service.go:224-572 | An undisturbed exchange ends with each end trusting the other with one shared key. |

## Left out

- HTTP, TLS, gin routing, JSON, gzip, mDNS sockets, the SQLite engine and OS calls: channels, functions and maps stand for them.
- The React frontend, Apple clients, desktop shell, CLI, packaging, device simulator, diagnostics and log buffer.
- Interface scoring, window geometry, database migrations, browser staging and identity files: they would add only easy members.
- Logging, speed and ETA, congestion delay, wall-clock waiting, and liveness of the approval poll.
- Timestamps are integers; that the store keeps them in milliseconds is not modelled.
- Transfer fields that no modelled branch reads (names, addresses, attempts, compression flag, start time) and the aggregate checksum of a manifest.
- Windows paths and volume names: lexical path rules are those of Unix; upper-casing of reserved names is ASCII.
- Commit and DeleteHistory inside Delivery runs: delivery ends at the completion request, and Completion.FinalizeDelivered carries its state through Finalize. A session that a failed commit has taken partials from mirrors no such run.
- Simulation.ReceiveSimulated: one call of the service at a time; that calls overlap is in Delivery's handlers and in Interleaving.
- Disk.FileSystem.CommitFile: a rename across file systems on a disk that does not fail is not told apart from one within; the copy is an outcome of any other disk.
- One worker per transfer: dispatch does not check whether an ID is already active (backend/internal/transfer/service.go:802-806), so it is not claimed; Outbound.ExitUnregistersOthers shows a consequence.
- An all-or-nothing commit of several files: a failed Finalize may have moved some partials already; only the frame of bystanders is claimed.
- A block that survives a second Accept of a live session, SetBlocked, and the identity-change bookkeeping of TrustedDevices.
- Shutdown (stopAll) and the sender's progress refreshes in Outbound: they write no status.
- Manifests.BuildManifest: reports every refused selection as InvalidRequest, a bad path included.
- Service.TransferService.ReceiveOffer: reports every manifest failure as InvalidRequest where the code distinguishes path traversal; the length and blankness tests of the labels are one boolean.
- Service.TransferService.Accept: the free space is a parameter, as the operating system reports it.
- Supervisor.SupervisionHolds: the endless loop is a state machine, not a Dafny loop; the two reads of the settings are separate steps, and a service may also end by itself.
- Pairing.Code: the six-digit code is a number; its formatting is left out.
- PairingSystem.TrustNeedsBothUsers: for two honest services; a third device's sessions do not appear in that system, while PairingRuns covers one service against arbitrary messages.
