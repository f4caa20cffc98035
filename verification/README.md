# go-xport: a verified model of the transfer core

go-xport moves files from a watched outbox on one machine to an incoming directory on another, over
persistent connections. It promises three things: what arrives is byte for byte what was sent, a
file appears under its final name completely or not at all, and a source file is archived or deleted
only when the receiver has it on stable storage. This project models the code behind those promises
and proves them for every input and every run, crashes included.

## How the model is organised

| file | what it holds |
|---|---|
| `Bytes.dfy` | bytes, options, big-endian integers of 2, 4 and 8 bytes |
| `Wire.dfy` | the frame format as pure encode and decode functions, and the codec's laws |
| `Streams.dfy` | the functions of `internal/wire/protocol.go` that loop over readers and writers, and `transferFile` |
| `Disk.dfy` | a directory with two layers: what the running system sees, and what survives a crash |
| `ReceiverMachine.dfy` | the receiver as a state machine: any number of handlers, one system call per step, kill, crash and boot at any step, arbitrary input bytes |
| `Reception.dfy` | one request's frame against the handler that reads it, and the steps that bring it to its commit |
| `Durability.dfy` | what a commit is worth over whole runs: where a name leads, delayed commits, rejections after the rename |
| `Receiver.dfy` | `stager.go` and `committer.go` as methods over that directory; which of their system calls fail is an input |
| `Listener.dfy` | the connection loop of `listener.go`, turn by turn |
| `Refinement.dfy` | the connection loop's effect on the directory, with every failure, is that of a run of the machine |
| `Protocol.dfy` | producer, sender connections and the receiver machine joined by byte streams that can be cut at any byte |
| `Delivery.dfy` | one request on its way through the protocol, and a rejected one that is durable |
| `Monitor.dfy` | the tracker's error window and mirrored counts |
| `Queue.dfy` | the work queue: its locked operations as functions, the class that implements them, every call sequence |
| `Scanner.dfy` | the two-scan stability gate and the latch |
| `Bags.dfy` | counting names in queues and workers |
| `Pipeline.dfy` | scanner, queue with its waiters, and N workers as one state machine |
| `Progress.dfy` | termination of retries and the order of delivery |
| `Stranding.dfy` | files that will never be handed over again: exactly which steps strand a file |
| `Handover.dfy` | every other file can still be handed to a worker |
| `System.dfy` | pipeline and protocol joined in one machine: each worker with its connection, restarts of the sender |
| `Guarantees.dfy` | nothing is lost, and delivery stays possible, in the joined machine |

A state machine here is a datatype `State`, a datatype `Action` whose arguments carry all
nondeterminism, a predicate `Enabled` and a function `Apply`. `Allowed` and `Exec` extend them to a
sequence of actions, so a theorem about `Exec(s, run)` for an initial `s` and an allowed `run` is a
theorem about every reachable state of every interleaving.

## What is assumed

- **Producer.** A visible file's bytes do not change and its name is not used again (hidden temporary
  file, then rename). In `Protocol` this is the map `produced`. `Durability.DelayedCommit` shows
  exactly what happens without it, and `Durability.AnAckIsOverwritten` a run in which it happens. `Pipeline` does not need unchanging contents: files may change at
  any time there; only a name that has left the outbox does not come back.
- **Listing.** In `Pipeline` a scan lists every tracked file that is still there
  (`FaithfulListing`). A directory read that fails has no effect and needs no step.
- **Start.** The programs start over disks as earlier lives left them: the incoming directory may hold any
  settled files, staging and the outbox anything. What the receiver already holds was produced.
- **Receiver directory.** Nobody removes or renames committed files, a synced file keeps its bytes, and
  a name once durable stays in the directory across a crash. Contents that were not synced are arbitrary
  after a crash, and of the renames since the last directory sync any selection survives.
- **System calls** fail as an input says: a `Receiver.World` fixes for the k-th call whether it fails, which random
  bytes it draws, and how much space the file has that is written next. The methods log their calls, so that a
  contract can say which call ended what.
- **Removals** of staging files may fail; the files left behind are tracked as `leaked`.
- **Connections** are authenticated ordered byte streams that can be cut at any byte, separately for
  what is in flight in each direction; after a cut nothing more is delivered. Whether a break is an idle deadline or
  the receiver's own close is part of the input (`Source.expected`).
- **SHA-256** is any function from byte sequences to 32 bytes. No collision resistance is assumed: where
  an accident of the hash matters the lemma says so (`Streams.ChangedSource`).
- **Sorting** by modification time yields some sorted permutation, since `sort.Slice` is not stable.
- **Clock.** `WindowAgreesWithHistory` assumes that the clock does not run back; `WindowAgreesIff` does not.

## What the proofs found

- A rejection does not mean that the file was not committed. `Delivery.RejectedButDurable` gives, for every
  acceptable new file and every message, a run at whose end the sender finds exactly that rejection while the
  receiver holds the file durably; `Durability.ExitLeavesNameIff` says at which phases a handler that gives up
  leaves the name visible: after the rename, and only then. Delivery is at least once, and
  `Protocol.Idempotent` shows why that is harmless under the producer contract.
- `RecordFailure` deletes the name from the queue's index whenever it quarantines. For arbitrary callers
  the index then no longer covers the items (`Queues.IndexCanDrift`, exact condition in
  `Queues.IndexStaysExactIff`). Under the discipline of scanner and workers it is always exact
  (`Pipeline.OneOwnerEver`).
- A file can be stranded: in the outbox, latched by the scanner, and owned by nobody. Two steps do that, and
  no other (`Stranding.StrandsIff`). After a dial error a quarantined file is not marked completed in the
  scanner, as it is after a transfer error; if the move to `.failed` fails as well, the file is stranded
  (`Stranding.AFileIsStranded`). And a push that comes after `Stop` is dropped, although the scan has latched
  the file (`Stranding.APushIsDropped`). A stranded file is never handed over again while the sender runs
  (`Stranding.StrandedForever`); every other file can be (`Handover.HandoverIff`), and delivered
  (`Guarantees.DeliverableIff`, all of them together in `Guarantees.EverythingDeliverable`). Every restart of
  the sender cures it (`Guarantees.DeliverableAfterRestart`).
- If a file grows after Stat and goes on, by accident, with the hash of its announced part, the receiver
  commits that part; and since the rest of the file follows on the wire, frames in it would be taken for
  further requests (`Listener.ChangedSourceReceived`).
- An ACK does not mean that the name leads to the acknowledged file in every layer: another handler may have
  renamed the name again after the directory sync. What it does mean is `Durability.AckSurvives`.
- A payload size of 2^63 or more becomes negative in the limited reader, so the receiver reports a short
  read without consuming anything (`Streams.ReceiveStream`).

## Model

| member | source | states |
|---|---|---|
| `Wire.ValidNames` | internal/wire/protocol.go:49-60 | accepted are exactly the names of 1 to 200 letters, digits, dots, underscores and hyphens, the first a letter or digit, that do not end in `.tmp` or `.part`; byte by byte |
| `Wire.NameErrors` | internal/wire/protocol.go:49-60 | which of the three errors a rejected name gets, byte by byte |
| `Wire.HeaderVerdicts` | internal/wire/protocol.go:90-107 | exactly which first bytes are a wrong magic and which are a name length of 0 or above 200 |
| `Wire.NameVerdicts` | internal/wire/protocol.go:109-116 | the name is judged as soon as it has arrived, before the size is read, with its own error |
| `Wire.LimitOnly` | internal/wire/protocol.go:122-124 | the size limit does nothing but reject, and it rejects exactly the sizes above it |
| `Wire.HeaderLayout` | internal/wire/protocol.go:67-86 | every byte of an encoded header: magic, big-endian length, name, big-endian size |
| `Wire.ResponseLayout` | internal/wire/protocol.go:130-152 | every byte of ACK and NACK, a message cut to 65535 bytes |
| `Wire.HeaderRoundTrip` | internal/wire/protocol.go:67-127 | decoding an encoded header gives back name and size whatever follows it, or the size error exactly when over the limit |
| `Wire.HeaderCanonical` | internal/wire/protocol.go:90-127 | accepted bytes begin with exactly the encoding of the returned name and size, both valid |
| `Wire.HeaderPrefixFree` | internal/wire/protocol.go:67-127 | two headers at the front of the same bytes are the same header |
| `Wire.HeaderPrefixAsksForMore` | internal/wire/protocol.go:90-127 | a proper prefix of a header always makes the reader ask for more, never beyond the header's end |
| `Wire.ResponseRoundTrip` | internal/wire/protocol.go:130-177 | ACK and NACK decode to themselves using exactly their frame, a NACK's message cut to 65535 bytes |
| `Wire.SessionAppend` | internal/wire/protocol.go:205-254 | the bytes of a session grow by exactly one frame per request |
| `Wire.FramePrefixFree` | internal/wire/protocol.go:67-254 | a frame at the front of a stream is the frame that was put there, payload included |
| `Wire.SessionUnique` | internal/wire/protocol.go:67-254 | a list of requests whose bytes start a session is a prefix of the list sent, for every hash function |
| `Streams.Source.Read` | internal/wire/protocol.go:189-194 | one read returns any non-empty chunk up to the limit, or the way the stream ends |
| `Streams.Sink.Write` | internal/wire/protocol.go:196-201 | a write puts out all of its bytes where there is room, else as many as there is room for, after which every write fails and puts out nothing |
| `Streams.ReadFull` | internal/wire/protocol.go:90-127 | for every pattern of short reads: exactly n bytes, or all there were with the error for none, some or a broken stream |
| `Streams.ReadFields` | internal/wire/protocol.go:90-121 | the fields of a header one after the other, for every splitting into short reads |
| `Streams.ReadRequestHeader` | internal/wire/protocol.go:90-127 | for every splitting into short reads the result is the pure decoder's, error for error; an accepted header consumed exactly its own bytes and announces no more than the limit, and a size above it is the only thing the limit rejects |
| `Streams.WriteRequestHeader` | internal/wire/protocol.go:67-86 | succeeds exactly for a valid name with room for the header; an invalid name writes nothing |
| `Streams.ReadResponse` | internal/wire/protocol.go:155-177 | success exactly when the next byte is ACK; otherwise the pure decoder's answer on whole frames, or a stream error on partial ones |
| `Streams.CopyHashed` | internal/wire/protocol.go:205-243 | the copy loop writes and hashes exactly the wanted bytes, or a prefix with the right error |
| `Streams.SendStream` | internal/wire/protocol.go:205-224 | success exactly when the file has the announced length and everything fits, having written the payload and its SHA-256; with another length the trailer is never written |
| `Streams.CheckTrailer` | internal/wire/protocol.go:241-253 | accepts exactly when the next 32 bytes are the SHA-256 of what was absorbed; a short trailer gives the error of the short read |
| `Streams.ReceiveStream` | internal/wire/protocol.go:228-254 | success exactly when size < 2^63, the input is that many bytes and their SHA-256, and the destination takes them; writes them and consumes size + 32 bytes; a write error exactly when the destination is too small; on failure the destination gained only a prefix of the payload; sizes from 2^63 on are a short read that consumes nothing |
| `Streams.TransferFile` | internal/sender/client.go:185-217 | succeeds exactly when the file can be opened, has a valid name and the announced length, the complete frame goes out and the next reply byte is ACK; a changed length fails before any reply is read; a file that cannot be opened leaves the connection untouched |
| `Streams.ChangedSource` | internal/wire/protocol.go:205-254 | if the file's length changed after Stat, the receiver can verify the request if and only if the following 32 bytes happen to be the hash of the announced part |
| `ReceiverMachine.StepKeepsInv` | internal/receiver/listener.go:144-236 | every step of any handler, a kill, a crash and a boot keep: all entries lead to synced, verified payloads, handlers own their staging files alone, every staging file is accounted for |
| `ReceiverMachine.RunKeepsInv` | internal/receiver/listener.go:144-236 | the same over every run |
| `ReceiverMachine.VerifiedWereReceived` | internal/wire/protocol.go:228-254 | whatever counts as verified was in place at the start or was, at some earlier state of the run, received completely with a matching hash trailer |
| `ReceiverMachine.CrashAtomicity` | internal/receiver/committer.go:18-56 | from any settled directory, stop at any step of any number of concurrent commits: every final name maps to its durable payload or to a pending one, and to one that was there at the start or received completely and verified |
| `ReceiverMachine.StagingOwnership` | internal/receiver/stager.go:13-52 | over every run the `.tmp` files are exactly the handlers' own, none shared, none a final name, apart from failed removals |
| `ReceiverMachine.NothingLeftBehind` | internal/receiver/listener.go:192-230 | over every run in which removals succeed, the `.tmp` files of a running server are exactly those of live handlers, whichever way the others ended; none once all connections have ended |
| `Reception.FeedMatches` | internal/receiver/listener.go:159-214 | any chunk of the request's remaining bytes keeps the handler in step with the request |
| `Reception.StageMatches` | internal/receiver/listener.go:166-201 | a header that parses from a prefix of the request's frame is that request's, with payload and hash still to come |
| `Reception.OthersUntouched` | internal/receiver/listener.go:144-236 | a step of one handler changes no other handler's phase or staged bytes |
| `Reception.NextStep` | internal/receiver/listener.go:159-235 | while a request is not committed, some step of its handler is possible and brings it closer, in step with the request |
| `Durability.OnlyRenamesLead` | internal/receiver/committer.go:32-53 | over every run, crashes included, a name leads only where it led before or where a rename in the run made it lead, in every layer of the directory |
| `Durability.SyncedStays` | internal/receiver/committer.go:18-37 | a synced file keeps its bytes over every run |
| `Durability.DirSyncSettles` | internal/receiver/committer.go:38-47 | a directory sync leaves each name settled: one file in every layer |
| `Durability.CommitSurvives` | internal/receiver/committer.go:38-53 | a settled name stays durable over every run, on the same file with the same bytes, or on the file of a later rename of that name with the bytes it had then; without such a rename it stays settled on the same file |
| `Durability.CommitLands` | internal/receiver/committer.go:32-53 | a rename is settled by the next directory sync of any handler, on its own file or on that of a rename in between, unless the machine stops first |
| `Durability.AckSurvives` | internal/receiver/committer.go:32-56 | at every ACK the handler has itself renamed the request it staged last; over every continuation, crashes included, the name is durable on that file, or on that of a rename of the name after it, with the bytes the file had when renamed |
| `Durability.MadeByIsVerified` | internal/receiver/listener.go:203-222 | the file of that rename is the handler's own and holds a payload verified under that name |
| `Durability.DelayedCommit` | internal/receiver/committer.go:32-53 | a settled payload is what the name durably holds after every continuation that renames to it only the file of a delayed handler, if and only if that handler staged the same bytes |
| `Durability.AnAckIsOverwritten` | internal/receiver/committer.go:32-56 | for any two payloads of one name a run from the start in which one is acknowledged and durable and then replaced by the other |
| `Durability.ExitLeavesNameIff` | internal/receiver/committer.go:18-56 | over every run, a handler that gives up on a new name, that no other request was renamed to, leaves it visible if and only if it stands after the rename |
| `Receiver.BootCleanup` | internal/receiver/stager.go:13-28 | removes exactly the `.tmp` files that can be removed and touches nothing else; fails exactly when the staging directory cannot be made |
| `Receiver.HexText` | internal/receiver/stager.go:44-45 | two hexadecimal digits for every random byte, the high one first |
| `Receiver.HexInjective` | internal/receiver/stager.go:44-45 | different random bytes give different staging names |
| `Receiver.CreateStagedFile` | internal/receiver/stager.go:33-52 | fails exactly when one of its calls fails or the name drawn is taken; else a new empty file named by the drawn bytes and `.tmp`, which no valid final name can equal |
| `Receiver.CommitBarrier` | internal/receiver/committer.go:18-56 | the error is that of the first of the five calls that fails, or of the ACK; before the rename all final names are as they were, after it the name is in place but durable only with the directory sync, and ACK is written only after that |
| `Listener.StreamToFile` | internal/receiver/listener.go:203-214 | the staged bytes are the verified payload; a full disk exactly when the payload exceeds its space, and every other error means that the input does not verify |
| `Listener.FillStaged` | internal/receiver/listener.go:203-214 | the payload in its staging file, or the file removed unless that fails |
| `Listener.StageAndReceive` | internal/receiver/listener.go:192-214 | a verified payload in a new staging file, or no change but a file whose removal failed; with the calls made and the cause of a failure |
| `Listener.NextHeader` | internal/receiver/listener.go:166-187 | the next header, or the end of the connection, with one whole rejection exactly when the peer neither closed nor was idle |
| `Listener.ReceiveRequest` | internal/receiver/listener.go:159-214 | consumes exactly the frame of a request within the limits and stages its payload, or leaves names and files alone, says why and rejects |
| `Listener.CommitStaged` | internal/receiver/listener.go:216-230 | the request is durable exactly when the barrier passed the directory sync; nothing stays in staging except on a failed removal; a failure is followed by a rejection |
| `Listener.ServeOne` | internal/receiver/listener.go:159-235 | one turn: one whole frame, one durable commit, one ACK; or the reason why the connection ends, with the calls made |
| `Listener.NextTurn` | internal/receiver/listener.go:157-235 | the loop body: what the turns so far have done is extended by one acknowledged request, or closed with its explained end |
| `Listener.HandleConnection` | internal/receiver/listener.go:144-236 | for any peer and any outcomes of the system calls: the committed requests are, in order, the frames at the front of the input, with valid names and at most maxSize bytes; the last payload per name is durable; the reply is one ACK each and then one whole rejection where one is due; the calls made are exactly those of these turns, none failed before the last turn, and its end is explained by the input, by the failed call, or by name and space; nothing stays in staging except on a failed removal |
| `Listener.OnlyInputEnds` | internal/receiver/listener.go:144-236 | if no call fails, no drawn name is taken, the disk has space and the ACKs can be written, then only the input ends a connection |
| `Listener.FrameRead` | internal/receiver/listener.go:159-213 | a header that parses with a payload that verifies is the frame of the decoded request |
| `Listener.SessionReceived` | internal/wire/protocol.go:67-254 | for every list of requests sent, the loop commits a prefix of that list, and the whole list when only the end of the input stopped it |
| `Listener.ChangedSourceReceived` | internal/wire/protocol.go:205-254 | when a file changes after Stat, what the receiver commits from that connection is a prefix of the earlier requests, unless the file goes on with the hash of its announced part; then that part is committed, and the frames that the rest of the file may hold |
| `Refinement.BarrierIsMachineRun` | internal/receiver/committer.go:18-56 | the barrier, with each of its six failures, does to the directory what a run of the machine's commit steps and exit does |
| `Refinement.TurnIsMachineRun` | internal/receiver/listener.go:159-235 | one turn of the connection loop, failures included, is a run of one handler |
| `Refinement.ConnectionIsMachineRun` | internal/receiver/listener.go:144-236 | the directory that a whole connection leaves, after any turns and whatever ended it, is that of a run of one handler |
| `Refinement.BootIsMachineStep` | internal/receiver/stager.go:13-28 | the directory that the boot cleanup leaves, failed removals included, is that of the machine's boot, and connections may follow from there |
| `Protocol.StepKeepsInv` | internal/sender/client.go:109-233 | every step of producer, senders, handlers, cuts and crashes keeps the stream invariant: bytes in flight are exactly the rest of the request being sent, replies answer it |
| `Protocol.RunKeepsInv` | internal/sender/client.go:109-233 | the same over every run |
| `Protocol.NoLoss` | internal/sender/client.go:128-233 | over every run: whatever was archived or deleted is durable at the receiver with exactly its bytes, so every produced file is always on the sender's disk or durably received |
| `Protocol.AckMatching` | internal/sender/client.go:154-217 | when an ACK is about to be read, it is the k-th and answers the k-th request, and every request so far on that connection is durable with the produced bytes |
| `Protocol.QuietBetweenFiles` | internal/sender/client.go:128-182 | between files on a live connection both streams are empty, both ends are at a frame boundary, and ACKs equal requests |
| `Protocol.Idempotent` | internal/receiver/committer.go:32-56 | every version of a name that the receiver ever shows is the produced one, however often it was sent |
| `Protocol.AckedIsDurable` | internal/sender/client.go:170-178 | a sender that has accepted an ACK may move the file: its request is durable |
| `Delivery.StepUnderway` | internal/receiver/listener.go:159-235 | while a completely written request is not committed, some step of the protocol is possible and brings it closer |
| `Delivery.RejectedButDurable` | internal/receiver/committer.go:40-53 | for every acceptable new file and every message, a run at whose end the sender finds exactly that rejection while the file is durable with the produced bytes |
| `Monitor.Tracker.PruneErrors` | internal/monitor/status.go:152-161 | keeps exactly the errors after the cutoff, in order, and counts them |
| `Monitor.Tracker.RecentErrorCount` | internal/monitor/status.go:183-189 | Evaluate's count: the recorded errors of the last 300 seconds, which are kept |
| `Monitor.WindowAgreesIff` | internal/monitor/status.go:131-161 | pruning only loses errors, and the pruned list agrees with the whole history at a cutoff if and only if no evaluation pruned an error beyond it |
| `Monitor.WindowAgreesWithHistory` | internal/monitor/status.go:183-189 | under a nondecreasing clock every evaluation counts all errors ever recorded in the last 300 seconds |
| `Queues.Queue.constructor` | internal/sender/queue.go:27-45 | an empty queue with the default limit of ten, and the count of `.failed` |
| `Queues.Queue.UpdateFailedCount` | internal/sender/queue.go:47-62 | counts the files in `.failed` if it can be read, and mirrors both counts |
| `Queues.FilesInCounts` | internal/sender/queue.go:47-62 | the failed count is the number of entries of `.failed` that are not directories |
| `Queues.Queue.Push` | internal/sender/queue.go:65-90 | a stopped queue and a name in the index change nothing and signal nobody; else the item is added, items oldest first, name indexed, counts mirrored, one signal |
| `Queues.Queue.TryPop` | internal/sender/queue.go:94-115 | takes the oldest item; blocks exactly when empty and running, closes exactly when empty and stopped |
| `Queues.Queue.RecordFailure` | internal/sender/queue.go:127-168 | counts the attempt; the last permitted one quarantines: counter and index entry go, the rest stays; any other requeues in order with one signal, unless the name is indexed |
| `Queues.Queue.Stop` | internal/sender/queue.go:170-175 | sets the stopped flag, changes nothing else of the queue, and broadcasts once |
| `Queues.SortByModTime` | internal/sender/queue.go:79-82 | a sorted permutation |
| `Queues.EveryRunOrdered` | internal/sender/queue.go:65-175 | after every sequence of calls by anyone: items oldest first, index within the items, counters in 1..max-1 |
| `Queues.AttemptsCountFailures` | internal/sender/queue.go:118-168 | the counter is the number of failures since the last success or quarantine, and quarantine fires on exactly every max-th |
| `Queues.NoDuplicates` | internal/sender/queue.go:65-168 | after every sequence of calls in which no failure quarantines a queued file, no name is queued twice and the index is exact |
| `Queues.IndexStaysExactIff` | internal/sender/queue.go:127-168 | a failure keeps an exact index exact if and only if it does not quarantine a file that is queued |
| `Queues.IndexCanDrift` | internal/sender/queue.go:65-168 | a call sequence after which a file is queued twice |
| `Scanners.Scanner.ScanOnce` | internal/sender/scanner.go:81-166 | the loop over entries updates the tracking states of exactly the visible files and hands over exactly the stable ones, each once, with the size and time of its entry, oldest first |
| `Scanners.ListedIff` | internal/sender/scanner.go:92-116 | a scan takes notice of exactly the entries that are files, not hidden, with a valid name and readable information |
| `Scanners.TrackedAsListed` | internal/sender/scanner.go:81-166 | what is tracked was listed by the last scan with the same size and time; an un-queued entry has count 1 |
| `Scanners.TwoScanStability` | internal/sender/scanner.go:119-148 | a file is handed over exactly when tracked, not queued, and listed identically by the immediately preceding successful scan |
| `Scanners.LatchHolds` | internal/sender/scanner.go:119-173 | the latch holds until the file is completed or missing from a scan |
| `Scanners.LatchIff` | internal/sender/scanner.go:119-173 | the latch of a file is set exactly when it was handed over and not released since |
| `Scanners.HandOverIff` | internal/sender/scanner.go:119-173 | over every sequence of scans and completions, told by the events alone, exactly when a scan hands a file over |
| `Scanners.HandedOverOnce` | internal/sender/scanner.go:119-173 | between two hand-overs of a name it was completed or missing from a scan |
| `Pipeline.StepKeepsInv` | internal/sender/client.go:109-183 | every step of scanner, queue, waiters and workers keeps single ownership, the latch, the exact index, the wakeup balance and conservation |
| `Pipeline.RunKeepsInv` | internal/sender/client.go:109-183 | the same over every run |
| `Pipeline.OneOwnerEver` | internal/sender/scanner.go:119-165 | no name is twice among pending pushes, queued items and workers, or in two of them; the index equals the names queued, even across quarantine |
| `Pipeline.NoSleepOverWork` | internal/sender/queue.go:65-175 | while a worker sleeps, at least as many workers are signalled as items queued; after Stop none sleeps |
| `Pipeline.PushesConserved` | internal/sender/client.go:119-182 | accepted pushes of a name are queued, in flight, succeeded or quarantined; when all workers have exited none is in flight |
| `Pipeline.ItemsAsListed` | internal/sender/scanner.go:119-165 | over every run each item waiting, queued or with a worker carries the size and time that a scan listed, the last scan to hand that name over |
| `Stranding.StrandsIff` | internal/sender/client.go:135-168 | of all steps, one newly strands a file if and only if it is a dial error on its last attempt without the move to `.failed`, or its push after Stop |
| `Stranding.AFileIsStranded` | internal/sender/client.go:135-151 | a six-step run from the start that strands a file by a dial error |
| `Stranding.APushIsDropped` | internal/sender/queue.go:65-71 | a five-step run from the start that strands a file without any failure |
| `Stranding.StrandedForever` | internal/sender/scanner.go:119-165 | a stranded file is never handed over again, over every continuation |
| `Handover.Approach` | internal/sender/client.go:119-182 | as long as a file that is not stranded waits, some step is possible that brings it closer to a worker, moves no file and strands none |
| `Handover.HandoverIff` | internal/sender/client.go:119-182 | in every reachable state of a running sender, a file in the outbox can still be handed to a worker if and only if it is not stranded |
| `Systems.StepKeepsInv` | internal/sender/client.go:109-233 | every step of the joined machine is a step of its parts and keeps both their invariants, the common outbox with its sizes, and that a connection in use carries the file its worker holds |
| `Systems.RunKeepsInv` | internal/sender/client.go:109-233 | the same over every run |
| `Systems.ExitedHaveHungUp` | internal/sender/client.go:109-117 | over every run, a worker that has left its loop has no connection open |
| `Guarantees.NothingIsLost` | internal/sender/client.go:109-233 | no loss, single ownership and the common outbox, over every run of the joined machine, restarts of both sides included |
| `Guarantees.OnItsWayArrives` | internal/sender/client.go:154-233 | a request that its worker has written completely on a connection that is not cut can still be committed, acknowledged and archived |
| `Guarantees.WaitingDelivers` | internal/sender/client.go:119-233 | a file that waits, wherever scanner, queue and workers stand, can still be delivered through them, without stranding or moving another |
| `Guarantees.DeliverableIff` | internal/sender/client.go:109-233 | in every reachable state of a running sender, an acceptable file in the outbox can be delivered without a restart, durably and exactly, and without stranding or moving another file, if and only if it is not stranded |
| `Guarantees.EverythingDeliverable` | internal/sender/client.go:109-233 | in every reachable state of a running sender, one continuation without restart delivers every acceptable file that is not stranded, and strands no further one |
| `Guarantees.DeliverableAfterRestart` | internal/sender/client.go:70-84 | after every possible restart of the sender, with whatever files restored, times listed and workers started, every acceptable file in the outbox can be delivered, each alone and all in one go |
| `Guarantees.RestartPossible` | internal/sender/client.go:70-84 | a restart is possible in every reachable state, with any moved files restored and any number of workers |
| `Progress.StepWork` | internal/sender/queue.go:118-168 | without a push no step adds attempts still permitted, and every finished attempt uses at least one |
| `Progress.RetriesRunOut` | internal/sender/queue.go:118-168 | over every run without pushes the finished attempts and the work left are at most the work at the start |
| `Progress.NoWorkMeansDrained` | internal/sender/queue.go:118-168 | no work left means nothing queued and nothing in flight |
| `Progress.OldestFirst` | internal/sender/queue.go:77-168 | with one worker and no pushes the files popped, retries included, are nondecreasing in modification time for any failures |
| `Progress.PoisonRunsOut` | internal/sender/queue.go:127-168 | one file is tried at most as often as it has attempts left, at most max times |

## Left out

- TLS, certificates and fingerprint pinning (`internal/tlsutil`): library calls; a connection is an authenticated byte stream.
- SHA-256 itself: a parameter with a 32-byte result; the incremental hasher is the sequence absorbed so far.
- Deadlines, tickers, backoff times and context cancellation: steps that may happen at any time, or failures that may happen at any read or write.
- Threads and locks: each locked operation and each system call is one atomic step of `Pipeline`, `ReceiverMachine` or `Protocol`; the methods of `Receiver` and `Streams` describe one handler or worker running alone, and `Refinement` relates the former to the machine of many handlers.
- `Protocol` alone lets any connection pick any file of the outbox at any time; `System` restricts it to the file that the connection's worker holds.
- The clock is a parameter of the tracker's methods.
- Queues.Queue.TryPop: is one pass of the wait loop; waiting and waking are steps of `Pipeline`.
- Queues.SortByModTime: returns a new sequence; the in-place sorting of a shared slice is not modelled.
- Progress.RetriesRunOut: bounds the number of finished attempts, not the time they take.
- Scanners.Scanner.ScanOnce: the directory read and the pass over its entries are one step, so a file that vanishes between the two is one that was not listed.
- Guarantees.DeliverableIff: shows that delivery remains possible, not that it happens; that needs fairness of the network and of the machines.
- Queues.Queue.Push: counts its signal; whom the signal wakes is a step of `Pipeline`.
- Durability.CommitLands: assumes that the machine does not stop between rename and directory sync; if it does, `ReceiverMachine.CrashAtomicity` says what is left.
- The text of rejections: any byte sequence.
- Listener.HandleConnection: does not log closing a file after a failure or closing the directory, whose results the code ignores.
- The tracker's success counters, its count of active connections (set in separate steps from the real one), disk statistics, the old-staging check and the health states: each is settled by reading one function.
- `FileItem.Path` and the directory part of paths: a file is known by its name.
- Status server, polling client, rendering, `ParseByteSize`, command line, signals, logging, containers and scripts: input and output, or easy members.
- Consumers that remove files from the incoming directory.
