# Verified model of the video encoder service

The service takes encode jobs from a RabbitMQ queue, runs each one on a pool of workers (download,
fragment, encode, upload, clean up), keeps a job row up to date in a database and settles the queue
message. Hardly any single function in it is difficult. What is difficult is how broker, consumer,
workers, database and scratch disk interleave, and that is what this project models and proves
things about.

`dafny verify dfyconfig.toml` checks everything.

## Structure

| file | what it holds |
|---|---|
| `Delivery.dfy` | broker, consumer goroutine, `MessageChannel`, workers, `ResultChannel`, result logger and the shutdown sequence of `main`, as a labelled transition system |
| `DeliveryInvariant.dfy` | its inductive invariant, one predicate a concern, one preservation lemma a party |
| `Attempts.dfy` | any number of interleaved attempts: job rows, scratch directories, uploads, one outside call a step; and their invariant |
| `System.dfy` | the two combined: a worker settles a message with the verdict of its own attempt |
| `Guarantees.dfy`, `Settlement.dfy`, `ScratchLock.dfy`, `Shutdown.dfy` | what holds in every state of every run of the combination |
| `UploadPool.dfy`, `Upload.dfy` | the upload pool as a transition system; walk, pool and result of `ProcessUpload` |
| `Paths.dfy`, `ObjectNames.dfy` | lexical path cleaning and object naming |
| `Traces.dfy`, `UploadTrace.dfy` | what one attempt does, as a sequence of its calls in `Attempts`; any run of the upload pool is one |
| `Pipeline.dfy`, `Worker.dfy` | the same attempt as the sequential code it is: repository, disk, bucket, service, processor and worker as objects changed in place. Every method is tied to a trace |
| `QueueClient.dfy` | the RabbitMQ client's two mutable fields |
| `ConsumerRuns.dfy`, `ConsumerLoop.dfy` | any run of the delivery protocol as the consumer sees it; the consumer's loops and backoff, driven by such a run |
| `Witnesses.dfy` | concrete runs of the service in which every kind of step occurs |
| `Codec.dfy`, `EndToEnd.dfy` | the JSON message, both ways, and the handler that publishes it; from a published request to its row |

How the labels of the transition systems correspond to the code:

| labels | code |
|---|---|
| `Publish`, `Deliver`, `Drop`, `Sever` | publishers, broker and network: a message is queued, pushed within the prefetch window, a session ends at the broker (its unacked messages become ready again), a session ends at the client |
| `Check`, `Subscribe`, `SeeCancel`, `Receive`, `StreamEnds`, `Handoff`, `HandBack`, `Resume`, `WaitOver`, `Redial`, `Redeclare` | the program points of `RunQueueConsumer`, `consumeOnce` and `reconnect` (`internal/job/manager.go`) |
| `Take`, `Settle`, `SendResult`, `Quit` | one turn of `JobWorker`, and its exit (`internal/job/worker.go`) |
| `Cancel`, `ConsumerDone`, `CloseMessages`, `WorkersDone`, `CloseResultChannel`, `LoggerExit`, `LoggerDone`, `CloseConnection` | `main` from its select on, and the deferred stop function (`cmd/main.go`, `internal/job/manager.go`) |
| `FindVideo`, `InsertRow`, `ReadRow`, `WriteRow` | the database calls of `CreatePendingJob` and `updateStatus` |
| `OpenService`, `Download`, `MakeDirectory`, `ToolFragment`, `FragmentDone`, `ToolEncode`, `EncodeDone`, `CopyFile`, `UploadDone`, `Remove` | the calls that `process` makes, in its order; the `Tool…` and `CopyFile` steps are what a running tool or upload does meanwhile |

An acknowledgement carries the session and tag its delivery came with. It reaches the broker only if
both sides still hold that session open, and even then it may be lost; otherwise it changes nothing.

## Assumptions

- The broker itself does not lose its queue.
- A repository update that reports an error has not changed the row. An insert that reports an error
  may have stored its row all the same.
- Generated job ids are fresh.
- Error texts are not empty. (The worker takes an empty text for success.)
- Video ids are ordinary file names.
- `mp4fragment` and `Download` have written their target when they report success.
- A directory that could not be removed is still there, with whatever files are left in it.
- Every call into the database, the storage service, the file system or a tool returns, with success
  or with an error; which of the two is left open. So are timeouts and cancellation by a deadline.
- Validation of a new job row, between the video lookup and the insert, is part of the outcome of the
  lookup.
- The broker keeps to the prefetch window of the channel it delivers on
  (`QueueClient.HeldChannelIsLimited` says that the window is set on every channel).

In `Attempts` an upload can succeed only when every file of a non-empty directory has been uploaded.
This is no assumption: `UploadTrace.UploadIsTrace` proves it of every run of the upload pool.

## Where code and documentation differ

- The state diagram in `README.MD` lets every failing job become `Failed`. In the code the row of a
  failing job becomes `Failed` exactly if its last database call is an Update that succeeds. Otherwise
  it stays `Pending` or `Processing` for good, even for a job that was uploaded in full and whose mark
  `Completed` failed, or whose insert reported an error after storing the row
  (`Guarantees.FailureIsRecordedExactly`, `Guarantees.EndedRowIsFinal`, `Pipeline.UnrecordedFailure`).
- `README.MD` says that a failed message is rejected and routed to the dead-letter queue. That happens
  exactly if the rejection reaches the broker, which takes a session that both sides still hold
  (`Settlement.SettledExactlyIfReached`). Otherwise it is never dead-lettered on behalf of that attempt,
  and it becomes ready again once its session has ended; `Witnesses.RejectionGetsLost` is a run in
  which it does.
- An object name is the prefix joined with the path relative to the output directory only if the
  directory's path is clean, or the prefix swallows it (`ObjectNames.DocumentedNameExactly`). With
  storage path `.` or one with a trailing slash the directory shows in the name as well
  (`ObjectNames.UncleanDirectoryShowsInNames`). Names stay distinct in any case.
- `Connect` on a client that is already connected forgets the old connection without closing it
  (`QueueClient.ClientLedger` counts these, `QueueClient.SecondConnectLeaks` shows one). `main` never
  does that.
- A failed upload may leave a truncated object: `UploadObject` closes the writer after a failed copy,
  which commits what was written. Nothing is claimed about the objects of failed files.

## Model

| member | source | states |
|---|---|---|
| Guarantees.MessageConservation | internal/job/manager.go:145-187 | In every reachable state, across any number of lost sessions, each published message is in exactly one place at the broker: ready, unacked in one slot, acknowledged or dead-lettered |
| Guarantees.LiveCopyIsUnique | internal/job/manager.go:151-166 | An unsettled delivery in stream, hand, channel or worker whose session the broker still knows stands for a message the broker holds unacked under that very tag, and no other live copy stands for that message |
| Guarantees.SettleTouchesOneMessage | internal/job/worker.go:67-82 | A stale settle call leaves the broker as it was; one that arrives moves exactly its own message, to acknowledged if the attempt ended without error and to dead-lettered otherwise |
| Guarantees.HandBackTouchesOneMessage | internal/job/manager.go:159-164 | Handing a message back at shutdown leaves the broker as it was if its session is gone; if the call arrives, exactly that message becomes ready again |
| Guarantees.SettledIsFinal | internal/job/worker.go:64-82 | What is acknowledged or dead-lettered stays so, on behalf of the same attempt, for the rest of every run |
| Settlement.SettledExactlyIfReached | internal/job/worker.go:67-82 | In every continuation of a settle call: a message is dead-lettered on behalf of the attempt if and only if the call reached the broker and the attempt has failed, acknowledged if and only if it reached the broker and the attempt has succeeded; it can reach it only over the session of the message, held open by both sides |
| Settlement.SettleCanArrive | internal/job/worker.go:67-82 | While both sides hold the session of its message, a worker whose attempt has ended can make its settle call, and the call can arrive, also during shutdown |
| Settlement.HandBackCanArrive | internal/job/manager.go:161-164 | The same for a delivery that the consumer holds when the shutdown begins |
| Settlement.ReadyCanBePushed | internal/queue/queue.go:71-77 | Any ready message can be pushed over any open session that has a consumer and room in its window |
| Settlement.NothingGetsStuck | internal/job/manager.go:151-160 | What has been received can always go on to the consumer, to a free slot of MessageChannel and to an idle worker, and a worker can always report its result |
| Witnesses.RequestSucceeds | internal/job/worker.go:26-32 | A run in which a published request is carried out: its message ends up acknowledged, its row Completed, its file uploaded |
| Witnesses.MessageIsDeadLettered | internal/job/worker.go:39-43 | A run in which a malformed message ends up dead-lettered, without a row |
| Witnesses.RejectionGetsLost | internal/job/worker.go:72-76 | A run in which the broker drops the session, the worker then rejects its message, and the message ends up ready, not dead-lettered |
| Witnesses.DeliveryIsHandedBack | internal/job/manager.go:159-164 | A run in which the shutdown finds a delivery in the consumer's hand, and the message ends up ready |
| Witnesses.MessageIsProcessedTwice | internal/job/manager.go:108-140 | A run in which a session is lost while a message is unacked, a dial fails and the next succeeds, and the message leads to a second row: the bound on duplicates is reached |
| Guarantees.SettlementSound | internal/job/worker.go:26-62 | A message is acknowledged only for an attempt on it whose row is Completed without error and for which every file that its Encode left has a successful upload by that attempt (processor disabled: whose row is Pending); dead-lettered only for an attempt that ended with an error and whose row, if any, is not Completed; nothing is settled before its attempt ends |
| Guarantees.StatusHistory | internal/job/processor.go:63-86 | Every row's statuses are a prefix of Pending, Processing, Completed or Failed, or Pending, Failed; with the processor disabled just Pending; exactly the Failed ones carry an error |
| Guarantees.HistoryGrows | internal/job/service.go:84-98 | No run ever takes a status back: a row's history only gets longer |
| Guarantees.TerminalStatusIsFinal | internal/job/service.go:84-98 | A row that is Completed or Failed never changes again, although updateStatus checks no transition |
| Guarantees.NoLostUpdate | internal/job/service.go:84-98 | Whatever ran between Find and Update, the update writes the row as it is at that moment with the new status and error |
| Guarantees.FailureIsRecordedExactly | internal/job/processor.go:63-80 | Whatever call ends a failing attempt that has a row, the row is Failed, with the attempt's error, if and only if that call is an Update that succeeds; otherwise it is Pending or Processing |
| Guarantees.EndedRowIsFinal | internal/job/worker.go:36-62 | The row of an attempt that has ended is the same in every later state |
| Guarantees.OnlyTheInserterWrites | internal/job/worker.go:45-54 | A row changes only by a call of the attempt that inserted it, and no other attempt has that row, even when the message is delivered twice |
| Guarantees.HandoffNeverBlocks | internal/job/manager.go:155-160 | As long as no session is lost, a consumer that holds a delivery finds a free slot in MessageChannel, whatever the workers are doing |
| Guarantees.DuplicateBound | internal/job/worker.go:36-51 | A message leads to at most one row plus one for each session that was lost while the message was unacked in it; handing back at shutdown adds none |
| Guarantees.AtMostOnceWithoutLoss | internal/job/manager.go:159-164 | In a run without a lost session a message gets at most one attempt and one row |
| ScratchLock.DirectoryIsLock | internal/video/service.go:72-75 | At most one attempt a video is between its Mkdir and the removal of the directory; meanwhile the directory holds only files its own Encode wrote; every upload ever made is of a file the uploader itself produced |
| ScratchLock.OnlyTheHolderTouches | internal/video/service.go:91-133 | Whoever changes a video's directory or fragmented file works on that video and holds the directory, or takes it with that step |
| ScratchLock.AbandonedExactlyByFailure | internal/job/processor.go:106-124 | A directory becomes a leftover by exactly four calls: a failing fragment, encode or upload of its holder, or a failing removal of the directory |
| ScratchLock.LeftoverIsAbsorbing | internal/video/service.go:73-75 | A leftover directory stays for the rest of the run, and every attempt on that video that starts later, or was before its Mkdir, has a row that is Pending, Processing or Failed, never Completed |
| ScratchLock.LeftoverIsNeverAcked | internal/job/worker.go:72-81 | Nor is a message ever acknowledged on behalf of such an attempt |
| Shutdown.StopIsSafeAndComplete | internal/job/manager.go:68-96 | Nobody sends on a closed channel or closes one twice; when stop has returned, MessageChannel is empty, all workers are gone, and every handed-over message has had exactly one settle attempt and one consumed result |
| Shutdown.ConnectionClosedLast | cmd/main.go:79-83 | The consumer's connection is lost only by the network, by a redial, or by main, and by main only after all of that |
| Shutdown.StepLowersMeasure | internal/job/manager.go:91-96 | After cancellation every step of the program lowers a measure, no step of broker or network raises it, and a publish raises it by a constant |
| Shutdown.ShutdownIsBounded | cmd/main.go:164-170 | So the program takes boundedly many steps until it has stopped, whatever the rest of the world does |
| Shutdown.NeverDeadlocked | internal/job/manager.go:152-166 | After cancellation, until stop has returned, the program always has a step of its own to take |
| Witnesses.ShutdownCompletes | internal/job/manager.go:91-96 | A run that carries a request out and then shuts down to the last step |
| DeliveryInvariant.StepInv | internal/job/manager.go:63-168 | Every step of every party keeps the invariant of the delivery protocol |
| Attempts.CallInv | internal/job/processor.go:63-127 | Every call of every attempt keeps the invariant of rows, directories and uploads |
| System.RunInv | internal/job/worker.go:26-32 | Both invariants, and the link between an attempt and the message it is for, hold in every state of every run |
| Pipeline.TraceInv | internal/job/processor.go:63-127 | Whatever sequential attempt leads to satisfies the invariant of interleaved attempts |
| Pipeline.JobService.UpdateStatus | internal/job/service.go:84-98 | Is a Find and an Update of the transition system; fails if the row does not exist; on success exactly status and error of that row change, on failure nothing does |
| Pipeline.ScratchDisk.Mkdir | internal/video/service.go:73-75 | Succeeds only if the directory is absent, and then creates it empty |
| Pipeline.VideoService.Download | internal/video/service.go:49-69 | Touches nothing but the source file, which it may overwrite even when it fails |
| Pipeline.VideoService.Fragment | internal/video/service.go:72-88 | Succeeds exactly if the directory was absent, could be made and the tool succeeded; without the directory it touches no file; a failure after Mkdir leaves the directory |
| Pipeline.VideoService.Encode | internal/video/service.go:91-108 | What is in the own directory afterwards is exactly what the tool's writes and deletions make of it, all under this attempt's name; other directories, sources and fragments are as before |
| Pipeline.VideoService.Finish | internal/video/service.go:113-133 | Every target is removed on its own account, whatever came of the others, and nothing else is; nil exactly if all three removals succeeded |
| Pipeline.Processor.UploadOutputs | internal/job/processor.go:131-143 | Calls ProcessUpload on storage path and video id; nil if and only if the directory can be read, is not empty and every file of it is uploaded; then the bucket holds the tree under its object names, and in any case no other object changed |
| Pipeline.Processor.Prepare | internal/job/processor.go:95-111 | Succeeds if and only if every call up to the fragmenting does and the directory was not there; then it is there, empty |
| Pipeline.Processor.Package | internal/job/processor.go:112-126 | Succeeds if and only if encoding and upload do; the directory is gone afterwards exactly if everything succeeded and it could be removed; a failing clean-up does not fail the job |
| Pipeline.Processor.Process | internal/job/processor.go:83-127 | Succeeds if and only if the mark Processing, every step and the upload of every file do and the directory was not there; then the tree is in the bucket |
| Pipeline.Processor.Conclude | internal/job/processor.go:68-79 | Makes one mark, Completed if the work succeeded and Failed with its error if not; nil exactly if the work and the mark succeeded; a failed mark leaves all rows as they were |
| Pipeline.Processor.Run | internal/job/processor.go:63-80 | The row is Completed if and only if the work and the mark Completed succeeded, Failed with the returned error if and only if the work failed and the mark Failed succeeded, and otherwise as before the failed mark; nil if and only if Completed; whether the work succeeds is decided by the outside calls alone, and then the tree is in the bucket even if the mark fails |
| Pipeline.EndedRow | internal/job/processor.go:63-80 | An attempt that has ended under an enabled processor ended well exactly if its row is Completed |
| Pipeline.BeforeTerminalMark | internal/job/service.go:64-81 | Before every mark the row is Pending or Processing |
| Pipeline.UnrecordedFailure | internal/job/processor.go:69-71 | A concrete run of a failing job whose row stays Processing |
| Worker.Acknowledge | internal/job/worker.go:67-82 | Exactly one settle call: Ack without an error, Nack without requeue with one; none without an acknowledger |
| Worker.Worker.CreatePendingJob | internal/job/service.go:36-52 | Succeeds exactly if the service has its repositories and lookup and insert succeed; a stored row is pending, for the message's video and prefix, under an id that was never used before, and no other row changes |
| Worker.Worker.ProcessPayload | internal/job/worker.go:36-62 | Begins one attempt and takes it to its end, and returns the error it ended with; there is none exactly if the message parses, the row is created and, with the processor enabled, all the work and the mark Completed succeed |
| Worker.Worker.Handle | internal/job/worker.go:28-30 | One attempt, then one settle call: Ack if and only if the attempt ended without an error, otherwise Nack without requeue; under an enabled processor, for an attempt with a row, Ack if and only if that row is Completed; earlier attempts and rows stay as they were |
| Worker.Worker.JobWorker | internal/job/worker.go:26-32 | Over any messages, in order: one attempt, one result and one settle call each, which is Ack if and only if the attempt ended without an error (under an enabled processor: its row is Completed) and otherwise Nack without requeue |
| Worker.Assemble | cmd/main.go:65-68 | The service with empty stores is one that the worker's methods accept |
| UploadPool.EveryFileIsSomewhere | internal/upload/manager.go:105-120 | At every step each file index is in exactly one of unsent, in the channel, at one worker, done |
| UploadPool.PoolResult | internal/upload/manager.go:110-141 | When all workers have returned every file has been tried exactly once, Errors is exactly the failed ones, each once, all others hold their content, and no foreign object was touched |
| UploadPool.StepLowersWork | internal/upload/manager.go:130-141 | Every step of the pool lowers a measure |
| UploadPool.NeverDeadlocked | internal/upload/manager.go:115-120 | Until all workers have returned some step is possible |
| UploadPool.UploadCanSucceed | internal/upload/manager.go:130-141 | For any files there is an interleaving in which all uploads succeed |
| Upload.LeavesAreFiles | internal/upload/manager.go:66-76 | The collected files are exactly those found by following a path through the tree name by name, each with its own content |
| Upload.ReadableExactly | internal/upload/manager.go:66-76 | The walk fails if and only if something unreadable is found at some path of the tree |
| Upload.HasFilesExactly | internal/upload/manager.go:88-90 | Nothing is collected if and only if there is a file at no path |
| Upload.SampleFiles | internal/upload/manager.go:66-76 | The files of a small tree with a subdirectory, by their paths and contents, and what is not a file of it |
| Upload.WorkersAreBounded | internal/upload/manager.go:98-104 | As many upload workers as asked for, at least one, but no more than files |
| Upload.WalkedAreLocalPaths | internal/upload/manager.go:66-76 | The walk reports, in order, the path of each file of the tree and no other |
| Upload.PoolNames | internal/upload/manager.go:37-46 | No two files of a tree get the same object name |
| Upload.UploadRefinesCopy | internal/upload/manager.go:80-127 | For every interleaving: no recorded error means that for every path at which the tree has a file the object of its name holds that file's content; in any case no object changed but those of the tree's files |
| Upload.CopyByExample | internal/upload/manager.go:80-127 | Copied means for that tree: the two contents are in the two objects of the cleaned prefix |
| UploadTrace.UploadIsTrace | internal/job/processor.go:131-143 | Every finished run of the upload pool over the output directory is a sequence of copies of its files, ended by a result that is nil if and only if the pool recorded no error, and then every file has been uploaded |
| UploadTrace.FilesOfTree | internal/job/processor.go:131-143 | The files of the directory are those found at the paths of the tree |
| Upload.VideoUpload.LoadPaths | internal/upload/manager.go:66-76 | Succeeds exactly if everything below VideoPath can be read, and has then collected the walked paths |
| Upload.VideoUpload.RunPool | internal/upload/manager.go:105-141 | After any interleaving Errors holds the paths of the recorded indexes, in the order of recording |
| Upload.VideoUpload.ProcessUpload | internal/upload/manager.go:80-127 | Nil if and only if the tree could be read, has a file, the client opened and no upload failed; nil means that every file found in the tree is in its object with its content; never is another object touched |
| ObjectNames.TrimsExactlyWhenClean | internal/upload/manager.go:37-38 | VideoPath is a prefix of the reported path exactly when it is a clean path below root or working directory; then what remains is the relative path |
| ObjectNames.NameShape | internal/upload/manager.go:37-46 | For every directory and prefix, clean or not, an object name is a fixed front followed by the relative path |
| ObjectNames.NamesAreInjective | internal/upload/manager.go:37-46 | For every directory and every prefix, different files get different names |
| ObjectNames.NameIsUnderPrefix | internal/upload/manager.go:35-36 | With a clean VideoPath the name is the relative path under the cleaned prefix in use |
| ObjectNames.NameUnderGivenPrefix | internal/upload/manager.go:37-46 | With a clean VideoPath and a prefix the name is the relative path under that prefix, cleaned |
| ObjectNames.NameUnderVideo | internal/upload/manager.go:40-43 | Without a prefix it is the video id, a slash and the relative path |
| ObjectNames.NamesByExample | internal/upload/manager.go:37-46 | The file "f" of "/s/v" becomes "p/q/f" under prefix "p/q/", and "v/f" without one |
| ObjectNames.BaseAtTheEdge | internal/upload/manager.go:42 | The base name of a path with a slash at its end is its last component, that of an empty path "." and that of the root "/" |
| ObjectNames.DocumentedNameExactly | internal/upload/manager.go:35-46 | The name is the documented one if and only if VideoPath is clean or the prefix swallows it |
| ObjectNames.UncleanDirectoryShowsInNames | internal/upload/manager.go:35-46 | Below "./v" the file "f" is uploaded under prefix "p" as "p/v/f", not as "p/f" |
| ObjectNames.EmptyPrefixKeepsVideosApart | internal/upload/manager.go:23-26 | With an empty prefix, outputs of different videos never collide, whatever the storage directory is called |
| Paths.CleanAppends | internal/upload/manager.go:45 | Cleaning keeps an ordinary component, under the cleaned path in front of it |
| Paths.CleanGoesUp | internal/upload/manager.go:45 | ".." takes back exactly the component in front of it |
| Paths.CleanDropsEmpty | internal/upload/manager.go:45 | A slash or "/." at the end makes no difference |
| Paths.CleanAtTheEdge | internal/upload/manager.go:45 | What cleaning makes of the empty path, the root, and ".." in front of a rooted or unrooted path |
| Paths.CleanIsIdempotent | internal/upload/manager.go:45 | Cleaning a clean path changes nothing |
| QueueClient.ClientLedger | internal/queue/queue.go:59-148 | After any operations connection and channel are both nil or both set, no connection is closed twice, and the connections opened, not closed and not held are exactly as many as successful Connects on a connected client |
| QueueClient.HeldChannelIsLimited | internal/queue/queue.go:71-77 | After any operations, reconnects included, a channel that the client holds has its prefetch window set, to the number of workers |
| QueueClient.SecondConnectLeaks | internal/queue/queue.go:109-113 | Connecting twice leaks the first connection |
| QueueClient.Client.ConnectLocked | internal/queue/queue.go:59-82 | Succeeds exactly if everything does, but for a window that is not set when the prefetch is zero; then both fields are the new connection, with its window set; otherwise both are as before, and what was opened is closed |
| QueueClient.Client.CloseLocked | internal/queue/queue.go:85-100 | Both fields are empty afterwards and the connection has been passed to a close call, whatever fails; the first error is reported |
| QueueClient.Client.ReconnectLocked | internal/queue/queue.go:207-210 | The old connection has been closed, whatever comes of the dial; on success both fields are the new connection, otherwise both are empty |
| QueueClient.Client.Reconnect | internal/queue/queue.go:116-121 | Never keeps the old connection: it is closed, and the client holds the one just dialed, or nothing if that failed |
| QueueClient.Client.Close | internal/queue/queue.go:144-148 | The client holds nothing afterwards, and what it held is closed |
| QueueClient.Client.EnsureReady | internal/queue/queue.go:133-141 | A usable client is left alone; from any other the old connection is closed, and it holds a new one exactly if nil is returned, otherwise nothing |
| QueueClient.Client.Publish | internal/queue/queue.go:186-205 | At most two attempts: the first over the held connection if it is usable and otherwise over a new one, the second, after a failed first, only over a connection opened for it; every connection left behind is closed; nil if and only if there was an attempt and the last one succeeded; never on a nil channel |
| QueueClient.Client.Declare | internal/queue/queue.go:153-182 | Each of the four declarations is made only if all before it succeeded |
| ConsumerRuns.RunIsPlayed | internal/job/manager.go:108-168 | Every run of the delivery protocol is a sequence of moves of the consumer, with steps of others in between |
| ConsumerRuns.ServiceRun | internal/job/manager.go:108-168 | Every run of the service contains such a run |
| ConsumerRuns.RunIsPath | internal/job/manager.go:108-168 | The moves of any run follow the program points of the loops, and hand over, in order, exactly what the run hands over |
| ConsumerLoop.BackoffBounds | internal/job/manager.go:17-21 | min(2^k, 30) seconds never leaves 1 to 30 seconds and never decreases in k |
| ConsumerLoop.BackoffSeconds | internal/job/manager.go:17-21 | The waits are 1, 2, 4, 8 and 16 seconds, and 30 from the fifth failure on |
| ConsumerLoop.WaitsAreBounded | internal/job/manager.go:131-138 | Within a streak of failed reconnects the wait never shrinks, after a success it is back at the minimum, and it is always within 1 to 30 seconds |
| ConsumerLoop.WaitsByExample | internal/job/manager.go:123-138 | Three interruptions, with a failed dial after the first and a successful reconnect after the second: the waits are 1, 2 and 1 seconds |
| ConsumerLoop.Forward | internal/job/manager.go:151-167 | Every delivery read is handed on, in order, but for at most the last one, which is handed back because of the shutdown |
| ConsumerLoop.RunQueueConsumer | internal/job/manager.go:108-140 | Driven by any run, the loop takes exactly the run's steps: its waits are min(2^k, 30) seconds each, k being the failed reconnects since the last success, it hands over what the run hands over, and it has returned if and only if the run has seen the shutdown; the client stays consistent and leaks nothing |
| ConsumerLoop.Follow | internal/job/manager.go:108-140 | On any run of the delivery protocol the loop hands over exactly what the run hands over, and it has returned if and only if the run's consumer has exited |
| ConsumerLoop.ConsumeOnce | internal/job/manager.go:145-168 | Subscribes only over a channel that the client holds, then forwards until the stream ends or the shutdown begins |
| ConsumerLoop.Reconnect | internal/job/manager.go:171-179 | Succeeds exactly if the run's dial and declarations do; then the failure count is zero and the client holds the connection just dialed; a failure adds one to the count; either way the old connection is closed, the client is consistent and nothing leaks |
| Codec.StringRoundTrip | internal/queue/queue.go:227-234 | For every Unicode text, with quotes, backslashes, control and HTML characters, reading its escaped literal gives the text back and leaves what follows |
| Codec.UnmarshalOfEncode | internal/job/worker.go:12-15 | Every message survives encoding and decoding |
| Codec.EncodeByExample | internal/queue/queue.go:227-234 | The text written for a message of letters, with its field names and punctuation |
| Codec.ParseOfEncode | internal/job/worker.go:85-100 | An encoded message is accepted if and only if both fields are non-empty, and then gives the same two strings |
| Codec.ParseOfOthers | internal/job/worker.go:85-100 | A message is read whatever the white space between its tokens, in whichever order its fields come, and past an unknown member |
| Codec.TailIsRefused | internal/job/worker.go:87-89 | Anything but white space after the object is an error |
| Codec.TrimSpaceExactly | internal/api/handlers.go:166-167 | Only white space is cut off, at both ends, and none is left there |
| Codec.ByteLengthBounds | internal/api/handlers.go:176-179 | A text has between one and four bytes a character, and one each exactly if it is ASCII |
| Codec.HandleCreateJob | internal/api/handlers.go:160-204 | Publishes exactly the requests whose trimmed fields are non-empty, with a UUID, a path of at most 1024 bytes without NUL, and an existing video; what it publishes the worker parses to the trimmed request, and an accepting answer repeats it |
| EndToEnd.RequestIsCarriedOut | internal/api/handlers.go:192-204 | The message of a published request carries exactly the request's trimmed video id and path; if it has been acknowledged under an enabled processor, there is a Completed row for these two, and the attempt's whole output has been uploaded; if it has been dead-lettered, an attempt on it has failed |

## Left out

- HTTP routing, DTO mapping, request logging, Swagger files and the other handlers: they read one
  record or write one, and touch neither the queue nor a job's progress.
- The UUID library is not part of this model: which texts are UUIDs is a parameter of the handler.
- GORM, Postgres, sqlite, migrations: rows are a map whose operations may fail.
- Storage service, Bento4 and real file contents: a bucket map, a write log, and files tagged with the
  attempt that wrote them.
- The AMQP wire protocol: only deliver, settle, requeue, prefetch window and loss of a session.
- Wall-clock time, deadlines and the 15 seconds of the HTTP shutdown. Fairness: instead of "eventually",
  the lemmas give a measure and the absence of deadlock.
- Environment parsing and struct-tag validation.
- JSON beyond objects with string members: other value types, case-insensitive keys and invalid UTF-8.
  Texts are sequences of Unicode scalar values.
- `Enqueue`, which sends a message without an acknowledger: no run of the service calls it, so the
  delivery protocol does not have it. `Worker.Acknowledge` covers such a message.
- The goroutines of `Manager.Start` and of the upload pool are transition systems, not methods: Dafny
  has no goroutines. `VideoUpload.RunPool` executes a given interleaving.
- The classes of `Pipeline.dfy` and `Worker.dfy` run one attempt at a time. Interleaved attempts are
  the subject of `Attempts.dfy` and what is built on it.
- Upload.VideoUpload.ProcessUpload: the tree is finite and does not change during the walk, and the
  names of its entries are ordinary.
- The source file `.mp4` is not protected by the directory; nothing is claimed about it while another
  attempt on the same video downloads.
- The order in which the broker delivers, and the redelivered flag.
