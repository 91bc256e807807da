# Incoming!! upload protocol: model and proofs

Incoming!! receives large files from browsers. The browser cuts a file into chunks and sends them over
a websocket with a bounded number of chunks ahead of the server's acks; when the connection breaks, or
the user pauses, it connects again and resumes at the position the server offers. The server appends
the chunks to a file, and hands the complete file over to the application backend. Timeouts, users and
the application backend may cancel at any moment.

This project models that protocol and the life of an upload on the server, and proves that

* the file handed over is the client's file, whatever the pattern of disconnects, pauses and resumes;
* bytes and chunks are conserved, the window is respected, and progress is never taken back;
* a lost connection costs nothing that is stored, and the browser resumes by itself;
* an upload ends by exactly the events that are meant to end it, and a delivered file is kept or removed
  exactly as configured;
* an undisturbed session is never stuck and ends after a number of steps known at its start;
* however handlers, timeouts, HTTP requests and the handover routine interleave, an upload has one
  outcome, announced at most once, and a finished cancel is final;
* uploads in the pools never share an id, nor a file, and none disturbs another's bytes.

`dafny verify dfyconfig.toml` checks all of it.

## How the files fit together

| file | what it holds |
|---|---|
| `Protocol.dfy` | messages and queues |
| `UploadSpec.dfy` | the server's upload as a value: each critical section as a function, and what the file holds |
| `Upload.dfy`, `Pools.dfy` | the uploader and the two pools as classes, proved against those functions |
| `Sender.dfy` | the browser's uploader: a function for each event, and the object proved against them |
| `Session.dfy`, `SessionEffects.dfy`, `SessionSafety.dfy` | one websocket handler: its steps, its routine proved to run those steps, what each step does to the upload, and what the routine achieves |
| `Transfer.dfy`, `TransferInv.dfy`, `TransferServer.dfy`, `TransferServerInv.dfy`, `TransferClient.dfy` | browser, connections and upload as one transition system, and its invariant |
| `TransferEager.dfy`, `TransferWindow.dfy`, `TransferCancel.dfy`, `TransferHandshake.dfy`, `TransferDelivery.dfy`, `TransferRetry.dfy` | six invariants on top: the sender is not idle, the window, the order behind a cancel, where a cancel lands, what becomes of a delivered file, when the browser retries |
| `TransferSafety.dfy` | the main results about transfers |
| `Progress.dfy` | why a session completes, and why a lost one resumes |
| `Lifecycle.dfy`, `LifecycleInv.dfy`, `LifecycleLog.dfy`, `LifecycleSteps.dfy`, `LifecycleFiles.dfy`, `LifecycleBytes.dfy`, `LifecycleDelivery.dfy` | one upload under any number of threads, each critical section a step, and its invariants |
| `LifecycleSafety.dfy`, `LifecycleAtomic.dfy`, `LifecycleAlone.dfy` | the main results about its life, and what a thread does between its interleavings |
| `LifecycleTimer.dfy`, `LifecycleChannel.dfy`, `LifecycleCleanup.dfy` | the same with the idle timer, when the handover channel can be closed, and when a cancelled upload can leave the pool |
| `LifecycleRuns.dfy` | runs that show that the results speak of something |
| `PoolSystem.dfy`, `SharedDisk.dfy` | many uploads entering and leaving the pools, and sharing a directory |

In `Transfer.dfy` a handler's step is all it does with one message, so that calls it makes in a row are
merged (binding, checking the size and reading the position; cancelling and cleaning up), and messages
travel over queues that may break at any point. In `Lifecycle.dfy` the calls are taken apart as finely
as the uploader's two locks allow; `LifecycleAtomic.dfy` shows that each call is nevertheless as if done
at once, and `LifecycleTimer.dfy` adds the idle timer that critical sections reset while they hold the
lock. All are built from the functions of `UploadSpec.dfy` that the class is proved to implement.

## Assumptions

* A socket delivers in order until it breaks; from then on it delivers no more than a prefix of what was
  under way.
* The client's file does not change while it is uploaded; the server checks only its size.
* Chunk size and send-ahead are at least 1 (`incoming_cfg.yaml:14-21`).
* An uploader is restarted after the close event of its old socket and any pending load are over;
  `EarlyRestartLosesSocket` shows what happens otherwise.
* Upload ids are not reserved yet when drawn, all equally long, and the storage directory is an
  absolute path without a trailing slash, emptied at start (`upload/to_local_file.go:34-48`).

## Where the code and its documentation part

* `upload/upload.go:130-134` calls cancelling a cancelled upload a no-op; it is refused with an error, so
  the test of `alreadyCancelled` (`upload/to_local_file.go:526`, `552`) never matters
  (`CancelChangesReceivingOnly`).
* `incoming_cfg.yaml:32-41` says the file is deleted after a handover that failed; nothing deletes it
  (`FailedHandoverLeavesFile`).
* `upload/upload.go:104-107` says the handover channel is written and closed eventually. It never is if a
  cancel wins before the handover is claimed (`CancelHappens` is a run that leaves a handler waiting so),
  nor if the idle timer fires just when a thread holds the lock to reset it, while the handover routine
  still needs that lock: the thread waits for the timeout routine, which waits for the lock, for ever
  (`upload/to_local_file.go:173-178`, `203-207`; `StuckHappens`, `StuckForEver`). Otherwise it always
  still can be (`ChannelClosesExactly`).
* `upload/upload.go:88-89` says a failed chunk "never happened"; it did if the final rename failed, or if a
  partial write could not be truncated away (`ConsumeAllOrNothing`). The handler cancels the upload
  after every failed chunk, so no transfer is affected.
* A cancel that the browser sends before it has received the upload config, and no other, is read as a
  missing ack: the client is told of an error and the upload lives on (`CancelLands`, `RefusedForEver`;
  `NackHappens` is such a run).
* An empty upload has no file: the backend is given an empty name (`HandedOverIntact`).
* A complete upload that was paused and then given an empty chunk would lose five characters of its
  final name (`ConsumeAfterCompletion`). The handler does neither once a file is complete.

## Model

| member | source | states |
|---|---|---|
| `UploadSpec.ConsumeAppends` | upload/to_local_file.go:288-361 | a chunk is stored if and only if the file can be created, reopened, written, renamed and the declared size is not exceeded; then the file holds the old bytes followed by the chunk, also for the first chunk, after a pause, and for the last one, which gives the file its final name |
| `UploadSpec.ConsumeAllOrNothing` | upload/to_local_file.go:334-346 | a chunk that is not stored leaves position and bytes as they were if and only if it left nothing irrevocable: no complete write whose rename failed, no partial write that could not be truncated, given as a condition on the call's inputs; then handle, path and state are in order too, and a failed create has only set the path |
| `UploadSpec.RetryAfterRefusal` | upload/upload.go:86-90 | after such a refused chunk the next one is stored under the same conditions and lands at `filePos` |
| `UploadSpec.ConsumeKeepsPrefix` | upload/to_local_file.go:339-346 | whatever becomes of a chunk, the file is a prefix of the bytes sent, no shorter than what is counted |
| `UploadSpec.ConsumeKeeps` | upload/to_local_file.go:319-332 | no call reopens an upload that is over, moves the position back or beyond the size |
| `UploadSpec.ConsumeDisciplined` | upload/to_local_file.go:348-358 | while the file is incomplete a chunk never panics on the path, whatever the system answers, and afterwards the name has lost its suffix only if the file is complete, so no later chunk of the handler slices it again |
| `UploadSpec.ConsumeAfterCompletion` | upload/to_local_file.go:308-317 | without it, a complete upload loses more of its name exactly if it was paused and an empty chunk goes through |
| `UploadSpec.TouchesOwnFilesOnly` | upload/to_local_file.go:539-547 | in whatever condition an upload is, also after a failed chunk, cancelling it and cleaning it up change no file but its own two paths |
| `UploadSpec.ConsumeTouchesOwn` | upload/to_local_file.go:298-352 | nor does a chunk, whatever the system answers, while the file is incomplete |
| `UploadSpec.PathsDisjoint` | upload/to_local_file.go:298 | two uploads of one directory share a path only if they have the same id |
| `UploadSpec.CancelChangesReceivingOnly` | upload/to_local_file.go:520-547 | a cancel closes and removes the file before the handover is claimed; later, and on a cancelled upload, it changes nothing |
| `UploadSpec.CleanUpExactly` | upload/to_local_file.go:601-643 | cleaning up happens to finished and cancelled uploads only; the file is removed if and only if the upload is finished, does not keep its file, and the system lets it; every other file, and every file that stays, is as before |
| `UploadSpec.PauseKeepsBytes` | upload/to_local_file.go:363-387 | a pause leads to Paused exactly from Uploading and Paused, closes the handle, and keeps every byte and the name |
| `LocalFileUploads.UploadToLocalFile.constructor` | upload/to_local_file.go:93-120 | a new upload is in Init, without file, and pooled under an id nobody had |
| `LocalFileUploads.UploadToLocalFile.SetFileSize` | upload/to_local_file.go:242-252 | the size is set in Init and frozen afterwards |
| `LocalFileUploads.UploadToLocalFile.BindToSocketHandler` | upload/to_local_file.go:266-275 | binding succeeds exactly if the upload was free |
| `LocalFileUploads.UploadToLocalFile.UnbindFromSocketHandler` | upload/to_local_file.go:277-286 | unbinding succeeds exactly if the upload was bound |
| `LocalFileUploads.UploadToLocalFile.ConsumeFileChunk` | upload/to_local_file.go:288-361 | fields, file system and error change as `Consume` says, so all of the above holds of the code's order of assignments and system calls |
| `LocalFileUploads.UploadToLocalFile.Pause` | upload/to_local_file.go:363-387 | pausing closes the handle, or is refused outside Uploading and Paused |
| `LocalFileUploads.UploadToLocalFile.HandFileToApp` | upload/to_local_file.go:389-409 | the routine is started exactly by the call that claims the handover |
| `LocalFileUploads.UploadToLocalFile.HandoverRoutine` | upload/to_local_file.go:411-498 | one request with the file's path; Finished after "done" or a confirmed "wait", else Cancelled with the file left in place, in spite of the Cancel call; the outcome is sent to a receiver, if there is one, and the channel closed, which it was not before |
| `LocalFileUploads.UploadToLocalFile.HandoverDone` | upload/to_local_file.go:504-518 | succeeds exactly if a handover routine is waiting for it |
| `LocalFileUploads.UploadToLocalFile.Cancel` | upload/to_local_file.go:520-599 | changes state, handle and file as `CancelUpload` says; tells the backend exactly if it cancelled and was asked to; the error says that it was too late, or that the request failed |
| `LocalFileUploads.UploadToLocalFile.CleanUp` | upload/to_local_file.go:601-643 | from Cancelled or Finished only: removes a finished file if configured, leaves the pool, closes the timeout channel, which is then closed for good; reports that it was too early, or that the file could not be removed |
| `Pools.LockedUUIDPool.New` | uidpool/locked_uuid_pool.go:42-52 | the first drawn id that is not in use, reserved now |
| `Pools.LockedUUIDPool.Remove` | uidpool/locked_uuid_pool.go:55-64 | releases exactly that id, or reports that it was not reserved |
| `Pools.LockedUploaderPool.Get` | upload/uploader_pool.go:54-59 | the upload pooled under the id, if any |
| `Pools.LockedUploaderPool.Put` | upload/uploader_pool.go:61-70 | inserts under an id that was neither reserved nor pooled, and every pooled id stays reserved |
| `Pools.LockedUploaderPool.Remove` | upload/uploader_pool.go:72-80 | entry and id are both gone, everything else stays, every pooled id stays reserved |
| `PoolSystem.PoolIsConsistent` | upload/uploader_pool.go:61-80 | over every interleaving of the halves of Put and Remove: pooled ids are reserved, an insertion never overwrites, lookups find the upload that has the id, no two uploads have one id |
| `PoolSystem.IdsAreExact` | uidpool/locked_uuid_pool.go:42-64 | over every interleaving the reserved ids are exactly those of the uploads that have one; none leaks |
| `PoolSystem.UploadsIsolated` | upload/to_local_file.go:298-352 | cancelling or cleaning up a pooled upload in whatever condition, or a chunk for one whose file is incomplete, leaves another's bytes as they are |
| `SharedDisk.FilesAreSeparate` | upload/to_local_file.go:288-361 | over every run of any number of uploads in one directory, each file holds exactly the chunks its upload accepted, in order, until it is cancelled or spoilt by a refused chunk |
| `Sender.Uploader.TryLoadAndSendFileChunk` | incoming_jslib.js:149-163 | starts loading the next slice as `TryLoad` says, at most one at a time |
| `Sender.Uploader.OnLoaded` | incoming_jslib.js:168-201 | a loaded slice is sent and counted, or dropped, as `OnLoad` says |
| `Sender.Uploader.OnLoadFailed` | incoming_jslib.js:202-206 | a failed load cancels |
| `Sender.Uploader.RecvMessage` | incoming_jslib.js:388-410 | the cancel wrapper takes the cancel ack and passes everything else to the handler underneath |
| `Sender.Uploader.RecvConfigMessage` | incoming_jslib.js:306-338 | restart from the offered position, ack, and go on to acks or to the final message |
| `Sender.Uploader.RecvChunkAckMessage` | incoming_jslib.js:212-247 | counts an ack and loads on, or waits for the final message; an error or a cancel from the server cancels |
| `Sender.Uploader.RecvFinalMessage` | incoming_jslib.js:252-268 | finished on success only |
| `Sender.Uploader.StartUpload` | incoming_jslib.js:270-293 | counters start again from the acknowledged bytes |
| `Sender.Uploader.OnOpened` | incoming_jslib.js:296-306 | asks for the upload with the file's size |
| `Sender.Uploader.OnClosed` | incoming_jslib.js:341-363 | schedules a retry unless paused, over or failed |
| `Sender.Uploader.CancelUpload` | incoming_jslib.js:375-436 | sends a cancel message and awaits its ack, or gives up at once without a socket |
| `Sender.Uploader.PauseUpload` | incoming_jslib.js:440-470 | drops load and retry, sends a pause message and closes |
| `Sender.CancelIsLastMessage` | incoming_jslib.js:375-410 | after a cancel message no event sends a chunk or another message on the socket, except a pause, which closes it; acks are still counted until the cancel ack arrives |
| `TransferRetry.CloseRetriesExactly` | incoming_jslib.js:341-357 | a lost socket schedules a retry if and only if the uploader is neither paused, finished, cancelled nor failed, and changes nothing else |
| `TransferSafety.LostSocketRetries` | incoming_jslib.js:341-357 | from every reachable state, and the retry stays pending over every run until the uploader is started, cancelled or paused |
| `TransferRetry.CancelTakes` | incoming_jslib.js:375-436 | a cancel takes effect whenever the uploader can be cancelled: over an open socket by exactly one message whose ack is awaited, without one at once; load and retry are dropped |
| `TransferRetry.CancelledForEver` | incoming_jslib.js:169-200 | over every run a cancelled uploader stays cancelled, never retries, and no chunk of it comes onto any connection |
| `TransferRetry.FailedLoadCancels` | incoming_jslib.js:202-206 | a load that fails drops the slice and cancels |
| `TransferRetry.PauseTakes` | incoming_jslib.js:455-470 | a pause sends exactly one pause message over an open socket and closes it, and drops load and retry |
| `TransferRetry.ServerErrorFails` | incoming_jslib.js:236-241 | an error from the server fails the uploader, and cancels it while chunks are still to come |
| `TransferRetry.FailedForEver` | incoming_jslib.js:341-347 | over every run a failed uploader stays failed and is not retried |
| `TransferRetry.LastMessages` | incoming_jslib.js:252-259 | the final message finishes, the ack of a cancel cancels, and both close the socket |
| `TransferRetry.StartBeginsAgain` | incoming_jslib.js:270-293 | a start begins at the acknowledged bytes with nothing ahead, no retry and no awaited ack; an earlier cancel or error is remembered |
| `Sender.EarlyRestartLosesSocket` | incoming_jslib.js:341-357 | a restart before the old socket's close event loses the new socket |
| `Session.WebsocketHandler.HandleRequest` | websocket.go:272-357 | lookup, bind, size and state checks and the offer, as the step function says |
| `Session.WebsocketHandler.ReceiveChunks` | websocket.go:380-484 | the receive loop runs exactly the handler's steps and ends with a complete file, a failed chunk or the handler's return |
| `Session.WebsocketHandler.ServeConnection` | websocket.go:272-489 | the whole routine, for every sequence of messages and system answers, leaves server and connection as the iterated steps do, and never calls the uploader where it would panic |
| `Session.WebsocketHandler.AwaitOutcome` | websocket.go:491-507 | the wait loop, for every sequence of messages, socket failures and the end of the handover routine, goes through exactly the handler's steps |
| `Session.WebsocketHandler.ReportOutcome` | websocket.go:508-534 | reports success only if the state says so, since a closed channel yields no error |
| `Session.HandshakeCancelIsNack` | websocket.go:359-378 | a cancel in place of the ack leaves the upload as it was and is answered by an error |
| `SessionSafety.AcceptedExactly` | websocket.go:283-347 | a session opens if and only if the upload is pooled, free, not over, and of the same size unless new; then the reached position is offered, else nothing changes |
| `SessionSafety.ServeStoresFile` | websocket.go:382-489 | a client that sends what the server lacks leaves it with exactly the whole file under its final name, one ack for each chunk in order, and the handover claimed, whether new or resumed |
| `SessionEffects.EndsReceivingExactly` | websocket.go:382-489 | a handler's step ends an upload that receives if and only if it finds the file complete, reads a cancel or an error, or gives up after a failed chunk; the first starts the handover, the others drop the upload with its file and its place in the pool |
| `SessionEffects.LossLeavesUpload` | websocket.go:385-396 | a handler that loses its connection leaves the upload as it is, unbound, wherever it stands |
| `SessionEffects.FrameEffects` | websocket.go:398-483 | reply, pool, handover and next phase for each kind of frame |
| `SessionEffects.FrameStores` | websocket.go:466-483 | a chunk is acknowledged and its bytes appended if and only if it can be stored, otherwise the handler gives up; a pause keeps every byte |
| `SessionEffects.FailingEffects` | websocket.go:468-482 | giving up drops the upload, unless it has been cancelled already |
| `SessionEffects.ReportEffects` | websocket.go:508-534 | who takes the routine's error passes it on and changes nothing; anybody else reports the state and, if it can write, has the upload cleaned up and out of the pool |
| `SessionEffects.MessagesAreIgnored` | websocket.go:493-502 | while a handler waits, its client's messages change nothing |
| `SessionEffects.LossEndsWaiting` | websocket.go:498-502 | a lost connection ends the wait and leaves the upload to the routine |
| `SessionEffects.OutcomeEndsWaiting` | websocket.go:503-534 | the end of the routine ends the wait: success is reported, cleaned up and unpooled, a failure is passed on |
| `TransferSafety.RunKeeps` | websocket.go:293-534 | every run of browser, connections and server keeps the invariant of `TransferInv.dfy` and the six on top of it |
| `TransferSafety.ReceivedPrefix` | upload/to_local_file.go:288-361 | before cancellation or handover the stored bytes are a prefix of the client's file that includes the counted `filePos` bytes, and exactly those unless the handler is giving up after a failed chunk; a handler that is not giving up has the continuation of the file before it |
| `TransferSafety.HandedOverIntact` | upload/to_local_file.go:415-426 | over every run: the bytes handed over are the client's file; they are under the final name if and only if the file is not empty; a finished browser implies a handover that succeeded |
| `TransferSafety.LivesUntil` | upload/to_local_file.go:520-531 | in every reachable state: an upload that receives stays so, and pooled, until exactly a timeout, a cancel by the backend, or a handler's step that finds the file complete, gives up, or reads a cancel or an error |
| `TransferSafety.DeliveredFileStays` | upload/to_local_file.go:618-628 | in every reachable state after a successful handover the client's file is there, for good if it is to be kept, otherwise until the clean-up |
| `TransferSafety.CleanUpDecides` | upload/to_local_file.go:618-628 | the clean-up removes the delivered file if and only if it is not to be kept and the system lets it |
| `TransferSafety.CleanedUpForEver` | upload/to_local_file.go:630-636 | nothing changes after the clean-up, over every run |
| `TransferSafety.BytesConserved` | incoming_jslib.js:173-231 | sent = stored + unread, stored = acknowledged + unprocessed acks, and both gauges of the sender measure the difference |
| `TransferSafety.WindowRespected` | incoming_jslib.js:152-161 | over an open socket, working or not, never more chunks ahead than allowed, nor more bytes than that many chunks; `bytes_tx` and `bytes_acked` in closed form |
| `TransferSafety.ChunksFitReadLimit` | websocket.go:206 | no chunk is empty, longer than a slice, or refused by a handler for its size |
| `TransferSafety.ResumeNeverRegresses` | incoming_jslib.js:270-338 | over every stretch of every run neither `bytes_acked` nor `filePos` shrinks, and `bytes_acked <= filePos <= total` |
| `TransferSafety.ExclusiveSession` | websocket.go:293-302 | beside a bound handler no other is bound, has chunks to read, or changes anything on the server |
| `TransferSafety.CancelLands` | incoming_jslib.js:375-410 | in every reachable state of a working connection whose handler has not left: a cancel that the browser sends lies where the receive loop will read it, before the file is complete, if and only if the config has been received, and will be refused if and only if it has not |
| `TransferSafety.RefusedForEver` | websocket.go:359-378 | a cancel that will be refused stays so over every run: its handler reads no chunk, changes nothing but the declared size of a new upload, and acknowledges no cancel |
| `TransferSafety.NackHappens` | websocket.go:370-378 | a run, for every file and configuration, in which a cancel is refused and the upload lives on |
| `TransferSafety.CancelNeverMissed` | incoming_jslib.js:185-188 | in every state after that, a cancel message behind the ack is unread only while the chunks on the way do not complete the file, so no handler goes on to the handover with one unread; a handler that gives up or has returned may leave it |
| `TransferSafety.CancelIsLast` | incoming_jslib.js:375-410 | in every reachable state, behind a cancel message that will be read in the receive loop there is nothing but a pause |
| `TransferSafety.CancelTakesEffect` | websocket.go:421-432 | when it is read the upload is cancelled and cleaned up, the file removed, the handover never started, and the client told |
| `Progress.ChunksForIsCeiling` | incoming_jslib.js:156-159 | the number of chunks is the quotient rounded up |
| `Progress.NeverStuck` | incoming_jslib.js:149-231 | in every reachable state with a working connection and an uploader that wants to send, as long as it waits for acks a load, a chunk or an ack is under way |
| `Progress.SessionCompletes` | websocket.go:382-484 | every step of an undisturbed session uses up one of the steps left; when none is left, and only then, everything is stored and acknowledged |
| `Progress.SessionBegins` | incoming_jslib.js:314-333 | a session takes three steps for each of its ceil((total - position) / chunk size) chunks, and one for the ack |
| `Progress.ChunksSent` | incoming_jslib.js:152-181 | a session that has sent everything has sent exactly ceil((total - position) / chunk size) chunks |
| `Progress.ResumeBegins` | websocket.go:342-350 | a free, incomplete upload can always be resumed, at the position it has reached |
| `Progress.LossIsHarmless` | websocket.go:385-396 | from every reachable state of a session, losing the connection leaves the upload as it was, unbound, and the uploader retrying unless it is paused or over |
| `Progress.ReconnectResumes` | incoming_jslib.js:341-357 | after a loss in the middle of a transfer the retry timer alone leads to a session that is offered the same position with the same bytes |
| `Progress.CompleteUploadResumes` | incoming_jslib.js:320-326 | an upload that is complete but not handed over, or empty, is resumed straight into the handover |
| `Progress.HandoverFollows` | websocket.go:486-489 | after the last ack the handover of the client's file is claimed |
| `Progress.ReportFollows` | websocket.go:517-523 | if the backend takes the file, the handler reports success |
| `Progress.FinishFollows` | incoming_jslib.js:252-259 | and the browser finishes |
| `Progress.UploadFinishes` | websocket.go:382-534 | once an upload has been offered, every undisturbed run of the known number of steps, followed by the handover, ends with a finished browser, a backend that has been handed exactly the client's file, and an upload that is cleaned up, unpooled and unbound, whose file stays if and only if it is to be kept |
| `LifecycleSteps.RunKeeps` | upload/to_local_file.go:191-643 | every interleaving of any number of threads keeps the invariant of `LifecycleInv.dfy` |
| `LifecycleSafety.StateMoves` | upload/upload.go:34-42 | the state moves only along the edges of the life cycle, in every reachable state, by whatever thread |
| `LifecycleSafety.SettleFindsHandingOver` | upload/to_local_file.go:478-485 | the unconditional state write of the handover routine always finds HandingOver |
| `LifecycleSafety.UniqueRoles` | upload/to_local_file.go:397-402 | one bound handler, one handover routine and one lock holder at most |
| `LifecycleSafety.AtMostOnce` | upload/to_local_file.go:411-498 | at most one outcome is announced; the channel is sent to and closed at most once; leaving the pool and stopping the timeout happen at most once and not before Cancelled or Finished |
| `LifecycleSafety.TruthfulCompletion` | websocket.go:493-523 | a success message to a browser implies a handover that succeeded, announced once; HandoverDone succeeds at most once, and only for a handover that has succeeded or is about to |
| `LifecycleSafety.ConfirmedIsHandedOver` | upload/to_local_file.go:504-518 | after HandoverDone has succeeded no run cancels the upload |
| `LifecycleSafety.CancelIsFinal` | upload/to_local_file.go:520-547 | after a cancel that removed the file no run of any threads reopens or recreates it, or hands it over |
| `LifecycleChannel.ChannelClosesExactly` | upload/upload.go:104-107 | in every reachable state of an upload that is no longer receiving, the handover channel can still be closed if and only if it was not a cancel that ended it and no thread is stuck in resetting a fired timer while the routine needs the lock |
| `LifecycleChannel.ClaimedHandoverCloses` | upload/to_local_file.go:411-497 | once the handover is claimed, some run closes the channel if and only if it is not so that a thread is stuck and the routine needs the lock |
| `LifecycleChannel.StuckForEver` | upload/to_local_file.go:173-178 | a thread that resets the timer when it has fired stays stuck over every run: the upload stores nothing more, its file stays, and it never leaves the pool |
| `LifecycleChannel.ActivityResets` | upload/to_local_file.go:266-361 | binding, unbinding, storing, pausing and cancelling end with the reset; if the timer has fired the thread is stuck |
| `LifecycleCleanup.CancelGoesOnToCleanUp` | incoming_httpserver.go:159-165 | whoever cancels, handler, timeout or backend, is on its way to the clean-up as long as the upload is pooled |
| `LifecycleCleanup.CleanUpExactly` | upload/to_local_file.go:601-643 | a cancelled upload can still leave the pool if and only if no thread is stuck in resetting a fired timer, or bound to be |
| `LifecycleTimer.ReachableProjects` | upload/to_local_file.go:191-216 | the timer only takes behaviour away: what holds in every state reached without it holds in every state reached with it |
| `LifecycleChannel.CancelClosesNothing` | upload/to_local_file.go:397-409 | once a cancel has won, whether or not the file could be removed, no run starts the routine, closes its channel or announces the file |
| `LifecycleRuns.CancelHappens` | upload/to_local_file.go:398-409 | a run in which a cancel overtakes a complete upload, leaving its handler waiting on that channel |
| `LifecycleRuns.StuckHappens` | upload/to_local_file.go:203-207 | a run, with the handover under way and no cancel, in which the handover routine gets stuck |
| `LifecycleRuns.ConfirmationHappens` | upload/to_local_file.go:504-518 | a run in which HandoverDone succeeds |
| `LifecycleRuns.FailedHandoverHappens` | upload/to_local_file.go:483-489 | a run in which the handover of a non-empty file fails |
| `LifecycleSafety.HandoverUndisturbed` | upload/to_local_file.go:319-324 | while HandingOver the named file is exactly the stored chunks one after the other, of the declared size, and is what the backend was told, and no step changes it |
| `LifecycleSafety.AnnouncedBytes` | upload/to_local_file.go:415-426 | under every interleaving, what the backend was told to fetch was exactly the stored chunks |
| `LifecycleAtomic.StoringIsAtomic` | upload/to_local_file.go:288-361 | whatever other threads do in between, the critical sections of ConsumeFileChunk do together what `Consume` does at once |
| `LifecycleAtomic.PausingIsAtomic` | upload/to_local_file.go:363-387 | the same for Pause |
| `LifecycleAtomic.CancellingIsAtomic` | upload/to_local_file.go:520-549 | the same for Cancel up to its request |
| `LifecycleAtomic.CleaningIsAtomic` | upload/to_local_file.go:618-636 | the same for CleanUp once it has begun |
| `LifecycleAlone.OpenCall` | websocket.go:293-334 | a handler alone binds a free upload, fixes or checks the size, or is turned away |
| `LifecycleAlone.HandshakeCall` | websocket.go:336-378 | it goes on to receive unless the upload was over or the handshake fails |
| `LifecycleAlone.ChunkCall` | websocket.go:466-483 | it consumes a chunk as a whole and goes on, or gives up |
| `LifecycleAlone.PauseCall` | websocket.go:413-420 | it pauses the upload and goes on |
| `LifecycleAlone.LossCall` | websocket.go:385-396 | a lost connection leaves the upload alone, unbound |
| `LifecycleAlone.CancelFrame` | websocket.go:421-482 | a cancel message, or a failed chunk of an upload that is not cancelled, has it call Cancel |
| `LifecycleAlone.CancelCall` | upload/to_local_file.go:520-599 | Cancel closes and removes the file, tells the backend if it is a handler or the timeout, and is followed by CleanUp |
| `LifecycleAlone.LateCancelCall` | upload/to_local_file.go:533-537 | refused later; handlers and the timeout go on to CleanUp all the same |
| `LifecycleAlone.CleanUpCall` | upload/to_local_file.go:601-643 | CleanUp takes the upload out of the pool and stops its timeout, once each |
| `LifecycleAlone.EarlyCleanUpCall` | upload/to_local_file.go:605-616 | it does nothing before the end and after another clean-up |
| `LifecycleAlone.HandoverCall` | upload/to_local_file.go:395-409 | the handler claims the handover and starts the routine, unless a cancel was first, and waits |
| `LifecycleAlone.DoneCall` | upload/to_local_file.go:411-498 | a routine whose request is answered by "done" announces the file once, finishes the upload, and closes the channel |
| `LifecycleAlone.FailedCall` | upload/to_local_file.go:464-498 | one whose request fails or is not confirmed in time cancels the upload, leaves the file, and closes the channel |
| `LifecycleAlone.FinishCall` | upload/to_local_file.go:504-518 | HandoverDone ends without effect if no routine takes its confirmation |
| `LifecycleAlone.WaitCall` | websocket.go:493-507 | a handler waits until its client is gone or the channel is closed |
| `LifecycleAlone.ReportCall` | websocket.go:508-534 | it reports success exactly of a finished upload and goes on to CleanUp if it can write |
| `LifecycleAlone.UnbindCall` | websocket.go:302 | it unbinds the upload in the end |
| `LifecycleSafety.FailedHandoverLeavesFile` | upload/to_local_file.go:483-489 | after a failed handover no run removes or changes the file |
| `LifecycleDelivery.DeliveredExactly` | upload/to_local_file.go:478-482 | under every interleaving a delivered file is there with exactly the stored bytes, until and unless a clean-up removes it, which happens only to an upload that does not keep its file |
| `LifecycleDelivery.CleanUpRemovesExactly` | upload/to_local_file.go:618-628 | the clean-up of a delivered upload removes its file if and only if it is not to be kept and the system lets it |
| `LifecycleDelivery.DeliveredFileStays` | upload/to_local_file.go:618-628 | an upload that keeps its file keeps it with every byte over every run after the handover |
| `LifecycleSafety.HandleAndPath` | upload/to_local_file.go:348-383 | always: a handle is open only on the ".part" file of an incomplete upload, at its end, and the suffix is gone only if the file is complete; and exactly then, unless the bound handler is giving up or a pause is under way |
| `LifecycleFiles.RunStaysTidy` | upload/to_local_file.go:293-361 | every interleaving keeps handle and path in that order, also while a handler gives up and in the middle of a call |
| `LifecycleSafety.SizeFrozen` | upload/to_local_file.go:242-252 | no step changes the size outside Init, moves the position back, or beyond the size |
| `LifecycleSafety.OnlyBinderStores` | upload/to_local_file.go:266-275 | only the bound handler moves position or size |

## Left out

- HTTP servers and clients, JSON, logging, configuration loading, the example applications and deployment files: plumbing around the modelled calls.
- The goroutines that read and write a connection (`websocket.go:143-195`): a connection is a queue for each direction, and a failing socket operation is a choice of the surroundings. That an upload config could not be written is noticed at the next read.
- Wall-clock time: timers may fire at any moment. That the timeout routine can deadlock with a thread that resets its timer is modelled for one upload's threads (`LifecycleTimer.dfy`), not in `Transfer.dfy`, where a call of the uploader returns; `ResetTimeout`, which nothing calls, and the idle times are not part of this model.
- The text of the backend's replies: done, wait or failed. Replies shorter than four bytes are not part of this model.
- UUIDs: `New` draws from a given sequence that holds an unused id.
- Directories, permissions and other processes: the file system is a map from paths to bytes that only uploads change. Seeking never fails.
- The width of sizes and positions: they are unbounded integers, where the server has 64 bits and the browser doubles.
- The file name from the browser, secrets, URLs and reasons: carried along by the code without effect on the protocol. A cancel between setting size and name makes the handler leave, which the model allows at that point; only the reset of the timer is modelled of setting the name.
- `can_pause`, `chunks_acked_now`, `frac_complete`, `state_msg`, alerts and progress callbacks: informational; the pause method does not look at `can_pause`.
- `ChannelledUUIDPool`: unused, and it would only add easy set facts.
- The fields of the browser's uploader are grouped into two records, counters and flags, assigned one member at a time.
- Progress is proved for an undisturbed session and for the resumption of an uploader that is not cancelling; while it is cancelling it loads nothing, also after a reconnect.
- An upload that times out before its constructor has returned cleans up under an empty id and stays pooled; `PoolSystem.dfy` has that stray removal as an event, the uploader class constructs and pools in one call. An upload leaves the pool under its id only once it has learnt it.
- LocalFileUploads.UploadToLocalFile.HandoverDone: whether a routine waits is a parameter, and the check of the state and the meeting with the routine are one moment; `Lifecycle.dfy` takes them apart.
- LocalFileUploads.UploadToLocalFile.HandoverRoutine: is one call from the request to the close; `Lifecycle.dfy` lets other threads run in between.
- LifecycleChannel.ClaimedHandoverCloses: says that the close stays within reach, not that a scheduler gets there.
- LifecycleAtomic.StoringIsAtomic: relates single calls to `UploadSpec.dfy`; that whole runs of `Lifecycle.dfy` follow the steps of `Transfer.dfy` is not stated.
- LifecycleSafety.CancelIsFinal: assumes that removing the file succeeded when the upload was cancelled.
