# Crash reporter: a verified model

The crash reporter of Sailfish OS watches directories for rich core files, throttles reports of the
same crash, spies on the system journal, shows pending reports to the user and uploads them.  This
project models the parts of it that carry state, in Dafny, and proves what they keep over whole runs.

## What is modelled

**The upload pipeline** (`UploadModel`, `UploadInvariant`, `UploadSteps`, `UploadTheorems`,
`UploadVerdict`, `UploadErrors`, `UploadSummary`, `UploadPipeline`, `AutoUploader`).  Queue, engine, upload item and
HTTP client call each other synchronously through signals.  `UploadModel.Sys` is the state of all of
them for one batch, that is, one engine; every slot is one function, and `Step` is one event of the
environment with its whole chain of signals.  `UploadPipeline` holds the same four objects as classes
whose methods update their fields in place; each method changes the pipeline by the function of the
same name, and `Pipeline.Deliver` by `Step`, from one reachable state to the next.  `AutoUploader`
feeds it with the requests of a whole session, batch after batch.  `UploadInvariant.Inv` couples the
four objects between events, and `UploadSteps.Effect` is an independent summary of what each event
does: nothing is reported, or the item in flight is, exactly once.  `UploadSummary.Next` goes further
and writes down the whole next state without any signal or slot.  All theorems quantify over every
run of enabled events and every answer of the environment.  They rest on these assumptions:

- The build uses network sessions, and there is one engine per batch, as the auto uploader has it
  (`src/autouploader/creporterautouploader.cpp:114-118`).  The queue lives on, so a batch starts with
  whatever item count the batch before has left: `Start(total)` for any `total`.
- No event of the environment arrives inside `enqueue()`, whose `nbrOfItems++` comes after the hand-out
  (`src/libs/httpclient/creporteruploadqueue.cpp:76-84`).
- `QNetworkReply::abort()` delivers the error and then the finished signal of a running reply before
  it returns, as Qt does.  The stub of the unit tests is silent
  (`tests/qtest/stubs/qnetworkreply.cpp:25-28`) and is not the one modelled.
- A reply signals only while it runs, and error before finished; a timer fires only while it runs.
- Opening the session may or may not find it open, at every hand-out, and creating the request may
  or may not succeed: both are answers of the environment (`Env`).
- Beyond that, session events may come at any time, also where the network session manager would not
  send them; the theorems hold all the same, and runs that show a failure use only events that it sends.

**The duplicate limiter** of the daemon (`DuplicateLimiter`): counters per binary and signal in a list
that is searched from the front, each reset when it is used more than a day after its last reset.  It
is proved to be a map, key by key independent, and to keep within its bounds over any run.

**The list of pending uploads** (`PendingUploads`, `PendingUploadsTheorems`): the two loops of
`setData()`, the first removing while it iterates, with the row notifications they emit.

**The journal spy** (`JournalSpy`, `JournalConfig`): first match, silent period, and the parser of its
configuration file as two loops that read from one file.

**Core directories and file names** (`CoreDir`, `FileNames`): the index of files already seen, and the
parser of report file names that works from the end.

## What came out

- A request that cannot be created leaves its item in the state Error without telling anybody: the
  batch stands still (`StallPersists`).  When it is then cancelled, the item counts as sent although its
  file stays, and `finished()` reports NoError (`CancelledStallCountsAsSent`); when the session is lost
  instead, `finished()` reports an error with `sent == total` (`LostStallFailsWithNothingMissing`).
  `VerdictExact` and `RemovedExactlySent` say exactly when the announced numbers are right;
  `VerdictAgrees` is what is left when every request can be created.
- Cancelling such an item does not cancel the files behind it: it counts as sent, the queue is not cleared, and
  the next file is uploaded (`CancelGoesOn`).  `CancelEndsBatchIff` says exactly when a cancel or a lost
  session ends the batch.
- `lastError()` is documented as the last error string
  (`src/libs/httpclient/creporteruploadengine.h:72-77`); the code keeps the first one, and the model
  follows it (`FirstErrorWins`).  A network error while a file is being sent even brings two texts, its
  own and that of the aborted reply (`LastErrorIsStale`).  `TextReturnedIff` and `LastErrorIff` say
  exactly when the last text is the one returned.
- The limiter allows up to 2M - 1 reports of one binary and signal within a day for a maximum M, and
  this is attained (`DaemonDailyBound`, `DailyBoundAttained`); with a maximum of 0 or less only the very
  first report of a key is ever kept (`OnlyTheFirstAtZero`).
- Updating the list of pending uploads gives the rows of a rebuild after every history exactly if no
  two listed files have the same creation date (`IncrementalIsRebuildIff`).
- `loadExpressions()` trims a line before it looks for the semicolon, `parsePattern()` looks at the raw
  first character, so an indented ";name" starts a pattern exactly if none has begun yet
  (`IndentedHeader`, `IndentedHeaderAtTwoPlaces`); inside a pattern it is skipped or read as a field
  (`IndentedHeaderInside`).
- Joining the four parsed parts of a report name gives the name back exactly if it has at least three
  dashes (`JoinInvertsParserIff`); with fewer, `QString::remove()` is called with position -1, which
  since Qt 5 counts from the end (`RemoveSplits`).
- A file that appears between the two listings of one check, or before a refresh, is indexed without
  being reported (`SwallowedIff`), and no later check reports it while it stays
  (`SwallowedIsNotReported`, `LateFileIsNeverReported`).  `UnreportedWasSwallowed` and
  `UnreportedIff` say that these are the only files never reported.

## Model

| member | source | states |
|---|---|---|
| UploadModel.Step | src/libs/httpclient/creporteruploadengine.cpp:47-66 | every event keeps references inside the batch and the first error; a client without a reply comes about only where a request is not created |
| UploadModel.Run | src/libs/httpclient/creporteruploadengine.cpp:197-209 | over any run, an error type and an error text once set never change |
| UploadInvariant.AccountSettles | src/libs/httpclient/creporteruploadengine.cpp:114-147 | after the current item has reported, sent counts the finished items, a cancel has emptied the queue, and the first error and text stay |
| UploadInvariant.HandOver | src/libs/httpclient/creporteruploadqueue.cpp:94-126 | the next item handed out is the one right behind, unstarted until then, and the coupling is restored |
| UploadInvariant.WindUp | src/libs/httpclient/creporteruploadengine.cpp:100-112 | with an empty queue the batch ends, with one verdict that agrees with the items |
| UploadInvariant.ReportKeepsInv | src/libs/httpclient/creporteruploadengine.cpp:114-147 | a report of the current item ends in the next hand-out or the end of the batch, with all items up to it unchanged |
| UploadInvariant.SettleAs | src/libs/httpclient/creporteruploadengine.cpp:114-147 | replacing the current item by a done one and reporting it settles it, its file removed only if the server took it |
| UploadInvariant.SilentTouch | src/libs/httpclient/creporteruploaditem.cpp:155-158 | once an item has disconnected from its client, nothing the client does changes the batch |
| UploadInvariant.CancelIsOneReport | src/libs/httpclient/creporterhttpclient.cpp:169-181 | aborting a running reply reports to the engine exactly once although handleFinished() runs twice |
| UploadInvariant.CancelRunning | src/libs/httpclient/creporterhttpclient.cpp:169-181 | an aborted item ends Cancelled if it was marked so and Error otherwise, its file kept and the abort text recorded |
| UploadInvariant.CancelStalled | src/libs/httpclient/creporteruploaditem.cpp:100-138 | cancelling an item whose request could not be created makes it come out Finished, with its file kept |
| UploadInvariant.CancelWaiting | src/libs/httpclient/creporteruploaditem.cpp:128-137 | cancelling an item that waits for the session reports it once, as Cancelled |
| UploadInvariant.CancelSettles | src/libs/httpclient/creporteruploaditem.cpp:121-138 | a cancel of the current item ends in Cancelled unless it had stalled, in every engine state |
| UploadSteps.EnqueueEffect | src/libs/httpclient/creporteruploadqueue.cpp:64-85 | a new file goes to the end of a busy batch or is handed out at once; nothing is reported |
| UploadSteps.SessionOpenedEffect | src/libs/httpclient/creporteruploadengine.cpp:150-158 | an opened session starts the waiting item and reports nothing |
| UploadSteps.CancelAllEffect | src/libs/httpclient/creporteruploadengine.cpp:247-254 | cancelAll() settles exactly the item in flight |
| UploadSteps.LossEffect | src/libs/httpclient/creporteruploadengine.cpp:160-194 | a lost session settles exactly the item in flight, with the error that fits the engine's state |
| UploadSteps.ProgressEffect | src/libs/httpclient/creporterhttpclient.cpp:288-309 | progress reports nothing and keeps the item in flight |
| UploadSteps.TimeoutEffect | src/libs/httpclient/creporterhttpclient.cpp:49-62 | the connection timer fails the item in flight, and is without effect on one that is done |
| UploadSteps.ReplyErrorEffect | src/libs/httpclient/creporterhttpclient.cpp:210-220 | an error of the current reply fails its item once, file kept, text recorded; errors of other replies are unheard |
| UploadSteps.ReplyFinishedEffect | src/libs/httpclient/creporterhttpclient.cpp:265-286 | a finished current reply makes its item Finished and removes its file; a finished failed or aborted reply does nothing |
| UploadSteps.StepEffect | src/libs/httpclient/creporteruploadengine.cpp:78-254 | every event keeps the coupling invariant, and its whole effect is the summary: at most the item in flight is reported, once |
| UploadTheorems.RunKeepsInv | src/libs/httpclient/creporteruploadengine.cpp:78-254 | the coupling invariant holds after every run |
| UploadTheorems.Coupling | src/libs/httpclient/creporteruploadengine.cpp:78-187 | notified exactly while connecting or connected; then one item is out, waiting, being sent with a live reply, or stalled; else the queue is empty; the timer runs exactly until the first progress |
| UploadTheorems.ConservationUnderWay | src/libs/httpclient/creporteruploadqueue.cpp:64-118 | total = sent + failed + queued + 1 in flight, in every reachable state under way |
| UploadTheorems.ConservationAtEnd | src/libs/httpclient/creporteruploadengine.cpp:100-147 | finished() is emitted once, with total = sent + failed + cancelled + dropped, sent the number of finished items, and no dropped item ever started |
| UploadTheorems.OneVerdict | src/libs/httpclient/creporteruploadengine.cpp:211-218 | finished() is emitted at most once in a batch, with the error of the engine |
| UploadTheorems.FifoExactlyOnce | src/libs/httpclient/creporteruploadqueue.cpp:87-126 | items start in enqueue order, each once, report in the same order at most once and exactly when done, and at most one is started and not done |
| UploadTheorems.StepRemembers | src/libs/httpclient/creporteruploaditem.cpp:148-172 | no event changes the status of an item that is done, or anything after finished() |
| UploadTheorems.RunRemembers | src/libs/httpclient/creporteruploaditem.cpp:148-172 | nor does any run |
| UploadTheorems.KeptForever | src/libs/httpclient/creporterhttpclient.cpp:265-286 | the file of a done item that was not removed is never removed in any run |
| UploadTheorems.FailureKeepsFile | src/libs/httpclient/creporterhttpclient.cpp:169-220 | error, timeout, cancel and lost session keep the file of the item they hit, in every continuation |
| UploadTheorems.RemovedOnce | src/libs/httpclient/creporterhttpclient.cpp:265-286 | in every reachable state removeFile() has been called at most once for each item, and exactly for those whose finished reply the client still held |
| UploadTheorems.RemovedOnlyWhenReplyFinished | src/libs/httpclient/creporterhttpclient.cpp:265-286 | a file is removed by the finished signal of the current item's running reply and by no other event |
| UploadTheorems.StepSent | src/libs/httpclient/creporteruploadengine.cpp:137-142 | sent minus removed grows only when a cancel or lost session hits a stalled item |
| UploadTheorems.SentAgainstRemoved | src/libs/httpclient/creporteruploadengine.cpp:137-142 | over any run, sent exceeds removed by exactly the number of such hits |
| UploadVerdict.StepError | src/libs/httpclient/creporteruploadengine.cpp:114-209 | an event leaves NoError exactly if all done items are finished and it did not lose the session of a stalled one |
| UploadVerdict.ErrorAlongRun | src/libs/httpclient/creporteruploadengine.cpp:114-209 | the same over any run |
| UploadVerdict.VerdictExact | src/libs/httpclient/creporteruploadengine.cpp:100-218 | finished() reports NoError if and only if sent = total and the session was never lost on a stalled item |
| UploadVerdict.RemovedExactlySent | src/libs/httpclient/creporterhttpclient.cpp:265-286 | as many files are removed as announced as sent, if and only if no cancel or lost session hit a stalled item |
| UploadVerdict.CancelledStallCountsAsSent | src/libs/httpclient/creporteruploaditem.cpp:100-138 | the session opens for one unreadable file, then cancelAll(): finished(NoError, 1, 1) with nothing removed |
| UploadVerdict.LostStallFailsWithNothingMissing | src/libs/httpclient/creporteruploadengine.cpp:160-187 | the session opens for one unreadable file and is lost again: an error with 1 of 1 sent and nothing removed |
| UploadVerdict.StallPersists | src/libs/httpclient/creporteruploaditem.cpp:112-118 | a failed start blocks the batch against every event but a cancel or a lost session |
| UploadVerdict.CancelEndsBatchIff | src/libs/httpclient/creporteruploadengine.cpp:114-147 | a cancel or lost session ends the batch if and only if the current item has not stalled or is the last one, and makes it Cancelled if and only if it has not stalled; otherwise the next item is handed out |
| UploadVerdict.NothingStartsAfterwards | src/libs/httpclient/creporteruploadengine.cpp:100-112 | once finished() has been emitted, no run starts anything or emits it again |
| UploadVerdict.CancelEndsBatch | src/libs/httpclient/creporteruploadengine.cpp:123-136 | where a cancel ends the batch, nothing starts afterwards in any run, nothing behind the current item was started, and a Cancelled item stays so |
| UploadVerdict.CancelGoesOn | src/libs/httpclient/creporteruploaditem.cpp:121-138 | the session opens for an unreadable file, a readable one is added, then cancelAll(): the upload of the second file starts |
| UploadVerdict.Progress | src/libs/httpclient/creporteruploadqueue.cpp:87-102 | queued plus in flight drops exactly with each report and rises only by new files; at zero, finished() has been emitted exactly once |
| UploadVerdict.CanFinish | src/libs/httpclient/creporteruploadengine.cpp:114-158 | from every state under way whose current item has not stalled, opening the session and finished replies alone lead to the end of the batch, with everything left sent and no new error |
| UploadVerdict.StallBlocks | src/libs/httpclient/creporteruploaditem.cpp:112-118 | without a cancel, a lost session or a new file, no run ends a batch whose current item has stalled |
| UploadVerdict.CanFinishIff | src/libs/httpclient/creporteruploadqueue.cpp:87-102 | left undisturbed, a batch under way can still end if and only if its current item has not stalled |
| UploadErrors.StepErrors | src/libs/httpclient/creporteruploadengine.cpp:114-209 | which texts an event hands to setErrorString(), in order and up to two of them, which of these stays, and which error |
| UploadErrors.FirstErrorWins | src/libs/httpclient/creporteruploadengine.cpp:114-218 | over every run, the texts handed to setErrorString() are exactly those supplied, lastError() is the first of them, and the announced error is the first one raised |
| UploadErrors.TextReturnedIff | src/libs/httpclient/creporteruploadengine.cpp:189-202 | an event that brings a text leaves lastError() different from the last text if and only if another text was recorded before, or none was and it is a network error while an item is being sent |
| UploadErrors.LastErrorIff | src/libs/httpclient/creporteruploadengine.cpp:242-245 | over every run, lastError() is the last text if and only if the last event that brought one did not meet that condition |
| UploadErrors.LastErrorIsStale | src/libs/httpclient/creporteruploadengine.cpp:189-202 | the session opens, a file is being sent, and one network error brings two texts, of which the first is returned |
| UploadErrors.NeverStalls | src/libs/httpclient/creporteruploaditem.cpp:112-118 | if every request can be created, no stalled item is ever hit |
| UploadErrors.VerdictAgrees | src/libs/httpclient/creporteruploadengine.cpp:100-147 | if every request can be created, NoError if and only if sent = total, and removed = sent |
| UploadSummary.ReportIs | src/libs/httpclient/creporteruploadengine.cpp:114-147 | the chain from uploadFinished() to the next hand-out or the end of the batch computes one closed form |
| UploadSummary.CancelIs | src/libs/httpclient/creporteruploaditem.cpp:121-138 | so does cancelling an item that waits, is being sent or has stalled |
| UploadSummary.StepIsNext | src/libs/httpclient/creporteruploadengine.cpp:78-254 | every event with its whole chain of signals computes the next state as `Next` writes it down, in every field of every object |
| UploadSummary.HandOutFollowsSession | src/libs/httpclient/creporteruploadengine.cpp:87-97 | whatever event hands out an item: it is started at once if and only if the session is open, and is then being sent if and only if its request was created; otherwise it waits for the session |
| UploadSummary.OpenedSessionStarts | src/libs/httpclient/creporteruploadengine.cpp:150-158 | an opened session starts exactly the item that waits for it |
| UploadSummary.TimerIff | src/libs/httpclient/creporterhttpclient.cpp:162-166 | over every run, the connection timer of an item being sent runs, and may fire, if and only if no progress of that item was seen |
| UploadSummary.ProgressStopsTimer | src/libs/httpclient/creporterhttpclient.cpp:288-303 | a progress belongs to the item being sent, makes its client Sending and stops the timer, which fires in no continuation |
| UploadSummary.EndsClosingIff | src/libs/httpclient/creporteruploadengine.cpp:104-109 | a batch ends Closing if and only if the session still stood, and later only its loss is noted |
| UploadPipeline.Pipeline.constructor | src/autouploader/creporterautouploader.cpp:114-118 | a new engine on a queue that has run empty, whatever that queue still counts |
| UploadPipeline.Pipeline.Deliver | src/libs/httpclient/creporteruploadengine.cpp:47-66 | delivering an event changes the objects by exactly one step of the transition system, and keeps them in a state reachable from the start of the batch, so that all theorems on runs hold of them |
| UploadPipeline.Pipeline.RemoveFile | src/libs/utils/creporterutils.cpp:96-101 | one call for the file of exactly that item is recorded |
| UploadPipeline.Pipeline.Promises | src/libs/httpclient/creporteruploadqueue.cpp:64-126 | on the fields of the objects, after any events: the queue is notified exactly while the engine connects or is connected, the item count adds up, and finished() was emitted at most once with matching counts |
| UploadPipeline.Pipeline.RemovedAreFinished | src/libs/httpclient/creporterhttpclient.cpp:265-286 | removeFile() is called only for files of items that are Finished |
| UploadPipeline.HttpClient.constructor | src/libs/httpclient/creporterhttpclient.cpp:51-62 | a new client has no reply, no timer and nothing to delete |
| UploadPipeline.HttpClient.InitSession | src/libs/httpclient/creporterhttpclient.cpp:77-100 | the session is ready and the file marked for deletion |
| UploadPipeline.HttpClient.Upload | src/libs/httpclient/creporterhttpclient.cpp:102-167 | the request is created if and only if the client is in state Init and the environment creates it; then reply and timer run, otherwise nothing has changed |
| UploadPipeline.HttpClient.HandleError | src/libs/httpclient/creporterhttpclient.cpp:210-220 | the objects change by HandleError of the transition system |
| UploadPipeline.HttpClient.HandleFinished | src/libs/httpclient/creporterhttpclient.cpp:265-286 | the objects change by HandleFinished of the transition system |
| UploadPipeline.HttpClient.StateChange | src/libs/httpclient/creporterhttpclient.cpp:311-317 | only the client's state changes |
| UploadPipeline.HttpClient.Cancel | src/libs/httpclient/creporterhttpclient.cpp:169-181 | the objects change by ClientCancel of the transition system |
| UploadPipeline.HttpClient.HandleUploadProgress | src/libs/httpclient/creporterhttpclient.cpp:288-309 | the objects change by HandleUploadProgress of the transition system |
| UploadPipeline.UploadItem.constructor | src/libs/httpclient/creporteruploaditem.cpp:47-61 | a new item waits, without a client |
| UploadPipeline.UploadItem.StartUpload | src/libs/httpclient/creporteruploaditem.cpp:100-119 | the objects change by StartUpload of the transition system; the result says whether the request was created |
| UploadPipeline.UploadItem.Cancel | src/libs/httpclient/creporteruploaditem.cpp:121-138 | the objects change by ItemCancel of the transition system |
| UploadPipeline.UploadItem.UploadError | src/libs/httpclient/creporteruploaditem.cpp:148-166 | the objects change by ItemUploadError of the transition system |
| UploadPipeline.UploadItem.EmitUploadFinished | src/libs/httpclient/creporteruploaditem.cpp:168-172 | the objects change by ItemEmitUploadFinished of the transition system |
| UploadPipeline.UploadQueue.constructor | src/libs/httpclient/creporteruploadqueue.cpp:44-52 | a new queue is empty, has notified nobody and counts nothing |
| UploadPipeline.UploadQueue.Enqueue | src/libs/httpclient/creporteruploadqueue.cpp:64-85 | the objects change by QueueEnqueue of the transition system |
| UploadPipeline.UploadQueue.Append | src/libs/httpclient/creporteruploadqueue.cpp:69-74 | a new item becomes the last of the queue and a child of it |
| UploadPipeline.UploadQueue.ItemFinished | src/libs/httpclient/creporteruploadqueue.cpp:87-102 | the objects change by QueueItemFinished of the transition system |
| UploadPipeline.UploadQueue.Clear | src/libs/httpclient/creporteruploadqueue.cpp:109-118 | the queue is emptied and nothing else changes |
| UploadPipeline.UploadQueue.EmitNextItem | src/libs/httpclient/creporteruploadqueue.cpp:120-126 | the objects change by EmitNextItem of the transition system |
| UploadPipeline.UploadEngine.SetErrorString | src/libs/httpclient/creporteruploadengine.cpp:197-202 | the first error text stays |
| UploadPipeline.UploadEngine.SetErrorType | src/libs/httpclient/creporteruploadengine.cpp:204-209 | the first error stays |
| UploadPipeline.UploadEngine.UploadItem | src/libs/httpclient/creporteruploadengine.cpp:78-98 | the objects change by EngineUploadItem of the transition system |
| UploadPipeline.UploadEngine.QueueDone | src/libs/httpclient/creporteruploadengine.cpp:100-112 | the objects change by EngineQueueDone of the transition system |
| UploadPipeline.UploadEngine.EmitFinished | src/libs/httpclient/creporteruploadengine.cpp:211-218 | the counts are announced before the sent count is reset |
| UploadPipeline.UploadEngine.Account | src/libs/httpclient/creporteruploadengine.cpp:118-142 | the objects change by Account of the transition system |
| UploadPipeline.UploadEngine.UploadFinished | src/libs/httpclient/creporteruploadengine.cpp:114-147 | the objects change by EngineUploadFinished of the transition system |
| UploadPipeline.UploadEngine.SessionOpened | src/libs/httpclient/creporteruploadengine.cpp:150-158 | the objects change by EngineSessionOpened of the transition system |
| UploadPipeline.UploadEngine.SessionDisconnected | src/libs/httpclient/creporteruploadengine.cpp:160-187 | the objects change by EngineSessionDisconnected of the transition system |
| UploadPipeline.UploadEngine.ConnectionError | src/libs/httpclient/creporteruploadengine.cpp:189-194 | the objects change by EngineConnectionError of the transition system |
| UploadPipeline.UploadEngine.CancelAll | src/libs/httpclient/creporteruploadengine.cpp:247-254 | the objects change by EngineCancelAll of the transition system |
| AutoUploader.Merge | src/autouploader/creporterautouploader.cpp:134-143 | a request only ever appends to the names added before |
| AutoUploader.MergeExtends | src/autouploader/creporterautouploader.cpp:134-143 | one request continues the list of first occurrences |
| AutoUploader.SessionIsFirstOccurrences | src/autouploader/creporterautouploader.cpp:134-143 | however names are split into requests, the session holds each once, in the order first asked for |
| AutoUploader.StartedIsPrefix | src/autouploader/creporterautouploader.cpp:134-143 | in a batch the files started are the first ones enqueued, in order |
| AutoUploader.FileEnqueued | src/autouploader/creporterautouploader.cpp:134-139 | enqueueing appends exactly that file to the batch |
| AutoUploader.FilesKept | src/autouploader/creporterautouploader.cpp:106-156 | no other event changes the files of the batch |
| AutoUploader.FilesGrow | src/autouploader/creporterautouploader.cpp:134-143 | no event takes a file out of the batch |
| AutoUploader.StartedGrow | src/autouploader/creporterautouploader.cpp:134-143 | no event takes back a start |
| AutoUploader.Uploader.Activate | src/autouploader/creporterautouploader.cpp:114-118 | an active engine is kept; otherwise there is a new one, on a queue that still counts the batch before |
| AutoUploader.Uploader.Add | src/autouploader/creporterautouploader.cpp:135-139 | a new name is one enqueue step and one more name on the list, which stays distinct and equal to what was enqueued |
| AutoUploader.Uploader.UploadFiles | src/autouploader/creporterautouploader.cpp:106-156 | a request is accepted if and only if it is not empty and restrictions allow it; then the names added are those of all accepted requests merged; a refused one may still activate the uploader, and nothing started is forgotten |
| AutoUploader.Uploader.Deliver | src/autouploader/creporterautouploader.cpp:175-263 | an event is one step of the pipeline, and the uploader stays active exactly until finished() |
| AutoUploader.Uploader.StartedAreAdded | src/autouploader/creporterautouploader.cpp:134-143 | even in the middle of a request, the files started in the session are a subsequence of those added |
| AutoUploader.Uploader.SessionStarts | src/autouploader/creporterautouploader.cpp:134-143 | over any sequence of requests and events: the names added are the first occurrences among the accepted requests, and the uploads started are a duplicate-free subsequence of them |
| DuplicateLimiter.Find | src/daemon/creporterdaemonmonitor.cpp:283-289 | the first entry with the key, or the length of the list |
| DuplicateLimiter.RecordIsMapUpdate | src/daemon/creporterdaemonmonitor.cpp:283-316 | keys stay unique, the report's counter is bumped and every other counter is untouched |
| DuplicateLimiter.KeyOfReport | src/daemon/creporterdaemonmonitor.cpp:54-58 | the key of a report named by the scheme is its application and signal number |
| DuplicateLimiter.SameCounterIff | src/daemon/creporterdaemonmonitor.cpp:69-73 | two reports share a counter if and only if application and signal number agree, whatever hardware and process they name |
| DuplicateLimiter.IncludesCrashIff | src/libs/utils/creporterutils.cpp:257-267 | a report is about a crash if and only if none of the eight words occurs anywhere in its path |
| DuplicateLimiter.CountedIff | src/daemon/creporterdaemonmonitor.cpp:169-179 | a report is counted if and only if auto-delete is on, its signal is not SIGQUIT and it is about a crash; any other is kept and changes no counter |
| DuplicateLimiter.FirstReportIsKept | src/daemon/creporterdaemonmonitor.cpp:312-316 | the first counted report of an application and signal is never deleted, whatever the maximum and whatever came before |
| DuplicateLimiter.NonInterference | src/daemon/creporterdaemonmonitor.cpp:178-192 | over any interleaved run, a key gets the answers of a limiter that saw only its own calls; reports not counted change nothing |
| DuplicateLimiter.DeletedIff | src/daemon/creporterdaemonmonitor.cpp:283-316 | a report of a key is deleted if and only if it is not the first and more than the maximum have come since its window began, windows being told from the times alone |
| DuplicateLimiter.WithinAllowance | src/daemon/creporterdaemonmonitor.cpp:289-311 | what can still be kept within a day is the rest of the running window and, if that began before, one more |
| DuplicateLimiter.DailyBound | src/daemon/creporterdaemonmonitor.cpp:269-317 | any closed day holds at most 2 max(1, M) - 1 kept reports of one key |
| DuplicateLimiter.DailyBoundAttained | src/daemon/creporterdaemonmonitor.cpp:269-317 | for every maximum, negative ones included, a run attains that bound |
| DuplicateLimiter.KeptSinceReset | src/daemon/creporterdaemonmonitor.cpp:289-311 | the same counted from the last reset over any number of days |
| DuplicateLimiter.TotalBound | src/daemon/creporterdaemonmonitor.cpp:269-317 | from the first report on, at most max(1, M) are kept per day begun |
| DuplicateLimiter.OnlyTheFirstAtZero | src/daemon/creporterdaemonmonitor.cpp:289-316 | with a maximum of 0 or less only the very first report of a key is ever kept |
| DuplicateLimiter.KeptForIsKeptIn | src/daemon/creporterdaemonmonitor.cpp:178-192 | counts over an interleaved run are those of the key alone |
| DuplicateLimiter.DaemonDailyBound | src/daemon/creporterdaemonmonitor.cpp:164-192 | a daemon started empty keeps at most 2 max(1, M) - 1 reports of a key in any closed day, whatever else crashes |
| DuplicateLimiter.DaemonTotalBound | src/daemon/creporterdaemonmonitor.cpp:164-192 | and at most max(1, M) for each day begun since the first counted report of that key, whatever else crashes |
| DuplicateLimiter.HandledRichCore.constructor | src/daemon/creporterdaemonmonitor.cpp:51-63 | a new counter at zero for the key parsed from the name |
| DuplicateLimiter.DaemonMonitor.constructor | src/daemon/creporterdaemonmonitor.cpp:76-90 | the monitor starts with no counters |
| DuplicateLimiter.DaemonMonitor.CheckForDuplicates | src/daemon/creporterdaemonmonitor.cpp:269-317 | the loop records the report as the map does and answers whether its counter exceeds the maximum; other reports than crashes change nothing |
| DuplicateLimiter.DaemonMonitor.HandleNewCore | src/daemon/creporterdaemonmonitor.cpp:169-192 | a report is deleted exactly if it is counted and a duplicate; terminated programs and disabled auto-delete bypass the counters |
| PendingUploads.Position | src/sailfishui/plugin/pendinguploadsmodel.cpp:130-135 | the first row older than the date |
| PendingUploads.PendingUploadsModel.SetData | src/sailfishui/plugin/pendinguploadsmodel.cpp:97-140 | the two loops compute the synchronised list and exactly its notifications, and terminate |
| PendingUploads.PendingUploadsModel.RemoveOld | src/sailfishui/plugin/pendinguploadsmodel.cpp:101-117 | removing while iterating leaves the matched rows in contents and the unmatched paths in the new list |
| PendingUploads.PendingUploadsModel.InsertNew | src/sailfishui/plugin/pendinguploadsmodel.cpp:119-139 | the remaining paths are inserted one by one at their positions |
| PendingUploadsTheorems.NothingLostInFirstPass | src/sailfishui/plugin/pendinguploadsmodel.cpp:101-113 | kept rows and leftover paths together are the new list, with multiplicity |
| PendingUploadsTheorems.SurvivorsAreCommon | src/sailfishui/plugin/pendinguploadsmodel.cpp:101-113 | the kept rows are the intersection of old and new paths, with multiplicity |
| PendingUploadsTheorems.RowsAreTheList | src/sailfishui/plugin/pendinguploadsmodel.cpp:97-140 | after an update the paths are the new list with multiplicity, duplicates included |
| PendingUploadsTheorems.SurvivorsKept | src/sailfishui/plugin/pendinguploadsmodel.cpp:103-113 | rows still listed stay as they are and in their relative order |
| PendingUploadsTheorems.SurvivorsAreKept | src/sailfishui/plugin/pendinguploadsmodel.cpp:103-113 | of rows with equal paths the first ones are kept, as many as are listed |
| PendingUploadsTheorems.LeftoverIsExcess | src/sailfishui/plugin/pendinguploadsmodel.cpp:101-113 | the paths that get new rows are those listed beyond the old rows, in the order of the list |
| PendingUploadsTheorems.StaysNewestFirst | src/sailfishui/plugin/pendinguploadsmodel.cpp:119-139 | the list stays non-increasing by date, whatever the dates are at that moment |
| PendingUploadsTheorems.RowsOfADate | src/sailfishui/plugin/pendinguploadsmodel.cpp:119-139 | among rows of one date the kept ones come first in their old order, then the new ones in the order of the list |
| PendingUploadsTheorems.NewItemShows | src/sailfishui/plugin/pendinguploadsmodel.cpp:121-128 | a new row shows application, process and signal text from the right parts of the name, and the date of the file |
| PendingUploadsTheorems.RowsShowReports | src/sailfishui/plugin/pendinguploadsmodel.cpp:121-128 | after any history every row of a report named by the scheme shows them |
| PendingUploadsTheorems.ViewsCanReplay | src/sailfishui/plugin/pendinguploadsmodel.cpp:103-139 | replaying the notifications on the old rows gives the new rows with every index in range |
| PendingUploadsTheorems.AnnouncesTheDifference | src/sailfishui/plugin/pendinguploadsmodel.cpp:103-139 | as many notifications as the two lists differ by, so none exactly for a permutation of the current paths |
| PendingUploadsTheorems.SortedIsUnique | src/sailfishui/plugin/pendinguploadsmodel.cpp:129-139 | with distinct dates, order and paths determine the rows |
| PendingUploadsTheorems.IncrementalIsRebuild | src/sailfishui/plugin/pendinguploadsmodel.cpp:97-140 | after any history, the rows are those of an update of the empty model, if dates are distinct |
| PendingUploadsTheorems.TieShows | src/sailfishui/plugin/pendinguploadsmodel.cpp:129-135 | for every list with a tie there is a history after which they differ |
| PendingUploadsTheorems.IncrementalIsRebuildIff | src/sailfishui/plugin/pendinguploadsmodel.cpp:97-140 | incremental update equals rebuild after every history if and only if the listed files have distinct dates |
| JournalSpy.FirstMatch | src/journalspy/journalspy.cpp:106-125 | the first expression that matches an entry |
| JournalSpy.Spy.CheckMatches | src/journalspy/journalspy.cpp:129-151 | an entry matches if and only if every field of the expression is present and its pattern matches |
| JournalSpy.Spy.HandleJournalEntries | src/journalspy/journalspy.cpp:102-127 | the loop over entries hits and collects as the run does |
| JournalSpy.Spy.HandleEntry | src/journalspy/journalspy.cpp:107-125 | one entry hits its first match only, and collects if it was silent long enough and the battery allows |
| JournalSpy.HitKeepsMatches | src/journalspy/journalspy.cpp:110-123 | hits never change what matches first |
| JournalSpy.LastHitIsLatest | src/journalspy/journalspy.cpp:111-112 | the last hit of an expression is the time of the latest entry it was first to match |
| JournalSpy.CollectsIff | src/journalspy/journalspy.cpp:102-127 | over any run, an entry makes an expression collect if and only if it is the first match, power allows, and all earlier first matches are more than the silent period back |
| JournalSpy.CollectedIsDue | src/journalspy/journalspy.cpp:107-125 | an entry of a run collects one label with the name of its first match if it is due by the times of the entries alone, and nothing otherwise |
| JournalSpy.CollectedAreLabels | src/journalspy/journalspy.cpp:102-127 | the logs collected by a run are the labels of the entries that are due, in order |
| JournalSpy.MatchesFieldByField | src/journalspy/journalspy.cpp:129-151 | an expression without fields matches, and each further field adds that the entry has it and its pattern matches |
| JournalSpy.CollectionsFitRoom | src/journalspy/journalspy.cpp:111-122 | collections of one expression in any interval are at most what fits with more than the silent period between them |
| JournalSpy.AtMostFourADay | src/journalspy/journalspy.h:41-42 | any closed 24 hours hold at most 4 collections of one expression |
| JournalSpy.AtMostFourLabelsADay | src/journalspy/journalspy.h:41-42 | the entries of any closed 24 hours that one expression is the first to match add at most 4 labels |
| JournalSpy.FourADayAttained | src/journalspy/journalspy.h:41-42 | that bound is attained |
| JournalConfig.ConfigReader.LoadExpressions | src/journalspy/journalspy.cpp:153-169 | the outer loop reads what the grammar on text says, and terminates |
| JournalConfig.ConfigReader.ReadPattern | src/journalspy/journalspy.cpp:171-212 | the inner loop stops before the next semicolon or at the end, and appends the pattern if it has any field |
| JournalConfig.File.ReadLine | src/journalspy/journalspy.cpp:158-180 | a line is read up to and with its newline, and reading always advances |
| JournalConfig.FieldsAreFirstValid | src/journalspy/journalspy.cpp:191-206 | a pattern holds for every field the first valid expression its lines give for it, and no other field |
| JournalConfig.BodyRoundTrip | src/journalspy/journalspy.cpp:171-212 | any lines without a semicolon in front belong to the pattern, which ends before the next one that has it |
| JournalConfig.SectionsRoundTrip | src/journalspy/journalspy.cpp:153-212 | headers with any lines under them are read back, section by section, and exactly these patterns are begun |
| JournalConfig.ConfigRoundTrip | data/journalspy-expressions.conf:1-12 | so is a document with anything but headers before the first section |
| JournalConfig.IndentedHeader | src/journalspy/journalspy.cpp:153-178 | an indented ";name" starts a pattern if and only if none has begun yet; otherwise it and the lines after it are read as lines of the pattern before |
| JournalConfig.IndentedHeaderInside | src/journalspy/journalspy.cpp:180-191 | such a line is skipped inside a pattern, or, if and only if it holds a '=', is a field whose name starts with the semicolon |
| JournalConfig.IndentedHeaderAtTwoPlaces | src/journalspy/journalspy.cpp:153-178 | the same two lines read as a pattern of their own, and as part of the pattern before |
| JournalConfig.FieldReadBack | src/journalspy/journalspy.cpp:180-206 | a written field line is read as that field and that expression |
| JournalConfig.PaddedLine | src/journalspy/journalspy.cpp:156-180 | blanks, tabs and other line ends around a line make no difference |
| JournalConfig.FinalNewline | src/journalspy/journalspy.cpp:153-212 | for every text, a newline at its very end makes no difference |
| JournalConfig.MeaningIsStated | src/journalspy/journalspy.cpp:191-211 | documents that state the same expressions mean the same |
| JournalConfig.WrittenStates | data/journalspy-expressions.conf:3-12 | every list of readable expressions has a document that states it |
| JournalConfig.ExpressionsRoundTrip | data/journalspy-expressions.conf:3-12 | every list of readable expressions, written down behind any prelude, is read back as that list |
| JournalConfig.LoadedAreReadable | src/journalspy/journalspy.cpp:153-212 | whatever the file holds, the expressions read are readable ones: no newlines, no '=' in a field, valid patterns, at least one field |
| JournalConfig.LoadableIff | src/journalspy/journalspy.cpp:153-212 | some file is read as a given list of expressions if and only if all of them are readable |
| FileNames.ParseCrashInfoFromFilename | src/libs/utils/creporterutils.cpp:103-152 | the step-by-step parser splits off the last three parts of the base name, in every case including missing dashes |
| FileNames.RemoveSplits | src/libs/utils/creporterutils.cpp:120-126 | removing the found part and its dash leaves what stands before it; without a dash, all but the last character |
| FileNames.BaseNameOf | src/libs/utils/creporterutils.cpp:107-110 | directory and suffix are cut off a name without dots |
| FileNames.ParserInvertsScheme | src/libs/utils/creporterutils.cpp:103-152 | parsing dir/app-hwid-signal-pid.suffix gives the four parts, dashes in the application allowed |
| FileNames.JoinInvertsParserIff | src/libs/utils/creporterutils.cpp:112-150 | joining the four parts gives the base name back if and only if it has at least three dashes |
| CoreDir.FilteredIsValid | src/libs/utils/creporterutils.cpp:69-73 | every file the directory filter lets through is a valid rich core |
| CoreDir.ValidCoreIff | src/libs/utils/creporterutils.cpp:69-73 | a name is that of a rich core if and only if it ends in rcore or rcore.lzo, in any case of its letters |
| CoreDir.FirstUnseenIsFirst | src/libs/coredir/creportercoredir.cpp:118-131 | a check finds a listed file that is not indexed, if there is any |
| CoreDir.Dir.CheckDirectoryForCores | src/libs/coredir/creportercoredir.cpp:104-139 | one new file is indexed and returned, or the index is refreshed |
| CoreDir.Dir.UpdateCoreList | src/libs/coredir/creportercoredir.cpp:168-186 | the index becomes the listing |
| CoreDir.Dir.CreateCoreDirectory | src/libs/coredir/creportercoredir.cpp:141-166 | the index is emptied, refreshed or left alone as the mount point and directory demand |
| CoreDir.IndexStaysDistinct | src/libs/coredir/creportercoredir.cpp:104-186 | over any run the index never holds a name twice |
| CoreDir.UnseenHead | src/libs/coredir/creportercoredir.cpp:118-131 | the file found is the first unseen one, and indexing it leaves exactly the others unseen |
| CoreDir.UnchangingDirectory | src/libs/coredir/creportercoredir.cpp:104-139 | on an unchanging directory repeated checks return every unseen file once, in order, then nothing, with the index equal to the listing |
| CoreDir.CreatedDirectory | src/libs/coredir/creportercoredir.cpp:141-166 | after a missing directory any file is reported again, after an unmounted one the next check answers as before, after an existing one nothing in it is new |
| CoreDir.StaysIndexed | src/libs/coredir/creportercoredir.cpp:104-186 | a name stays indexed as long as every refresh sees it |
| CoreDir.NotReportedAgain | src/libs/coredir/creportercoredir.cpp:104-186 | a name handed out stays indexed, and is not handed out again, while every refresh in between sees it |
| CoreDir.ReportedTwice | src/libs/coredir/creportercoredir.cpp:104-186 | a name reported twice was absent from some refresh in between |
| CoreDir.SwallowedIff | src/libs/coredir/creportercoredir.cpp:133-137 | exactly which files one operation indexes without handing them out |
| CoreDir.SwallowedIsNotReported | src/libs/coredir/creportercoredir.cpp:104-186 | such a file is not handed out by any later operation while no refresh in between misses it |
| CoreDir.UnreportedWasSwallowed | src/libs/coredir/creportercoredir.cpp:104-186 | over any run, a name that came into the index without being handed out was swallowed by some operation |
| CoreDir.UnreportedIff | src/libs/coredir/creportercoredir.cpp:104-186 | in a run that indexes a new name for good, the name is never handed out if and only if some operation swallows it |
| CoreDir.LateFileIsNeverReported | src/libs/coredir/creportercoredir.cpp:118-137 | a file that appears between the two listings of a check is reported neither by it nor by any number of later checks |

## Left out

- HTTP plumbing: request and URL construction, proxy, SSL, authentication, the JSON reply, the upload log, and the percentages of updateProgress.
- The reply pointer is a flag and the reply itself a state inside the client, not an object of its own; object lifetime (parents, deleteLater, destructors) and logging are not modelled.
- The network session manager: opening is an answer of the environment, and its opened, disconnected and error signals are events; closing the session has no effect of its own.
- quit() and the notifications of engineFinished(): cancelling after the uploader has been deactivated, application exit, deletion of the engine.
- Cancelling or enqueueing after a batch has finished, on the same engine; the auto uploader makes a new engine instead.
- A silent abort(), under which a cancelled item would come out as finished.
- Items dropped by clear() stay in the model's table of items, in the state Waiting.
- The rest of the daemon's handling of a new core: its D-Bus signal, notifications and crash count, the automatic upload, and re-adding directory watchers.
- The limiter reads the clock twice for a known key, when it makes its entry and when it compares; the model reads it once.
- Settings, battery and network policy (shouldSavePower, canUseNetworkConnection), which are parameters.
- Regular expressions, QString::toInt(), strsignal(), the clock and file creation dates, which are parameters.
- Reading the journal through sd_journal, and starting the log collection process.
- Character encodings: text is a sequence of characters, and letter case is folded for ASCII only.
- UploadPipeline.Pipeline.RemoveFile: whether the file really disappears is not modelled, because the program ignores the result of QFile::remove(); `removed` and `removals` list the calls.
- collectAllCoreFilesAtLocation(), creating the directory and its permissions, and the absolute path that a check returns instead of the name.
- data(), rowCount() and roleNames() of the list model.
- The QML user interface, the service helper, the endurance daemon, the rich core helper and the shell scripts.
