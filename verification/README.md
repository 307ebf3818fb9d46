# Video upload pipeline, modelled and proved in Dafny

This project models the protocol that takes an uploaded video from finalize to playback, and proves what it
keeps and what it does not. The protocol has five parts.

1. One status row per upload and step, changed only by guarded updates.
2. An orchestrator that turns step results into triggers for the next step.
3. Workers that do the work, close their row and report.
4. A retry, delay and dead-letter protocol around every consumer.
5. A transactional outbox whose dispatcher starts the pipeline.

## How it is built

`Pipeline.dfy` is the state machine of one upload. Its state holds the tables, the object store, every copy of
every message, and every handler in flight with its program counter. One action is one SQL statement, one
store or broker call, one delivery, one timer or one crash. Any call may fail, also after it took effect; any
process may die between two calls; any message may be delivered again; any number of orchestrators, workers,
clients and dispatchers run at once. `PipelineInvariant.dfy`, `PipelineEffects.dfy` and `PipelineSteps.dfy`
prove one inductive invariant in the style of Owicki and Gries, and `PipelineTheorems.dfy` says what it means.
`Lifecycle.dfy` follows one upload: who writes its status, who deletes it, who may still finalize it.
`System.dfy` puts any number of uploads side by side and shows that the tables of all uploads project to the
machine of one. `Redelivery.dfy` is about messages that come again when their step is done, `LostChannels.dfy`
about channels that are lost under a handler at work.

`Sessions.dfy`, `Orchestrator.dfy` and `Workers.dfy` are the handlers as imperative code with the loops and
early returns of the source. A `Session` lets everybody else act before each call. Its method `Make` demands
that the call is the one the state machine makes at that point, so every theorem about runs holds for the
code.

`Quiescence.dfy` follows the one token of work of each step through runs without faults. `Runs.dfy` builds
runs call by call; `Finishing.dfy` gives the exact condition under which an upload can finish. `Retry.dfy` is
the retry helper over a broker channel and `RetryLineage.dfy` the fate of all copies of one message.
`Outbox.dfy`, `OutboxRuns.dfy` and `Dispatcher.dfy` are the outbox with many dispatchers; `Uploads.dfy` and
`Expirer.dfy` the upload tables with many expirer runs. `StepTable.dfy`, `Renditions.dfy`, `Playlist.dfy` and
`Decimal.dfy` hold the tables, the ladder, the master playlist with a reader by RFC 8216, and decimal
printing.

## Two kinds of worker

A worker closes its own row and only then publishes its result; the orchestrator then tries the same update,
finds the row done already and stops. So the composed system stalls after the initial steps:
`PipelineTheorems.ShippedPipelineStalls`. The code plainly means the pipeline to go on. The model therefore
has a switch, `Config.shipped`. With it on, workers behave as the code does. With it off, a worker may also
report finished work without its own update. All safety theorems hold for both.
`Finishing.FinishesExactlyWhen` shows that a finished and playable upload is reachable exactly with the switch
off, so the theorems about later steps are not empty.

## What the code does not keep

`Limits.dfy` and `Recovery.dfy` state exactly when some promises one might expect fail, and `Witnesses.dfy`
builds runs that show them, from a newly registered upload.

- `finished` is not final: `FinishedLostExactlyBy`, `FinishedIsOverwritten`.
- Finalize and expire do not exclude each other: `DeletedRevivedExactlyBy`, `RevivableExactlyWhen`.
- A metadata run cannot be repeated, and one that dies between two inserts ends the upload: `AbandonedEndsTheChain`.
- A playback path can be lost to a stale write: `PlaybackLostExactlyBy`, `PlaybackIsLost`.
- A step can stay processing for good, when the publish of its trigger fails or when the failure report's own
  update fails: `Recovery.StuckExactlyWhen`, `TriggerIsLost`, `FailureIsLost`.
- Events of a dispatcher that died are not reclaimed: `OutboxRuns.StrandedExactlyWhen`, `OutboxRuns.EventIsStranded`.
- A message with a bad retry header, or too few delays, can vanish: `RetryLineage.LostExactlyWhen`.

## What is assumed

Each SQL statement and each transaction is atomic. A publish that succeeds is stored, and the default exchange
drops a message for an undeclared queue. A delay queue hands its message back to the main queue at some time.
In `Pipeline.dfy` a requeue ends its handler; `LostChannels.dfy` lets it go on. In `RetryLineage.dfy` it need
not be seen again, because its publish and ack go through the lost channel. Ids of videos are UUIDs, so of
equal length. `RetryLineage` assumes that MaxRetries is an integer that fits 32 bits, as the header it is
written to does. `Expirer` and `OutboxRuns` have a clock that does not go back.

The dimensions ffprobe measures, the files ffmpeg makes, and what each call's fate is are arbitrary. Where a
method needs a source of arbitrary choices it takes a function from call numbers (`luck`, `others`, `fate`).

## Model

| member | source | states |
|---|---|---|
| `PipelineTheorems.ChainInvariant` | `services/orchestrator/internal/application/services/orchestrator_service.go:63-98` | In every reachable state a transcode, segment or publish row that is processing, done or failed has all its predecessors done, for any interleaving, duplication, reordering and crashes, and any number of handlers. |
| `PipelineTheorems.TerminalForever` | `services/upload/internal/adapters/postgres/upload_step_repository.go:34-56` | Along any run rows only move forward, and a done, failed or canceled row never changes again. |
| `PipelineTheorems.AtMostOnceEffects` | `services/orchestrator/internal/application/services/orchestrator_service.go:38-98` | PublishStep is called at most once per step, `finished` is written at most once, and at most two updates apply to a row after its creation. |
| `PipelineTheorems.FinishedIsJustified` | `services/orchestrator/internal/application/services/orchestrator_service.go:70-86` | A finished upload has its four chain rows done, although statuses are also written without a guard by others. |
| `PipelineTheorems.TransactionalStart` | `services/upload/internal/application/services/upload_service.go:120-150` | A storage path exists exactly when there is exactly one start event; any step row, trigger, start or result message implies the path, so nothing of the pipeline precedes finalize. |
| `PipelineTheorems.PlaybackSoundness` | `services/publish/internal/application/services/publish_service.go:51-89` | Whenever the playback path is set, the stored master parses, lists every rendition, and each of its URIs, resolved against the master key, is the key of a playlist cut from the rendition's own stored file (the upload itself for the source). |
| `PipelineTheorems.MasterListsEveryRendition` | `services/publish/internal/application/services/publish_service.go:60-77` | Once publish is done or the playback path is set, reading the stored master gives one variant for each rendition of the video, all of them ready, none twice and no other, without a height first and then the highest as they were listed. |
| `PipelineTheorems.FilesAreStored` | `services/transcode/internal/application/services/transcode_service.go:73-106` | In every reachable state each ready rendition but the source has its path set to its own key and a file stored there that was encoded for the height it is named after; a done thumbnail has its image; a done segment step a playlist for every rendition, cut from its own file. |
| `PipelineTheorems.BatchIsWhole` | `services/upload/internal/adapters/postgres/rendition_repository.go:22-52` | Once metadata is done the rendition rows are exactly the source, ready with the measured dimensions, and one row for each rung of its ladder, named after its height; while pending, as inserted; names are distinct and fit for the playlist. |
| `PipelineTheorems.PendingOnlyShrinks` | `services/transcode/internal/application/services/transcode_service.go:52-107` | Once metadata is done, the set of pending renditions only shrinks along any run, and no rendition row comes or goes. |
| `PipelineTheorems.RetryTakesWhatIsLeft` | `services/transcode/internal/application/services/transcode_service.go:52-66` | A new transcode attempt works on exactly the renditions still pending, and closes its step at once exactly when there are none. |
| `PipelineTheorems.MarkMovesExactlyItsRow` | `services/transcode/internal/application/services/transcode_service.go:104-106` | Each rendition update of the transcode loop moves exactly its own row, never the source, to ready with the path of the file just stored and the probed dimensions, NULL where not positive. |
| `PipelineTheorems.TranscodeDoneMeansNonePending` | `services/transcode/internal/application/services/transcode_service.go:109-119` | A transcode row that is done leaves no pending rendition. |
| `Redelivery.RedeliveryIsHarmless` | `services/transcode/internal/adapters/rabbitmq/transcode_consumer.go:50-83` | Once the row of a step other than publish is done, its trigger may be redelivered, worked on, retried, dead-lettered and reported failed, with any faults and crashes: no step row changes, the upload status stays, no trigger is published, and no result but a second done. |
| `Redelivery.LateStepsAreHarmless` | `services/transcode/internal/adapters/rabbitmq/transcode_consumer.go:50-83` | The same for each step of such a hand in the middle of any run, whatever all the others do. |
| `Recovery.StuckExactlyWhen` | `services/transcode/internal/application/services/transcode_service.go:120-127` | A processing row can still become done or failed if and only if something carries it: its trigger or done result on a live queue or in a hand that has not acked it, a worker about to fail the row, or an orchestrator about to publish its trigger. |
| `Recovery.StuckForever` | `services/orchestrator/internal/application/services/orchestrator_service.go:89-97` | A row that nothing carries stays processing, or is canceled, in every continuation. |
| `Witnesses.TriggerIsLost` | `services/orchestrator/internal/application/services/orchestrator_service.go:89-97` | One refused trigger publish leaves a row processing for good. |
| `Witnesses.FailureIsLost` | `services/transcode/internal/application/services/transcode_service.go:120-125` | So does a failure report whose update of the row is refused, after the trigger has gone to the dead letters. |
| `PipelineTheorems.NoFailedResultAfterDone` | `services/segment/internal/application/services/segment_service.go:84-91` | After a step is done no failed result for it exists, on any queue, in any hand or in the past. |
| `Limits.FinishedLostExactlyBy` | `services/orchestrator/internal/application/services/orchestrator_service.go:50-54` | A step takes `finished` away if and only if a failed result being handled, publish's failure report or a client that had passed its look writes the status. |
| `Limits.FinishedNeverComesBack` | `services/orchestrator/internal/application/services/orchestrator_service.go:80-81` | Once lost, `finished` never comes back. |
| `Witnesses.FinishedIsOverwritten` | `services/upload/internal/adapters/postgres/upload_repository.go:72-75` | A run in which a second client commits after the upload has finished and sets it back to processing. |
| `Limits.InsertAcceptedExactlyWhen` | `services/upload/internal/adapters/postgres/rendition_repository.go:22-52` | An insert that reaches the table is accepted if and only if it goes on with the batch its own hand began, or the video has no rendition yet; a refused one changes nothing. |
| `Limits.AbandonedEndsTheChain` | `services/metadata/internal/application/services/metadata_service.go:58-61` | A batch that is begun, not whole and left by its hand stays so: in no continuation is metadata done, a later step started or the upload finished. |
| `Limits.CompletableExactlyWhen` | `services/upload/internal/adapters/postgres/rendition_repository.go:22-52` | A batch that is begun can still become whole if and only if the hand that began it is still inserting. |
| `Witnesses.BatchIsAbandoned` | `services/upload/internal/adapters/postgres/rendition_repository.go:35-50` | A run in which the metadata worker dies between two inserts. |
| `Limits.PlaybackLostExactlyBy` | `services/upload/internal/application/services/upload_service.go:203-217` | A playback path once set becomes empty again exactly by a thumbnail or metadata worker writing back a video it had read before the path was set, and by no other step. |
| `Witnesses.PlaybackIsLost` | `services/upload/internal/application/services/upload_service.go:203-234` | A run in which the thumbnail worker reads the video, publish sets the path and the thumbnail worker writes the video back. |
| `Limits.DeletedRevivedExactlyBy` | `services/upload/internal/adapters/postgres/upload_repository.go:72-75` | An expired and deleted upload gets a path and its processing status if and only if a client that had passed its look commits; it stays deleted. |
| `Limits.RevivableExactlyWhen` | `services/upload/internal/application/services/upload_service.go:124-142` | Once deleted before it was finalized, an upload can still get a path if and only if some client is past its look at that moment. |
| `Limits.FinalizedAfterExpiry` | `services/upload/internal/adapters/postgres/upload_repository.go:65-89` | A run in which a client looks, the upload expires, and the client commits. |
| `PipelineTheorems.FailedResultMeansAllRows` | `services/orchestrator/internal/application/services/orchestrator_service.go:50-59` | A failed result can exist only when all five rows exist and its own row is failed, so the cancel loop misses none. |
| `PipelineTheorems.FailureFreezes` | `services/orchestrator/internal/application/services/orchestrator_service.go:50-59` | When the one serial result consumer is through the cancel loop of a failed result without store errors, all five rows are terminal, and no continuation changes a row, applies an update or writes `finished`. |
| `Lifecycle.StatusWrittenExactlyBy` | `services/orchestrator/internal/application/services/orchestrator_service.go:50-86` | What each step leaves as the upload's status: failed exactly by the two that mark failures, finished by the result consumer after publish, processing by a commit, expired by the expirer on a pending upload; nothing else writes it. |
| `Lifecycle.PendingNeverReturns` | `services/orchestrator/internal/application/services/orchestrator_service.go:50-54` | An upload that has left pending is never pending again, along every run. |
| `Lifecycle.FailureIsMarked` | `services/orchestrator/internal/application/services/orchestrator_service.go:50-59` | A handler past the mark of a failed result has marked the upload failed, and a failed status was written by such a mark. |
| `Lifecycle.LookPassesExactlyWhen` | `services/upload/internal/application/services/upload_service.go:124-130` | A client goes on exactly when its look is answered and finds the upload pending and not deleted; the look changes nothing. |
| `Lifecycle.FinalizingIsOver` | `services/upload/internal/application/services/upload_service.go:124-146` | Once an upload is deleted or has left pending and no client is past its look, its path and start events stay as they are in every continuation. |
| `Lifecycle.DeletedTogether` | `services/upload/internal/adapters/postgres/upload_repository.go:156-200` | An upload and its video are deleted together, in every reachable state. |
| `Lifecycle.DeletedIsNotWorkedOn` | `services/upload/internal/adapters/postgres/upload_repository.go:44-55` | A worker that looks up a deleted upload fails its attempt and changes nothing. |
| `Lifecycle.RetriesAreBounded` | `pkg/rabbitmq/retry.go:54-82` | In every reachable state a copy in a delay queue carries that queue's number, at most the maximum, and a copy is dead only with all its retries behind it. |
| `PipelineTheorems.ShippedPipelineStalls` | `services/metadata/internal/application/services/metadata_service.go:62-69` | With workers that always close their own row first, every done result meets a row already done, no orchestrator done update can apply, the later steps stay absent, pending or canceled, and `finished` is never written. |
| `Finishing.FinishesExactlyWhen` | `services/orchestrator/internal/application/services/orchestrator_service.go:63-69` | Some run reaches `finished` with a playback path if and only if workers may leave their own done update out; the run is built call by call. |
| `Quiescence.ExactlyOneTrigger` | `services/orchestrator/internal/application/services/orchestrator_service.go:89-98` | In runs without crashes and store or broker faults each processing row has exactly one copy of its trigger among orchestrator hand, main queue, delay queues and worker hand. |
| `Quiescence.ExactlyOneHolder` | `services/orchestrator/internal/application/services/orchestrator_service.go:63-98` | For both kinds of worker and all five steps, after such a run exactly one message or hand holds the work of each processing row. |
| `Quiescence.IdleMeansNoneProcessing` | `services/transcode/internal/adapters/rabbitmq/transcode_consumer.go:50-83` | After such a run, once all queues but the dead letters are empty and no handler is at work, no row is processing; for both kinds of worker. |
| `Quiescence.QuietStep` | `pkg/rabbitmq/retry.go:54-82` | Every action without such faults keeps: at most one token of work a step, none lost while its row is processing. |
| `PipelineSteps.StepKeeps` | `services/orchestrator/internal/application/services/orchestrator_service.go:38-98` | Every action of every handler, client, dispatcher and expirer keeps the inductive invariant, and moves the tables only forward. |
| `PipelineSteps.HandStepOk` | `services/transcode/internal/adapters/rabbitmq/transcode_consumer.go:50-83` | Every call at every program counter, whether it succeeds, fails, or fails after taking effect, keeps the table facts and establishes the fact its continuation relies on. |
| `PipelineInvariant.ItemStays` | `services/upload/internal/adapters/postgres/upload_step_repository.go:34-69` | No step of one handler breaks the fact another handler relies on. |
| `PipelineEffects.UpdateStepKeeps` | `services/upload/internal/adapters/postgres/upload_step_repository.go:34-69` | A justified guarded update keeps every table fact. |
| `System.EveryUploadIsSafe` | `services/orchestrator/internal/application/services/orchestrator_service.go:38-98` | With any number of uploads interleaved, every one of them keeps the order of steps, justified finishing, effects at most once, playability, a whole master after publish, the transactional start and nothing pending after transcode. |
| `LostChannels.PromisesKept` | `services/transcode/internal/adapters/rabbitmq/transcode_consumer.go:67-78` | All of that also when channels are lost under handlers that go on while their message is delivered again. |
| `LostChannels.StallsAllTheSame` | `services/metadata/internal/application/services/metadata_service.go:62-69` | And with workers that always close their own row first the pipeline stalls all the same. |
| `System.ObjectsStayApart` | `services/publish/internal/application/services/publish_service.go:74-77` | Two uploads never write the same object key. |
| `System.UpdateProjects` | `services/upload/internal/adapters/postgres/upload_step_repository.go:34-69` | The guarded update of the whole table is the one-upload update of the pipeline machine, and no other upload sees it. |
| `System.FinalizeProjects` | `services/upload/internal/adapters/postgres/upload_repository.go:65-89` | The finalize transaction is the pipeline machine's commit. |
| `System.ExpireProjects` | `services/upload/internal/adapters/postgres/upload_repository.go:156-200` | The expire transaction is the pipeline machine's, and no other upload or video sees it. |
| `System.InsertProjects` | `services/upload/internal/adapters/postgres/rendition_repository.go:68-75` | An insert meets a taken key exactly when the machine meets a taken name, and otherwise appends the same row. |
| `System.MarkProjects` | `services/upload/internal/adapters/postgres/rendition_repository.go:125-133` | The rendition update of the table is the machine's. |
| `Sessions.Session.Others` | `services/orchestrator/internal/application/services/orchestrator_service.go:38-98` | Whatever others do in between, a handler's own place is untouched and the tables only move forward. |
| `Sessions.Session.Make` | `services/orchestrator/internal/application/services/orchestrator_service.go:38-98` | One call of running code: it must be the call the state machine makes at this point, and leaves the handler where the answer sends it. |
| `Orchestrator.ProcessUploadProcess` | `services/orchestrator/internal/application/services/orchestrator_service.go:38-48` | Drives the start message from first call to return under any interference; on success all five rows exist and both initial steps have left pending. |
| `Orchestrator.HandleStepResult` | `services/orchestrator/internal/application/services/orchestrator_service.go:50-87` | Drives a step result to its end. A failed one makes exactly the write of the failed status and, when that was answered, the cancel loop over all five steps; without store errors all rows end terminal. A done one makes exactly its row's update and, when that applied, the next claim or the finished write; its row is out of processing. Any other status does nothing. |
| `Orchestrator.TriggerStep` | `services/orchestrator/internal/application/services/orchestrator_service.go:89-98` | Makes exactly the claim, and a publish after it exactly when the claim applied; without an error the step has left pending. |
| `Orchestrator.CancelAll` | `services/orchestrator/internal/application/services/orchestrator_service.go:55-57` | The cancel loop makes one cancel update for each of the five steps in order, whatever the answers. |
| `Orchestrator.HandleRetry` | `pkg/rabbitmq/retry.go:54-82` | Makes exactly the publish of the next copy, and the ack after it exactly when the publish was answered; exhausted exactly when the copy went to the dead letters. |
| `Orchestrator.ConsumeStart` | `services/orchestrator/internal/adapters/rabbitmq/upload_process_consumer.go:57-65` | One turn of the start consumer on a readable message: the handler, then the ack or the retry and nothing else. |
| `Orchestrator.ConsumeResult` | `services/orchestrator/internal/adapters/rabbitmq/step_result_consumer.go:60-68` | One turn of the result consumer on a readable message, likewise. |
| `Workers.CloseAndReport` | `services/thumbnail/internal/application/services/thumbnail_service.go:78-89` | The common tail of the workers: makes exactly the row update, and the result after it exactly when the update applied; success means finished work and a terminal row. |
| `Workers.GenerateThumbnail` | `services/thumbnail/internal/application/services/thumbnail_service.go:41-90` | On success the thumbnail row is terminal and an image is stored under the video's thumbnail key. |
| `Workers.ExtractMetadata` | `services/metadata/internal/application/services/metadata_service.go:36-70` | On success the metadata row is terminal and the rendition rows are the whole batch for the path and dimensions its own look-up and probe answered. |
| `Workers.TranscodeVideo` | `services/transcode/internal/application/services/transcode_service.go:44-118` | On success the transcode row is terminal, no rendition is pending, and each but the source has its own file stored, encoded for the height it is named after, whatever other attempts do meanwhile. |
| `Workers.SegmentVideo` | `services/segment/internal/application/services/segment_service.go:36-82` | On success the segment row is terminal and every rendition has its playlist, cut from its own file. |
| `Workers.PublishVideo` | `services/publish/internal/application/services/publish_service.go:44-90` | On success the publish row is terminal and the stored master lists every rendition once and no other; the calls were the listing, the store of the text built from that listing, the playback pointer's write and the row's close. |
| `Workers.ReportFailed` | `services/publish/internal/application/services/publish_service.go:92-100` | Makes exactly the row update, for publish the upload's mark whatever became of it, and the failed result exactly when the update applied; never for a row that was done when the report began. |
| `Workers.ConsumeTrigger` | `services/transcode/internal/adapters/rabbitmq/transcode_consumer.go:67-78` | One turn of a worker's consume loop on a readable message: an ack as handled means finished work and a terminal row; a failure is retried, and exhaustion, and only that, is followed by the failure report. |
| `StepTable.UploadStepRepository.CreateSteps` | `services/upload/internal/adapters/postgres/upload_step_repository.go:20-32` | Adds pending rows for the prefix inserted before the first refused statement and keeps every existing row. |
| `StepTable.UploadStepRepository.UpdateStepStatus` | `services/upload/internal/adapters/postgres/upload_step_repository.go:34-86` | Applies exactly when the row exists and its status passes the guard of the target; otherwise changes nothing and says why. |
| `StepTable.AtMostTwoMoves` | `services/upload/internal/adapters/postgres/upload_step_repository.go:38-56` | Of any updates in any order at most two apply to a pending row, and none to a terminal one. |
| `StepTable.WithStepsKeepsAndAdds` | `services/upload/internal/adapters/postgres/upload_step_repository.go:20-32` | Old rows untouched, new rows pending, every requested step present. |
| `Renditions.ComputeLadder` | `services/metadata/internal/application/services/metadata_service.go:72-82` | The append loop returns the rungs below the source height. |
| `Renditions.LadderDescends` | `services/metadata/internal/application/services/metadata_service.go:72-82` | For any 32-bit height the ladder is strictly descending and holds exactly those of 1080, 720, 480 and 360 that are below the source. |
| `Renditions.ScaledWidthIsEvenAndClose` | `services/upload/internal/adapters/postgres/rendition_repository.go:57-66` | A target width is even, at most the source width, and within two of the exact aspect ratio, from below. |
| `Renditions.BatchNamesDistinct` | `services/upload/internal/adapters/postgres/rendition_repository.go:22-52` | The names of a batch are pairwise distinct, none of the targets being `original`. |
| `Renditions.BatchColumns` | `services/upload/internal/adapters/postgres/rendition_repository.go:22-52` | Every row of a batch in columns: the source ready at its path with its dimensions; a target pending without a path, with its height and the even width within two of the exact ratio, zero when the source has no height. |
| `Renditions.RenditionRepository.CreateBatch` | `services/upload/internal/adapters/postgres/rendition_repository.go:22-52` | Leaves exactly the prefix inserted before the first refused statement or taken key; with `original` present it inserts nothing. |
| `Renditions.FreshBatchMeetsNoTakenKey` | `db/create_tables.sql:57-70` | On a video without rows no key of the batch is taken, so only a refused statement can stop it. |
| `Renditions.WithBatchHoldsExactly` | `services/upload/internal/adapters/postgres/rendition_repository.go:22-52` | The inserted rows are in the table as given and no other key is touched. |
| `Renditions.ListingHoldsExactly` | `services/upload/internal/adapters/postgres/rendition_repository.go:77-123` | A listing holds exactly the rows of its status (ready ones with a path), rows without a height first and then the highest. |
| `Renditions.RenditionRepository.Update` | `services/upload/internal/adapters/postgres/rendition_repository.go:125-135` | Rewrites the row with that key if there is one, NULL where no value is given except that an empty format keeps the old one; never adds a row. |
| `Renditions.UpdateRendition` | `services/upload/internal/application/services/upload_service.go:313-345` | Refused without video, resolution or path; otherwise ready with that path, and width, height or bitrate NULL when missing or not positive. |
| `Playlist.BuildMaster` | `services/publish/internal/application/services/publish_service.go:60-72` | The builder loop produces the header and one entry a rendition, in order. |
| `Playlist.MasterRoundTrip` | `services/publish/internal/application/services/publish_service.go:60-72` | Reading the built text by section 4.3.4.2 of RFC 8216 gives back exactly the renditions in order with positive bandwidth if and only if no name holds a line break or starts with `#`. |
| `Playlist.BandwidthsOf` | `services/publish/internal/application/services/publish_service.go:15-21` | The bandwidth of each ladder name and of the source, and of any other name. |
| `Playlist.BatchNamesFit` | `services/upload/internal/adapters/postgres/rendition_repository.go:36-37` | `original` and every `%dp` name qualify. |
| `Playlist.VariantUriResolves` | `services/segment/internal/adapters/ffmpeg/hls_producer.go:61-93` | A variant URI resolved against the master key is the key of the playlist the segment worker uploads. |
| `Playlist.KeyTextInjective` | `services/transcode/internal/application/services/transcode_service.go:75-75` | Different keys and different videos have different key texts. |
| `Decimal.PrintInjective` | `pkg/rabbitmq/retry.go:96-98` | Decimal printing is injective, which keeps queue and rendition names apart. |
| `Decimal.AtoiReadsPrint` | `pkg/rabbitmq/retry.go:123-127` | Reading back a printed 64-bit integer, with or without a plus sign, gives it back. |
| `Retry.ConsumeDelivery` | `services/transcode/internal/adapters/rabbitmq/transcode_consumer.go:50-83` | One turn of any consume loop on the channel: an unreadable body goes to the dead letters and reports nothing, a failure is retried, anything else is acked; the loop reports exhaustion exactly when the copy went to the dead letters, and dies exactly when a retried attempt has no delay. |
| `Retry.PassedOnLosesNothing` | `pkg/rabbitmq/retry.go:54-94` | However publish, ack and requeue turn out, the delivery is still in hand, back on its queue, or its next copy is stored; nothing else is lost. |
| `Retry.PassedOnLeavesOne` | `pkg/rabbitmq/retry.go:54-94` | When the broker answers as it acts, the copy alone comes on its queue and the delivery is gone, or the delivery alone is back on its own; no other queue changes. |
| `Retry.HandleRetry` | `pkg/rabbitmq/retry.go:54-82` | The exact queues and unacked deliveries after it, for every fate of publish, ack and nack; exhausted exactly when the dead-letter publish succeeded; panics exactly when the attempt has no delay. |
| `Retry.SendToDLQ` | `pkg/rabbitmq/retry.go:84-94` | An unreadable delivery goes to the dead letters with its content and retry count unchanged and the reason, or back to its queue. |
| `Retry.DeclareRetryInfrastructure` | `pkg/rabbitmq/retry.go:29-52` | Fails only on a refused operation or a queue declared otherwise; on success the k-th delay queue keeps a message for the k-th delay in whole milliseconds and hands it back to the main queue, the dead-letter queue hands nothing on, and nothing that was there changes. |
| `Retry.ShippedDelays` | `pkg/rabbitmq/retry.go:21-27` | The default configuration retries three times, after 1000, 10000 and 30000 ms, and keeps dead letters for seven days. |
| `Retry.RetryCountReads` | `pkg/rabbitmq/retry.go:100-130` | What a retry header counts as: a 64-bit integer as it is, a printed one as its number, a fraction cut off, anything else or nothing as zero. |
| `Retry.HopKeepsContent` | `pkg/rabbitmq/retry.go:132-157` | The next copy has the same body, properties and other headers and is persistent; a delayed copy carries the number of its queue, a dead one the count it came with and the reason; it is dead exactly when the next attempt exceeds the maximum. |
| `Retry.TargetDeclaredExactlyWhen` | `pkg/rabbitmq/retry.go:54-82` | A retry publish targets a declared queue if and only if the delivery goes to the dead letters or its next attempt has a delay. |
| `RetryLineage.Conservation` | `pkg/rabbitmq/retry.go:29-94` | From a safe message there is always a copy in the main queue, a delay queue, a hand or the dead letters until one delivery is handled and acked, and no live copy anywhere else, where a delay queue hands on by the arguments it is declared with; content unchanged; delay queue k holds header k; a copy is dead-lettered exactly when unreadable or after the failures its first count allows, at most MaxRetries + 1. |
| `RetryLineage.StartsWithOne` | `pkg/rabbitmq/retry.go:54-82` | Without faults and crashes there is exactly one copy until the message is handled. |
| `RetryLineage.LostExactlyWhen` | `pkg/rabbitmq/retry.go:54-62` | A message can vanish unhandled if and only if its retry count is negative and below the maximum, too large, or below a maximum the delays do not cover. |
| `RetryLineage.ShippedConfiguration` | `pkg/rabbitmq/retry.go:21-27` | Under the default configuration a message without the header is never lost, one with the header text "-1" can be. |
| `Outbox.OutboxRepository.ClaimPendingBatch` | `services/outbox-dispatcher/internal/adapters/postgres/outbox_repository.go:19-60` | Claims exactly the pending events whose time has come, the oldest first up to the limit or 100, and sets those and no others to dispatching with one attempt more. |
| `Outbox.OutboxRepository.MarkSent` | `services/outbox-dispatcher/internal/adapters/postgres/outbox_repository.go:62-71` | Sets one row to sent, whatever it was. |
| `Outbox.OutboxRepository.MarkPendingWithError` | `services/outbox-dispatcher/internal/adapters/postgres/outbox_repository.go:73-85` | Sets one row back to pending, due after the delay but at least one second. |
| `Outbox.DelayIsMonotoneAndBounded` | `services/outbox-dispatcher/internal/application/services/dispatcher_service.go:67-73` | The delay grows with the attempts and lies between 1 and 256 seconds. |
| `Outbox.BackoffClosedForm` | `services/outbox-dispatcher/internal/application/services/dispatcher_service.go:67-73` | The delays of k failures sum to 2^k - 1 up to nine and to 511 + 256 (k - 9) beyond. |
| `OutboxRuns.HeldExactlyByItsClaimer` | `services/outbox-dispatcher/internal/adapters/postgres/outbox_repository.go:23-39` | An event is dispatching for a run exactly when that run holds it, so no two runs hold one. |
| `OutboxRuns.MarksOnlyItsOwn` | `services/outbox-dispatcher/internal/adapters/postgres/outbox_repository.go:62-85` | The unguarded updates touch only an event their run owns. |
| `OutboxRuns.SentWasPublishedOnce` | `services/outbox-dispatcher/internal/application/services/dispatcher_service.go:38-62` | A sent start event was published exactly once with the payload it was inserted with, and no event has two publishes answered with success. |
| `OutboxRuns.CountsAreExact` | `services/outbox-dispatcher/internal/application/services/dispatcher_service.go:38-62` | Unless a run has ended with an error, its Sent is the number of start events it published and marked sent, its Skipped that of other events it marked sent, its Retried all else it settled. |
| `OutboxRuns.ContentStays` | `services/outbox-dispatcher/internal/adapters/postgres/outbox_repository.go:62-85` | No step changes an event's kind, key, payload or creation. |
| `OutboxRuns.PostponedExactly` | `services/outbox-dispatcher/internal/application/services/dispatcher_service.go:40-47` | After a failed publish an event is pending again, due exactly its attempts' delay from now, with the reason. |
| `OutboxRuns.OneEventPerKey` | `db/create_tables.sql:88-89` | One row per event type and key. |
| `OutboxRuns.CleanRunSettlesAll` | `services/outbox-dispatcher/internal/application/services/dispatcher_service.go:32-65` | A run without error has Claimed = Sent + Retried + Skipped and leaves none of its events dispatching. |
| `OutboxRuns.ErrorStrandsTheRest` | `services/outbox-dispatcher/internal/application/services/dispatcher_service.go:40-62` | A run that ends with an error, or dies, leaves dispatching exactly the rest of its claims. |
| `OutboxRuns.ErrorEndsHere` | `services/outbox-dispatcher/internal/application/services/dispatcher_service.go:40-62` | A refused mark strands its own event and the tail; one whose answer was lost only the tail. |
| `OutboxRuns.StrandedExactlyWhen` | `services/outbox-dispatcher/internal/adapters/postgres/outbox_repository.go:24-32` | A dispatching event can still be sent or put back if and only if the run that claimed it is neither ended nor dead. |
| `OutboxRuns.StrandedForever` | `services/outbox-dispatcher/internal/adapters/postgres/outbox_repository.go:24-32` | What an ended or dead run holds is never claimed again and never changes. |
| `OutboxRuns.EventIsStranded` | `services/outbox-dispatcher/internal/adapters/postgres/outbox_repository.go:24-41` | A run in which a dispatcher dies after its claim, and its unpublished event can never be settled. |
| `OutboxRuns.BackoffBound` | `services/outbox-dispatcher/internal/application/services/dispatcher_service.go:39-46` | A pending event after k failures is not due before its creation plus the sum of the first k delays. |
| `OutboxRuns.StepKeeps` | `services/outbox-dispatcher/internal/application/services/dispatcher_service.go:32-65` | Every statement and publish of every dispatcher keeps the ownership invariant. |
| `Dispatcher.DispatcherService.DispatchPending` | `services/outbox-dispatcher/internal/application/services/dispatcher_service.go:32-65` | The loop, under any interference: without an error the counts add up and are the numbers of events sent after a publish and without one, and nothing is left dispatching; in any case exactly the unsettled claims are. |
| `Dispatcher.DispatcherService.DispatchOne` | `services/outbox-dispatcher/internal/application/services/dispatcher_service.go:40-62` | One event: published with its payload and sent, put back, or skipped; exactly one count goes up, and the counts are what the run has sent. |
| `Uploads.UploadRepository.FinalizeProcessingWithOutbox` | `services/upload/internal/adapters/postgres/upload_repository.go:65-89` | Path, status and start event together or not at all; the event is new only without one of its key, due at once with its payload; no look at the row's status. |
| `Uploads.UploadRepository.UpdateStatus` | `services/upload/internal/adapters/postgres/upload_repository.go:91-95` | Writes the status of one row without a guard and nothing else. |
| `Uploads.UploadRepository.ListExpiredPending` | `services/upload/internal/adapters/postgres/upload_repository.go:127-154` | Exactly the uploads not deleted, pending and past their expiry, in order of expiry up to the limit or 200, none that is left being earlier. |
| `Uploads.UploadRepository.ExpireUploadAndSoftDeleteVideo` | `services/upload/internal/adapters/postgres/upload_repository.go:156-200` | Upload and video go together, exactly when the row is that video's, not deleted, still pending and past its expiry; otherwise nothing changes. |
| `Uploads.FinalizeUpload` | `services/upload/internal/application/services/upload_service.go:120-150` | Refused exactly when the look-up fails, without a live upload, when it is not pending, when the storage cannot be asked, or without its file, and then nothing changes; otherwise the path is set and one start event with its payload is keyed by the upload. |
| `Expirer.Conservation` | `services/upload/internal/application/services/upload_service.go:267-286` | Each upload expires at most once, exactly if it is soft deleted, and its video with it; counts plus unheard commits equal the deleted uploads; a run without error has Found = Expired + Skipped. |
| `Expirer.CountsAddUp` | `services/upload/internal/application/services/upload_service.go:267-286` | Without commit errors the Expired counts of all runs add up to exactly the soft-deleted uploads. |
| `Expirer.ExpiresExactlyWhatIsStale` | `services/upload/internal/adapters/postgres/upload_repository.go:163-172` | A step deletes an upload exactly if it is an effective expire of it as its candidate and the upload, at that moment, is pending and past its expiry; its video goes with it, and a deletion is for ever. |
| `Expirer.ExpirerService.ExpireStaleUploads` | `services/upload/internal/application/services/upload_service.go:267-286` | The loop, under any interference: each candidate is expired or skipped and the first error ends it. |

## Left out

- HTTP and gRPC transport, middleware, metrics, logging, environment parsing, the web client and the generated code: no state of the protocol lives there.
- ffmpeg, ffprobe and the bytes of stored objects: an encoded file records the height it was encoded for, a variant playlist the file it was cut from, a master its text. Which file an encoder or the thumbnail generator reads is not recorded.
- JSON: a message is a record. An unreadable body is an input of `Retry.ConsumeDelivery` and of `RetryLineage`; the pipeline machine has none.
- A gRPC call that goes on at the server after its caller died: a call takes effect at once or not at all.
- CreateUploadSteps and CreateRenditions are single gRPC calls whose inserts the machine takes one by one; their callers see one error either way.
- Fetching a source and the work before a store call fail together with that call.
- The error message and the attempt and lock columns of step rows, a video's title, format, duration and status, timestamps, and file names: nothing branches on them. `UpdateStepStatus` keeps the error message.
- The time at which an upload expires is any time in the pipeline machine; `Expirer` has the clock.
- The `FOR UPDATE SKIP LOCKED` claim is any set of due events up to the limit in `OutboxRuns`; `Outbox.OutboxRepository` has the order by creation.
- The order of rows of equal or missing height in a listing: the model keeps table order.
- Headers of float type that are not finite, and the seven-day life of dead letters.
- 32-bit overflow of the `attempts` column, which the backoff puts thousands of years away.
- Rendition format and bitrate are columns of `Renditions.RenditionRepository` only; no step reads them.
- Listing uploads, presigned URLs, direct file upload and extension validation: simple reads and checks.
- Orchestrator.ConsumeStart: the unreadable body of the loop is in `Retry.ConsumeDelivery`.
- Orchestrator.ConsumeResult: the unreadable body of the loop is in `Retry.ConsumeDelivery`.
- Workers.ConsumeTrigger: the unreadable body of the loop is in `Retry.ConsumeDelivery`.
- System.EveryUploadIsSafe: uploads are machines side by side; step rows, renditions, finalize and expire are shown to project from the tables of all uploads, the videos' other columns and the object store are not, beyond `System.ObjectsStayApart`.
- Quiescence.ExactlyOneTrigger: for workers that always close their own row, so of the two initial steps; `Quiescence.ExactlyOneHolder` is for all.
- OutboxRuns.SentWasPublishedOnce: counts publishes whose answer was success; a publish that was stored without an answer is repeated.
- RetryLineage.StartsWithOne: for brokers and consumers without faults; with them `Conservation` promises at least one copy.
- PipelineTheorems.FailureFreezes: needs that no other result message is in a handler when the cancel loop ends, which the one serial consumer gives.
- Renditions.ScaledWidthIsEvenAndClose: for targets no taller than the source, as the ladder makes them; ffmpeg's own rounding is not modelled.
- LostChannels.PromisesKept: holds the promises of every upload; the exact conditions of `Limits` and `Recovery` and the token of `Quiescence` are about handlers that end with their delivery.
- System.ObjectsStayApart: for ids of equal length.
