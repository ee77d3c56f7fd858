# Yoru Speech: a verified model of the dictation daemon

Yoru Speech records dictation, queues each recording for a single transcription worker, and shows a
live preview while a recording is in progress. This project models the parts of the daemon whose
correctness rests on arguments rather than on locks, and proves those arguments in Dafny.

**The two-thread protocol.** The owner thread (main loop, commands, live preview, shutdown) and the
worker thread are interleaved at their critical sections (`Protocol`). The environment is arbitrary:
client commands, microphone, backend answers, poll time-outs, spurious wake-ups. Four inductive
invariants (`Control`, `Fifo`, `Outcomes`, `Tickets`) hold in every state of every run, and the results
in `ProtocolTheorems` follow: one user of the speech backend at a time, no lost wake-up, exactly one
ending per accepted job, FIFO order, the meaning of a queue position, a shutdown that ends.
`ProtocolAnswers` follows each answer of the speech backend to the clients, `ProtocolProgress` bounds how long
a finished result can stay unpublished, `ProtocolCommands` says outright what each client command does, and
`ProtocolReported` compares the state clients are told with the transition table. The classes
`TranscriptionQueue`, `SessionManager`, `RecordingManager` and `Session` perform the same operations in
place and are proved equal to the functions the protocol is built from; `ProtocolLink` shows that the
contracts of operations with two critical sections are what the interleaving gives.

**The live preview.** `LiveTranscriber` carries the fields of the source and is proved equal to the
function `Ticked`. A `Story` adds what was decoded, committed, skipped and published in one recording;
`LiveTheorems` states what holds of every story, for any recogniser, voice detector and pacing, and
`LiveRepetition` says exactly which recognised words become permanent, and when one does so twice, and
`LiveTicks` when a tick decodes, commits by force or skips, in terms of what the ticks observed.

**Capture lifecycle.** Stored service state, active session and recording manager stay coupled.

**The IPC transport.** Line framing, deferred disconnects and subscriptions under descriptor reuse, for
every run of polls and broadcasts between `start()` and `stop()`; who is connected, and who is marked for
disconnection, after each poll.

Conventions: session ids, counters and sample counts are naturals; a sample is a `real`; a byte is a
`char`; an event published on the bus is appended to `trace`. Clocks, device, backend, sockets and the
clipboard are parameters (`Choice`, `Look`, `Env`, `Input`, method arguments such as `between`, `joined`,
`early`, `late`).

Where code and documentation differ, the model follows the code:

- `src/domains/session/live_transcriber.hpp:173-174` says that the segment start advances only on a
  force-commit. It also advances when audio is skipped after a pause: `StartMovesExactly` says when it
  moves, `SkipMovesStartWithoutCommit` is a recording in which it moves and nothing is ever committed.
- `src/domains/session/events.hpp:33-41` says that committed words are never repeated, and
  `live_transcriber.cpp:241-245` that words of the kept audio are discarded before they are committed a
  second time. That is false of the code in two ways. The first decode of a segment consumes the carried
  words even if it recognises nothing, so a later decode of the segment can commit the kept words again
  (`BoundaryWordCanRepeat`); and a post-pause skip forgets the carried words although it may drop a single
  sample of the kept audio (`SkippedBoundaryCanRepeat`). Both are recordings for every configuration that
  keeps less audio than a segment holds, the daemon's 200 ms of 5000 ms among them. `RepeatsExactlyWhen`
  gives, for every recording, the exact condition on what was recognised;
  `OpenedSegmentRepeatsOnlyIfOverlapGrows` and `DuplicatesStayOut` are what the code does keep.
- The state reported by `state()` does not follow the `can_transition` table. It leaves it exactly when work
  is outstanding and a recording starts, or an error is acknowledged (`ReportedStateLeavesTable`); both
  happen (`RecordingWhileProcessing`, `ErrorWhileProcessing`). The stored state does follow the table
  (`LifecycleIsCoupled`).

## Model

| member | source | states |
|---|---|---|
| `ProtocolTheorems.BackendHasOneUser` | src/domains/session/live_transcriber.cpp:172-227 | in every run the worker inside transcribe and the owner inside transcribe_partial never coexist, although the owner only tests and then calls; during a preview the worker holds no job and none waits |
| `ProtocolTheorems.NoWakeupIsLost` | src/domains/session/transcription_queue.cpp:102-132 | an owner about to block in poll with undrained starts or results has a positive wake counter, or the worker is about to ring it; a worker asleep with work or a stop pending implies an owner about to notify |
| `ProtocolTheorems.EveryJobEnds` | src/app/main.cpp:182-205 | after main's shutdown every accepted id has had exactly one ending: a cancellation iff it was cancelled while waiting, a drop iff it was dropped at shutdown, a result otherwise |
| `ProtocolAnswers.ResultsAreAnswers` | src/domains/session/transcription_queue.cpp:123-129 | in every run, the verdicts published, then the results drained, completed and in the worker's hand, are exactly the backend's answers for the jobs decoded, in order and unaltered |
| `ProtocolAnswers.TranscriptsAreAnswers` | src/domains/session/session_manager.cpp:129-142 | in every run, a transcript event carries a text the backend answered for that job, and every transcript answered is published with its own text or still in flight |
| `ProtocolAnswers.JobsEndAsAnswered` | src/app/main.cpp:182-205 | after shutdown an accepted job has ended as transcribed iff the backend answered it with a transcript |
| `Traces.AnnouncedVerdicts` | src/domains/session/session_manager.cpp:125-142 | a drain adds to the published verdicts exactly the ids and texts of the results drained |
| `ProtocolCommands.StartDoes` | src/domains/session/session_manager.cpp:43-76 | in every reachable state, all four outcomes of a start with their events, state and id use written out |
| `ProtocolCommands.StopDoes` | src/domains/session/session_manager.cpp:78-118 | in every reachable state, the three possible outcomes of a stop written out; a refusal by the queue is not among them |
| `ProtocolCommands.CancelSessionDoes` | src/domains/session/session_manager.cpp:146-168 | in every reachable state, the outcomes of a session cancel written out |
| `ProtocolCommands.CancelJobDoes` | src/domains/session/session_manager.cpp:170-176 | in every reachable state, a waiting job leaves the queue and is announced as cancelled, the others keep their order, and any other id changes nothing |
| `ProtocolCommands.CancelledJobNeverRuns` | src/domains/session/transcription_queue.cpp:33-42 | in every continuation a job cancelled while waiting is never decoded and has no result, and its history stays ended by the cancellation |
| `ProtocolCommands.PreviewRunsExactlyWhen` | src/domains/session/live_transcriber.cpp:172-192 | the owner's preview checks lead into transcribe_partial iff a recording is in progress, nothing waits or runs, and the preview is due |
| `ProtocolCommands.BellCountsRings` | src/domains/ipc/ipc_server.cpp:204-248 | over every step, the wake counter grows by one per ring and is cleared only by the owner's read |
| `ProtocolCommands.PollClearsTheBell` | src/domains/ipc/ipc_server.cpp:239-248 | a poll that reports readiness leaves the wake counter at zero before any command is handled |
| `ProtocolProgress.QuitEndsTheDaemon` | src/app/main.cpp:182-205 | once the stop flag is set, from any state, the owner takes at most 19 more steps besides client commands, and then has finished |
| `ProtocolTheorems.HistoriesAreLegal` | src/domains/session/session_manager.cpp:31-192 | for every id, in every run, the trace is a prefix of recorded-finished-queued-started-result, or ends in a cancellation, a drop, a lost device or a refusal where those belong, whatever the worker does between the two drains; an id has reached the queue exactly when accepted and announced, and the session being recorded is in the phase its state says |
| `ProtocolProgress.ResultsReachClients` | src/app/main.cpp:182-186 | from any reachable state, every result handed over is published, in order, once the owner has taken 14 steps other than client commands, or has finished, whatever the worker, clients and polls do |
| `ProtocolProgress.LeftStep` | src/domains/session/session_manager.cpp:120-144 | no step delays a delivered result, and every owner step other than a client command brings it closer |
| `ProtocolReported.ReportedStateLeavesTable` | src/domains/session/service_state.hpp:16-22 | in every run, a step changes the reported state against the table iff work is outstanding and the step is a start about to succeed or a cancel acknowledging an error |
| `ProtocolReported.RecordingWhileProcessing` | src/domains/session/session_manager.cpp:43-76 | for every capacity, a run in which the reported state goes from Processing to Recording |
| `ProtocolReported.ErrorWhileProcessing` | src/domains/session/session_manager.cpp:146-168 | for every capacity, a run in which the reported state goes from Error to Processing |
| `ProtocolTheorems.BrokenForever` | src/domains/session/session_manager.cpp:120-144 | an illegal history can never become legal, so legality of the whole trace covers every prefix |
| `ProtocolTheorems.JobsStayInOrder` | src/domains/session/transcription_queue.cpp:14-132 | published, held, completed, running and waiting ids together are the accepted sequence minus removed ids; results and start notices are strictly increasing and each result's start comes first |
| `ProtocolTheorems.StopIsNeverRefused` | src/domains/session/session_manager.cpp:78-118 | in every run, stopping a recording whose device is present is accepted with the current outstanding count as position, and the job is the captured samples under the session's id |
| `ProtocolTheorems.QueueIsBounded` | src/domains/session/transcription_queue.cpp:14-26 | waiting jobs never exceed the capacity, outstanding jobs never exceed it by more than one |
| `ProtocolTheorems.PositionIsHonoured` | src/domains/session/events.hpp:24-31 | a job announced at position p sees, between acceptance and its own result, exactly the results of the p jobs ahead of it minus those removed since, in order; p is at most the capacity |
| `ProtocolTheorems.WorkerDecodesOwnRecording` | src/domains/session/transcription_queue.cpp:116-123 | the audio being decoded for a job is the recording its own session finished; the job is accepted and not removed |
| `ProtocolTheorems.LifecycleIsCoupled` | src/domains/session/session_manager.cpp:31-168 | in every run stored state, session and recorder agree between operations, and every change of the stored state is in the transition table, device loss included |
| `ProtocolTheorems.AbortIsNeverErased` | src/domains/session/transcription_queue.cpp:80-119 | once stopping is set no step clears a requested abort, and from the join on the abort is in force |
| `ProtocolTheorems.RankDrops` | src/domains/session/transcription_queue.cpp:80-132 | every step of either thread during shutdown, spurious wake-ups included, lowers a natural measure |
| `ProtocolTheorems.ShutdownIsBounded` | src/domains/session/transcription_queue.cpp:80-132 | from inside shutdown no run is longer than that measure, which is at most 14 |
| `ProtocolTheorems.ShutdownCompletes` | src/app/main.cpp:189-205 | shutdown ends within 14 steps of either thread and can only stop at the end of main |
| `ProtocolTheorems.NeverStuck` | src/app/main.cpp:182-205 | in every reachable state before the end of main some step is possible |
| `ProtocolTheorems.AtMostOneMoreResult` | src/domains/session/transcription_queue.cpp:80-132 | after shutdown begins, delivered plus running ids are fixed: at most the running job's result is still added |
| `ProtocolTheorems.InterruptedJobFails` | src/domains/speech/whisper_backend.cpp:75-81 | a job still decoding when the abort has been requested ends, in every completed shutdown, as one speech error |
| `ProtocolTheorems.InvStep` | src/domains/session/transcription_queue.cpp:14-132 | every step of either thread keeps the conjunction of the four invariants |
| `ProtocolControl.ControlStep` | src/domains/session/transcription_queue.hpp:42-54 | every step keeps the control invariant: busy flag versus worker, room reserved while recording, wake-ups owed, preview exclusivity, abort after stop |
| `ProtocolFifo.FifoStep` | src/domains/session/transcription_queue.cpp:14-132 | every step keeps the pipeline equal to the accepted ids minus the removed ones, and starts equal to results plus the running job |
| `ProtocolOutcome.OutcomesStep` | src/domains/session/session_manager.cpp:94-192 | every step keeps, for every id, the agreement between where the job is and what its published history says |
| `ProtocolTickets.TicketsStep` | src/domains/session/transcription_queue.cpp:14-52 | every step keeps each job's ticket (what was delivered and ahead at acceptance) consistent with the pipeline, and each waiting or running job tied to its own recording |
| `ProtocolFifo.CancelTakesOne` | src/domains/session/transcription_queue.cpp:33-42 | cancelling takes exactly that job out of the pipeline and leaves the order of the others |
| `ProtocolFifo.DropTakesTail` | src/domains/session/transcription_queue.cpp:80-89 | dropping at shutdown removes exactly the waiting tail |
| `ProtocolFifo.AnnouncedMeans` | src/domains/session/session_manager.cpp:120-144 | poll_completed adds exactly the drained start ids and the drained result ids to the two projections of the trace |
| `ProtocolOutcome.HeldWereStarted` | src/domains/session/session_manager.cpp:121-125 | each result drained first has its start notice published already or in the batch drained second |
| `Protocol.WorkerNext` | src/domains/session/transcription_queue.cpp:102-132 | the worker's step changes nothing but its position, the queue, the wake counter and the abort flag; that it hands over what the backend answered is stated by ResultsAreAnswers |
| `Protocol.LoopNext` | src/app/main.cpp:180-186 | the loop's unlocked steps change nothing but the owner's position, the wake counter and the callback, and leave to commands, draining or shutdown |
| `ProtocolLink.WorkerActivity` | src/domains/session/transcription_queue.cpp:102-132 | any stretch of worker steps takes jobs off the front in order, records their starts, appends results and touches nothing of the owner's |
| `ProtocolLink.PollCompletedIsInterleaved` | src/domains/session/session_manager.cpp:120-144 | drain, any worker activity, drain gives exactly what the object's PollCompleted promises |
| `ProtocolLink.StopSessionIsInterleaved` | src/domains/session/session_manager.cpp:94-117 | enqueue, any worker activity, notify and announce gives exactly what the object's StopSession promises |
| `ProtocolLink.ShutdownIsInterleaved` | src/domains/session/session_manager.cpp:182-192 | locked section, notify, abort and join, interleaved with the worker in any way, then the drop notices: exactly what the object's Shutdown promises |
| `TranscriptionQueues.TranscriptionQueue.TryEnqueue` | src/domains/session/transcription_queue.cpp:14-26 | appends and answers the outstanding count if there is room and no stop; otherwise refuses and changes nothing |
| `TranscriptionQueues.TranscriptionQueue.HasCapacity` | src/domains/session/transcription_queue.cpp:28-31 | answers whether an enqueue would be accepted |
| `TranscriptionQueues.TranscriptionQueue.CancelPending` | src/domains/session/transcription_queue.cpp:33-42 | found iff the id waits; the erase-while-scanning loop erases exactly the first such job |
| `TranscriptionQueues.TranscriptionQueue.DrainStarted` | src/domains/session/transcription_queue.cpp:44-47 | hands over all start notices and leaves none; nothing else changes |
| `TranscriptionQueues.TranscriptionQueue.DrainCompleted` | src/domains/session/transcription_queue.cpp:49-52 | hands over all results and leaves none; nothing else changes |
| `TranscriptionQueues.TranscriptionQueue.BeginShutdown` | src/domains/session/transcription_queue.cpp:80-89 | sets the stop flag, drops everything waiting and answers its ids in order |
| `TranscriptionQueues.TranscriptionQueue.TakeJob` | src/domains/session/transcription_queue.cpp:106-120 | the worker exits on stop even if work waits; otherwise it takes the oldest job, turns busy and records the start |
| `TranscriptionQueues.TranscriptionQueue.FinishJob` | src/domains/session/transcription_queue.cpp:125-129 | the result is appended under the job's id as busy is cleared |
| `TranscriptionQueues.TranscriptionQueue.Shutdown` | src/domains/session/transcription_queue.cpp:80-100 | drops and answers everything waiting; the queue ends as the joined worker left it, stopped and empty |
| `TranscriptionQueues.ShutdownTwice` | src/domains/session/transcription_queue.cpp:80-100 | whatever the worker did until it was joined, a second shutdown drops nothing |
| `TranscriptionQueues.ErasedSplits` | src/domains/session/transcription_queue.cpp:33-42 | erasing removes one job with that id, the first, and keeps the rest in order |
| `TranscriptionQueues.WorkerSections` | src/domains/session/transcription_queue.cpp:106-129 | each of the worker's critical sections is a worker effect |
| `TranscriptionQueues.WorkerEffectsCompose` | src/domains/session/transcription_queue.cpp:102-132 | worker effects compose, so any number of sections between two owner sections is one |
| `SessionManagers.SessionManager.StartSession` | src/domains/session/session_manager.cpp:43-76 | refuses outside Idle, reports a full queue or a failed device without leaving Idle, spends an id on a failed start; succeeds iff the state moved from Idle to Recording |
| `SessionManagers.SessionManager.StopSession` | src/domains/session/session_manager.cpp:78-118 | all four outcomes: not recording, device failure, accepted with position and announcement around any worker activity, refused by the queue |
| `SessionManagers.SessionManager.CancelSession` | src/domains/session/session_manager.cpp:146-168 | discards a recording or acknowledges an error and returns to Idle; succeeds iff not Idle |
| `SessionManagers.SessionManager.CancelJob` | src/domains/session/session_manager.cpp:170-176 | announces a cancellation iff the id was waiting |
| `SessionManagers.SessionManager.PollCompleted` | src/domains/session/session_manager.cpp:120-144 | results taken before starts, starts published before results, for any worker activity in between; clients are told exactly the ids and texts drained; last completed and failed ids are those of the last such result |
| `SessionManagers.SessionManager.PublishResult` | src/domains/session/session_manager.cpp:129-142 | one result is published with its own text, or as a speech error; a failed copy adds a clipboard error |
| `SessionManagers.SessionManager.Shutdown` | src/domains/session/session_manager.cpp:182-192 | each dropped job is reported once, in order; the queue ends stopped and empty |
| `SessionManagers.SessionManager.Fail` | src/domains/session/session_manager.cpp:31-41 | the active session fails, the service enters Error, and the error carries the session's id |
| `SessionManagers.SessionManager.Status` | src/domains/session/session_manager.cpp:196-220 | a status is never self-contradictory: Idle means nothing queued or running, Processing means outstanding work, the counts add up, and the last ids are those recorded |
| `Captures.CaptureStaysCoupled` | src/domains/session/session_manager.cpp:31-168 | start, stop and cancel keep the three holders coupled for every device and queue behaviour, and move the stored state only along the table |
| `Captures.TransitionTables` | src/domains/session/service_state.hpp:24-30 | both transition tables, row by row |
| `Captures.Session.TryTransition` | src/domains/session/session.cpp:39-49 | moves iff the table allows it; the finish time is set exactly on a terminal move |
| `Captures.RecordingManager.OnSamples` | src/domains/audio/recording_manager.cpp:14-19 | a batch is appended and nothing else changes |
| `Captures.RecordingManager.Start` | src/domains/audio/recording_manager.cpp:21-38 | succeeds iff idle and the device opens; the new recording holds only samples captured since |
| `Captures.RecordingManager.Stop` | src/domains/audio/recording_manager.cpp:40-74 | yields every sample since the start unless the device was lost; either way the manager is idle and empty; the finish is published iff there is a recording |
| `Captures.RecordingManager.DeviceLost` | src/domains/audio/recording_manager.cpp:45-49 | the hardware disappearing changes nothing but the device's own flag |
| `Captures.RecordingManager.SamplesSnapshot` | src/domains/audio/recording_manager.cpp:80-87 | the snapshot is what follows the first `start` samples, empty beyond the end |
| `Traces.StartNoticesMean` | src/domains/session/session_manager.cpp:126-128 | start notices project to their ids, carry no result, and start exactly the queued jobs among them |
| `Traces.ResultNoticeMeans` | src/domains/clipboard/auto_clipboard.cpp:16-29 | one result ends its own job only; a clipboard failure for the same id is not a second ending |
| `Traces.ResultNoticesMean` | src/domains/session/session_manager.cpp:129-142 | a batch of results ends the started jobs in it and no other |
| `Traces.DropNoticesMean` | src/domains/session/session_manager.cpp:182-192 | drop notices end exactly the queued jobs among them |
| `LiveTranscribers.LiveTranscriber.Tick` | src/domains/session/live_transcriber.cpp:172-296 | the whole tick, pause, skip, decode, commit and publication, as a function of the fields and what it observes; an event exactly when a decode changed the text |
| `LiveTranscribers.LiveTranscriber.Resume` | src/domains/session/live_transcriber.cpp:199-219 | pause handling: beyond the cap the segment restarts at the cap, else only the flag is cleared; the window is cut at the segment start |
| `LiveTranscribers.LiveTranscriber.Absorb` | src/domains/session/live_transcriber.cpp:241-285 | everything after a successful decode: overlap removal once, then forced or agreed commit |
| `LiveTranscribers.LiveTranscriber.ForceCommit` | src/domains/session/live_transcriber.cpp:257-270 | commits every remaining word, remembers the words, advances the segment start |
| `LiveTranscribers.LiveTranscriber.CommitAgreed` | src/domains/session/live_transcriber.cpp:271-285 | commits the newly agreed words up to but excluding the last, and replaces the tail |
| `LiveTranscribers.LiveTranscriber.Commit` | src/domains/session/live_transcriber.cpp:160-170 | the slice's text is appended after a space; an empty slice changes nothing |
| `LiveTranscribers.LiveTranscriber.Reset` | src/domains/session/live_transcriber.cpp:298-307 | back to the initial state |
| `LiveTranscribers.SafeUpper` | src/domains/session/live_transcriber.cpp:272-276 | the agreed end never includes the last word, every word before it matches the previous decode's at the same index, and the word at it does not, unless it is the last |
| `LiveTheorems.WindowIsSlice` | src/domains/session/live_transcriber.cpp:194-227 | every window decoded is a non-empty contiguous slice of the recording beginning at the segment start |
| `LiveTheorems.ForcedAdvances` | src/domains/session/live_transcriber.cpp:263-270 | a forced commit strictly advances the segment start, to exactly the kept audio before the window end, or to that end if the window is no longer than the kept audio |
| `LiveTheorems.SkipForcesCommit` | src/domains/session/live_transcriber.cpp:205-219 | a skip drops exactly the excess over the cap, and that tick, if its decode succeeds, is forced whatever the voice detector says |
| `LiveTheorems.StartMovesExactly` | src/domains/session/live_transcriber.cpp:194-270 | a tick moves the segment start iff it reads a window and either skips after a pause or decodes and force-commits; the start never moves back |
| `LiveTheorems.StartMovesWithSegment` | src/domains/session/live_transcriber.cpp:205-270 | in a recording the start moves exactly when samples are left behind and a new segment begins |
| `LiveTicks.IdleTickChangesNothing` | src/domains/session/live_transcriber.cpp:172-197 | a tick without recording, free backend, session, elapsed interval or new samples changes nothing and publishes nothing, except that a busy backend is noted |
| `LiveTicks.DecodesExactlyWhen` | src/domains/session/live_transcriber.cpp:172-233 | a tick records a decode iff it runs, finds samples and the backend answers; the decode is of exactly the samples from the segment start, or of the last segment after a pause, and holds the words of the answer |
| `LiveTicks.ForcedExactlyWhen` | src/domains/session/live_transcriber.cpp:251-285 | in every recording a decode is forced iff its window lasts a whole segment or silence is reported; then no tail is left, every word from its base on is committed and the start moves to the kept audio; otherwise the start stays |
| `LiveTicks.PauseFlag` | src/domains/session/live_transcriber.cpp:176-206 | the pause flag is set by a busy tick and cleared by every tick that runs |
| `LiveTicks.PausedExactly` | src/domains/session/live_transcriber.cpp:176-206 | in every recording the preview counts as paused iff a tick found the backend busy and none has run since |
| `LiveTicks.SkipsExactlyWhen` | src/domains/session/live_transcriber.cpp:199-219 | in every recording audio is skipped iff the preview was paused in that sense and more than a segment is waiting; exactly one segment is left |
| `LiveTicks.PartialsNameTheirSession` | src/domains/session/live_transcriber.cpp:291-295 | in every recording each preview event names the session being recorded |
| `LiveRepetition.SkipMovesStartWithoutCommit` | src/domains/session/live_transcriber.cpp:205-231 | for every configuration, a recording whose start moved although nothing was decoded or committed |
| `LiveTheorems.SamplesAreAccounted` | src/domains/session/live_transcriber.cpp:205-270 | in every recording each sample before the segment start lies in a force-committed window or in a skip |
| `LiveTheorems.WindowsGrow` | src/domains/session/live_transcriber.cpp:194-197 | decodes of one segment share their start and only grow |
| `LiveTheorems.CommittedTextIsExact` | src/domains/session/live_transcriber.cpp:160-170 | splitting the committed text gives back exactly the committed words, in order |
| `LiveTheorems.CommittedTextIsMonotone` | src/domains/session/events.hpp:33-41 | each published committed text is a prefix of every later one and of the current one |
| `LiveTheorems.NothingRecognisedIsLost` | src/domains/session/live_transcriber.cpp:257-285 | committed words plus tail after a decode are the earlier committed words plus every word from the committed index onward |
| `LiveTheorems.CommitsAreJustified` | src/domains/session/live_transcriber.cpp:271-285 | every word committed without force matched at the same index in the decode just before, of the same segment, and was not the last word |
| `LiveTheorems.NoIndexTwice` | src/domains/session/live_transcriber.cpp:278-281 | no index of a segment is committed twice, and commits only move forward, even when a decode recognises fewer words than are committed |
| `LiveTheorems.DuplicatesStayOut` | src/domains/session/live_transcriber.cpp:241-249 | in a segment opened by a forced commit, the leading words with which its first decode re-recognises the longest tail of the forced words are never committed by any decode of it |
| `LiveTheorems.NoStutter` | src/domains/session/live_transcriber.cpp:287-295 | the stored text is the last published one (empty if none), and consecutive events differ |
| `LiveRepetition.CommitsAreExactly` | src/domains/session/live_transcriber.cpp:246-285 | in every recording, word i of a decode is committed iff i lies between limits that depend only on what was recognised: from the segment's earlier limits, or the opening overlap, or 0, up to all words or the leading words, the last aside, that match the decode before |
| `LiveRepetition.AgreedWordsAreCommitted` | src/domains/session/live_transcriber.cpp:271-285 | in every recording, an unforced decode that continues a segment commits exactly the words beyond its base, other than the last, up to which all words match the decode before |
| `LiveRepetition.RepeatsExactlyWhen` | src/domains/session/events.hpp:33-41 | in every recording, a decode commits again words of an earlier forced commit iff its lower limit lies inside its overlap with them and below its upper limit |
| `LiveRepetition.OpenedSegmentRepeatsOnlyIfOverlapGrows` | src/domains/session/live_transcriber.cpp:241-249 | a segment opened by a forced commit repeats forced words only in a later decode that re-recognises more of them than its first decode did |
| `LiveRepetition.BoundaryWordCanRepeat` | src/domains/session/live_transcriber.cpp:246-249 | for every configuration with less kept audio than a segment and any two words, a recording whose first decode after a forced commit is empty and whose committed text repeats the word |
| `LiveRepetition.SkippedBoundaryCanRepeat` | src/domains/session/live_transcriber.cpp:205-219 | for every such configuration and any word, a recording in which a one-sample skip after a pause makes the committed text repeat the word |
| `LiveStories.AudioTold` | src/domains/session/live_transcriber.cpp:194-270 | every tick keeps the tiling of the recording by committed windows and skips |
| `LiveStories.TextTold` | src/domains/session/live_transcriber.cpp:160-170 | every tick keeps the committed text equal to the joined committed words and extends it |
| `LiveStories.AgreementTold` | src/domains/session/live_transcriber.cpp:241-285 | every tick keeps held words equal to the last decode's (carried words imply no committed index and no previous words), all commits justified and all openings deduplicated |
| `LiveStories.IndicesTold` | src/domains/session/live_transcriber.cpp:241-285 | every tick keeps the segment's commits numbered without gap from its base to its committed index, and all commits ordered |
| `LiveStories.PartialsTold` | src/domains/session/live_transcriber.cpp:287-295 | every tick keeps the chain of published texts |
| `LiveStories.Told` | src/domains/session/live_transcriber.cpp:172-296 | the history-keeping tick has the same fields and the same event as the tick itself |
| `Words.SplitWords` | src/domains/session/live_transcriber.cpp:19-27 | extracts exactly the maximal white-space-free pieces |
| `Words.JoinWords` | src/domains/session/live_transcriber.cpp:31-46 | joins the slice with single spaces, empty if out of range |
| `Words.SplitJoin` | src/domains/session/live_transcriber.cpp:19-46 | splitting a join gives the words back; a join is empty iff there are no words |
| `Words.JoinConcat` | src/domains/session/live_transcriber.cpp:31-46 | joining a concatenation is joining the parts and putting a space between |
| `Words.WhiteSpaceSeparates` | src/domains/session/live_transcriber.cpp:19-27 | splitting distributes over each of the six white-space characters |
| `Words.PunctuationIsIgnored` | src/domains/session/live_transcriber.cpp:48-68 | a word matches itself with any ASCII punctuation appended |
| `Words.MatchingWordsShareCore` | src/domains/session/live_transcriber.cpp:58-68 | matching words differ in trailing punctuation only |
| `Words.StripTrailingPunctuation` | src/domains/session/live_transcriber.cpp:58-64 | the longest prefix that does not end in punctuation |
| `Words.Stripped` | src/domains/session/live_transcriber.cpp:58-64 | a prefix not ending in punctuation, and all that is cut off is punctuation |
| `Words.CommonPrefixLength` | src/domains/session/live_transcriber.cpp:71-79 | computes the common prefix |
| `Words.CommonPrefix` | src/domains/session/live_transcriber.cpp:71-79 | all words before it match, and the pair at it does not |
| `Words.OverlapPrefixLength` | src/domains/session/live_transcriber.cpp:90-107 | the nested loops compute the greatest overlap |
| `Words.Overlap` | src/domains/session/live_transcriber.cpp:90-107 | the suffix of that length matches the prefix, and no longer one does |
| `Framing.StreamIsLinesAndRest` | src/domains/ipc/ipc_server.cpp:294-302 | lines with their newlines followed by the rest are the stream |
| `Framing.PiecesAreClean` | src/domains/ipc/ipc_server.cpp:294-302 | neither a line nor the rest contains a newline, and lines are shorter than the stream |
| `Framing.DivisionIsUnique` | src/domains/ipc/ipc_server.cpp:294-302 | framing inverts writing: any newline-free lines and rest are recovered from their concatenation |
| `Framing.FramingResumes` | src/domains/ipc/ipc_server.cpp:294-302 | framing a stream is framing its first part and then the rest of it with the second |
| `Framing.ChunkingIsIrrelevant` | src/domains/ipc/ipc_server.cpp:273-307 | lines and buffer do not depend on how the stream was cut into reads |
| `IpcServices.IpcService.PollOnce` | src/domains/ipc/ipc_server.cpp:216-315 | deferred disconnects, accepts, reads and removals in that order, with the buffers, registry, subscriptions and histories they leave |
| `IpcServices.IpcService.DeliverLines` | src/domains/ipc/ipc_server.cpp:294-302 | the framing loop delivers exactly the buffer's lines in order, answering each, and keeps the rest |
| `IpcServices.IpcService.Receive` | src/domains/ipc/ipc_server.cpp:294-306 | a chunk is appended, framed and answered; a disconnect is asked for iff the rest exceeds the cap |
| `IpcServices.IpcService.Serve` | src/domains/ipc/ipc_server.cpp:275-307 | end of stream and errors ask for a disconnect, would-block does nothing |
| `IpcServices.IpcService.OnLine` | src/domains/ipc/ipc_service.cpp:32-47 | subscribe and unsubscribe change the sender's subscription only; replies and events may mark clients meanwhile |
| `IpcServices.IpcService.SendLine` | src/domains/ipc/ipc_server.cpp:317-347 | a failed write to a known client marks it once; nothing else changes |
| `IpcServices.IpcService.Broadcast` | src/domains/ipc/event_bridge.cpp:12-20 | exactly the connected subscribers whose write failed are newly marked |
| `IpcServices.IpcService.Disconnect` | src/domains/ipc/ipc_server.cpp:224-229 | a known client is erased, unsubscribed and reported once; an unknown one is ignored |
| `IpcServices.IpcService.AcceptAll` | src/domains/ipc/ipc_server.cpp:250-271 | each accepted descriptor starts as a new connection with an empty buffer |
| `IpcTheorems.FramingIsExact` | src/domains/ipc/ipc_server.cpp:273-315 | in every run, lines delivered per connection are the terminated pieces of its bytes, its buffer is the rest and at most 2^20 bytes, no line exceeds 2^20 + 4095 bytes |
| `IpcConnections.HealthyClientsStay` | src/domains/ipc/ipc_server.cpp:222-315 | in every run, a client is connected after a poll iff it was there after the deferred disconnects and accepts and its own read was no end of stream, no error, and left no newline-free rest beyond 2^20 bytes |
| `IpcConnections.SurvivorsKeepTheirConnection` | src/domains/ipc/ipc_server.cpp:222-315 | such a client that was there before is still the same connection |
| `IpcConnections.MarkedExactlyOnFailure` | src/domains/ipc/ipc_server.cpp:329-343 | in every run, a client is marked for disconnection after a poll iff it was present and a write to it failed while this poll's lines were answered |
| `IpcTheorems.SubscriptionsAreOwn` | src/domains/ipc/event_bridge.cpp:46-52 | in every run a descriptor is subscribed iff the connection now behind it is open and its own last wish was to subscribe |
| `IpcTheorems.DisconnectedExactlyOnce` | src/domains/ipc/ipc_server.cpp:309-314 | every connection ever accepted is either open or was reported disconnected exactly once |
| `IpcTheorems.DeferredDisconnectsHitTheirTarget` | src/domains/ipc/ipc_server.cpp:222-230 | no deferred disconnect is outstanding when clients are accepted; a deferred disconnect closes only a connection whose own write failed, and closes it for certain |
| `IpcTheorems.PolledInv` | src/domains/ipc/ipc_server.cpp:216-315 | a whole poll keeps registry, subscriptions, marks, framing and the buffer cap |
| `IpcTheorems.ReadAllInv` | src/domains/ipc/ipc_server.cpp:273-307 | the read loop keeps them too, buffers of clients about to be removed aside |
| `IpcTheorems.ClosedAllInv` | src/domains/ipc/ipc_server.cpp:224-229 | a removal list, duplicates and unknown descriptors included, closes exactly the known clients in it |

## Left out

- main's loop and the worker's endless loop are program counters of a step system, not `while` loops; the
  objects they call are classes.
- IpcServer, IpcService and EventBridge are one class, because the server's callbacks are the service's and
  change the same state during a poll; descriptors ready for reading come in an arbitrary order.
- `has_trailing_silence` is an arbitrary boolean, so results hold for every voice detector.
- The speech backend is an arbitrary answer plus the sticky abort flag; whisper.cpp, model loading, and the
  language and prompt of a job are not modelled.
- The capture device is a source of sample batches that may be lost at any time; its own code is not modelled.
- Wall-clock pacing (`min_interval`): a tick may be due or not, arbitrarily.
- Fairness and real time: that the scheduler runs both threads, that a client does not send commands for
  ever within one poll, and how long a step takes; `ResultsReachClients` counts owner steps.
- 64-bit wrap-around of ids and sample counts, and saturation of the wake counter.
- IpcServices.IpcService.SendLine: does not model the bytes written, only whether the write as a whole
  failed, because a doomed client may be written to again before the next poll.
- IpcServer `start`/`stop` and subscriptions across a restart: the daemon never restarts the server, and
  `stop` does not report disconnects.
- Event handlers that re-enter the managers: publishing only appends to the trace; the clipboard handler's
  own error event is part of the result notice.
- Error texts: an error event is known by its component and session id.
- Configuration, TOML and JSON codecs, command dispatch, logger, clipboard subprocess, packaging and the
  Python client: plumbing that would only add easy members.
