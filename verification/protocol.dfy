/** The two-thread protocol: the owner (main loop, src/app/main.cpp) and the
    transcription worker (TranscriptionQueue::run), interleaved at their critical
    sections. Each locked section of the queue is one step; so is every unlocked
    action the other thread could observe (condition variable, eventfd counter,
    abort flag). The environment's answers arrive in the step label. */
module Protocol {
  import opened Core
  import opened TranscriptionQueues
  import opened Captures
  import opened Traces

  /** Where the worker is in run(). */
  datatype Worker =
    | Checking                                  // about to lock and test its wait condition
    | Asleep                                    // blocked on the condition variable
    | StartNotice(job: Job)                     // popped a job, about to copy the callback
    | StartRing(job: Job)                       // about to call the callback
    | Decoding(job: Job)                        // inside transcribe()
    | Delivering(job: Job, outcome: Outcome)    // about to lock and hand over the result
    | FinishNotice                              // about to copy the callback
    | FinishRing                                // about to call the callback
    | Exited

  /** Where the owner is in main(). */
  datatype Owner =
    | Registering                               // before set_activity_callback
    | LoopHead                                  // testing the stop flag
    | Polling                                   // about to block in poll()
    | Waking                                    // poll() returned with the eventfd readable
    | Commands                                  // handling client lines
    | Notifying(id: SessionId, position: nat)   // stop_session: enqueued, about to notify_one
    | Draining(last: bool)                      // poll_completed: about to drain_completed
    | DrainingStarted(last: bool, held: seq<JobResult>)
    | TickState | TickBusy | TickGo             // LiveTranscriber::tick() checks
    | Previewing                                // inside transcribe_partial()
    | Cancelling | Stopping                     // shutdown: cancel_session, then the locked section
    | StopNotify(dropped: seq<SessionId>)       // about to notify_all
    | StopAbort(dropped: seq<SessionId>)        // about to request_abort
    | Joining(dropped: seq<SessionId>)
    | Unregistering | Closing | Done

  /** What was ahead of a job when it was accepted: the results already
      delivered, and the jobs running or waiting. */
  datatype Ticket = Ticket(done: seq<SessionId>, ahead: seq<SessionId>)

  datatype Sys = Sys(
    owner: Owner,
    worker: Worker,
    queue: QueueState,
    capture: Capture,
    callback: bool,             // the activity callback is registered
    bell: nat,                  // the eventfd counter
    abort: bool,                // the backend's sticky abort flag
    // Histories.
    accepted: seq<SessionId>,
    removed: set<SessionId>,    // cancelled while waiting, or dropped at shutdown
    dropped: set<SessionId>,    // those of them that were dropped at shutdown
    tickets: map<SessionId, Ticket>,
    trace: seq<Event>)

  /** A client's command; `NoMore` ends the lines of one poll. */
  datatype Command = Start | Stop | CancelSession | CancelJob(id: SessionId) | Query | NoMore

  /** The environment's part in one owner step: the stop flag, whether poll()
      reports readiness, the next command, whether a preview is due, which
      clipboard copies fail, whether the microphone opens or was lost, and what
      it recorded. */
  datatype Choice = Choice(quit: bool, ready: bool, command: Command, preview: bool,
                           clipboardFails: set<SessionId>, opens: bool, lost: bool, samples: seq<Sample>)

  datatype Action =
    | WorkerMoves(outcome: Outcome)
    | SpuriousWakeup
    | OwnerMoves(choice: Choice)

  function Init(capacity: nat): Sys {
    Sys(Registering, Checking, QueueState(capacity, [], [], [], false, false),
        Capture(ServiceState.Idle, None, None, 1), false, 0, false, [], {}, {}, map[], [])
  }

  // ----- Views -----

  /** The worker holds a job: from popping it to handing over its result. */
  predicate Holds(w: Worker) {
    w.StartNotice? || w.StartRing? || w.Decoding? || w.Delivering?
  }

  function Running(w: Worker): seq<SessionId> {
    if Holds(w) then [w.job.id] else []
  }

  function HeldIds(o: Owner): seq<SessionId> {
    if o.DrainingStarted? then ResultIds(o.held) else []
  }

  /** Every result the worker has handed over, in order. */
  function Delivered(s: Sys): seq<SessionId> {
    ResultsIn(s.trace) + HeldIds(s.owner) + ResultIds(s.queue.completed)
  }

  /** The worker is between changing the queue and ringing the bell for it. */
  predicate AboutToRing(w: Worker) {
    w.StartNotice? || w.StartRing? || w.FinishNotice? || w.FinishRing?
  }

  /** The owner has entered TranscriptionQueue::shutdown(). */
  predicate ShutDown(o: Owner) {
    o.StopNotify? || o.StopAbort? || o.Joining? || Joined(o)
  }

  /** The owner has joined the worker. */
  predicate Joined(o: Owner) {
    o.Unregistering? || (o.Draining? && o.last) || (o.DrainingStarted? && o.last) || o.Closing? || o.Done?
  }

  function Notified(w: Worker): Worker {
    if w.Asleep? then Checking else w
  }

  // ----- Steps -----

  predicate Enabled(s: Sys, a: Action) {
    match a
    case WorkerMoves(outcome) =>
      // The backend answers an error whenever the abort flag is set.
      !s.worker.Asleep? && !s.worker.Exited? && (s.worker.Decoding? && s.abort ==> outcome.SpeechError?)
    case SpuriousWakeup => s.worker.Asleep?
    case OwnerMoves(_) => !s.owner.Done? && (s.owner.Joining? ==> s.worker.Exited?)
  }

  function Next(s: Sys, a: Action): Sys
    requires Enabled(s, a)
  {
    match a
    case WorkerMoves(outcome) => WorkerNext(s, outcome)
    case SpuriousWakeup => s.(worker := Checking)
    case OwnerMoves(choice) => OwnerNext(s, choice)
  }

  function WorkerNext(s: Sys, outcome: Outcome): (n: Sys)
    requires Enabled(s, WorkerMoves(outcome))
    ensures n == s.(worker := n.worker, queue := n.queue, bell := n.bell, abort := n.abort)
    ensures n.queue.capacity == s.queue.capacity
  {
    match s.worker
    case Checking =>
      if s.queue.stopping then s.(worker := Exited)
      else if s.queue.pending == [] then s.(worker := Asleep)
      else s.(abort := false, worker := StartNotice(s.queue.pending[0]), queue := Taken(s.queue))
    case StartNotice(job) => s.(worker := if s.callback then StartRing(job) else Decoding(job))
    case StartRing(job) => s.(bell := s.bell + 1, worker := Decoding(job))
    case Decoding(job) => s.(worker := Delivering(job, outcome))
    case Delivering(job, result) =>
      s.(queue := Finished(s.queue, JobResult(job.id, result)), worker := FinishNotice)
    case FinishNotice => s.(worker := if s.callback then FinishRing else Checking)
    case FinishRing => s.(bell := s.bell + 1, worker := Checking)
  }

  function OwnerNext(s: Sys, c: Choice): Sys
    requires Enabled(s, OwnerMoves(c))
  {
    if s.owner.Commands? then CommandNext(s, c)
    else if InLoop(s.owner) then LoopNext(s, c)
    else if Handing(s.owner) then HandingNext(s, c)
    else ShutdownNext(s, c)
  }

  predicate InLoop(o: Owner) {
    || o.Registering? || o.LoopHead? || o.Polling? || o.Waking?
    || o.TickState? || o.TickBusy? || o.TickGo? || o.Previewing?
  }

  /** Registering the callback, poll() and the preview. */
  function LoopNext(s: Sys, c: Choice): (n: Sys)
    requires InLoop(s.owner)
    ensures n == s.(owner := n.owner, bell := n.bell, callback := n.callback)
    ensures InLoop(n.owner) || n.owner.Commands? || n.owner == Draining(false) || n.owner.Cancelling?
  {
    match s.owner
    case Registering => s.(callback := true, owner := LoopHead)
    case LoopHead => s.(owner := if c.quit then Cancelling else Polling)
    // poll() may also time out or be interrupted; it reports every ready descriptor.
    case Polling =>
      s.(owner := if !c.ready then Draining(false) else if s.bell > 0 then Waking else Commands)
    case Waking => s.(bell := 0, owner := Commands)
    case TickState => s.(owner := if s.capture.state.Recording? then TickBusy else LoopHead)
    case TickBusy => s.(owner := if Outstanding(s.queue) > 0 then LoopHead else TickGo)
    case TickGo => s.(owner := if c.preview then Previewing else LoopHead)
    case Previewing => s.(owner := LoopHead)
  }

  predicate Handing(o: Owner) {
    o.Notifying? || o.Draining? || o.DrainingStarted?
  }

  /** The end of stop_session() and the two halves of poll_completed(). */
  function HandingNext(s: Sys, c: Choice): (n: Sys)
    requires Handing(s.owner)
    ensures n.queue.capacity == s.queue.capacity && n.bell == s.bell
  {
    match s.owner
    case Notifying(id, position) =>
      s.(worker := Notified(s.worker), capture := HandedOver(s.capture),
         trace := s.trace + [TranscriptionQueued(id, position)], owner := Commands)
    case Draining(last) =>
      s.(queue := s.queue.(completed := []), owner := DrainingStarted(last, s.queue.completed))
    case DrainingStarted(last, held) =>
      s.(queue := s.queue.(started := []), owner := if last then Closing else TickState,
         trace := s.trace + StartNotices(s.queue.started) + ResultNotices(held, c.clipboardFails))
  }

  /** main() after its loop. */
  function ShutdownNext(s: Sys, c: Choice): (n: Sys)
    requires !s.owner.Commands? && !InLoop(s.owner) && !Handing(s.owner) && !s.owner.Done?
    ensures n.queue.capacity == s.queue.capacity
    ensures n.queue.completed == s.queue.completed && n.worker in {s.worker, Notified(s.worker)}
    ensures !n.owner.DrainingStarted? && n.bell == s.bell
  {
    match s.owner
    case Cancelling =>
      var (capture, events) := CancelledSession(s.capture, c.lost, c.samples);
      s.(capture := capture, trace := s.trace + events, owner := Stopping)
    case Stopping =>
      var dropped := JobIds(s.queue.pending);
      s.(queue := Stopped(s.queue), removed := s.removed + (set id | id in dropped),
         dropped := s.dropped + (set id | id in dropped), owner := StopNotify(dropped))
    case StopNotify(dropped) => s.(worker := Notified(s.worker), owner := StopAbort(dropped))
    case StopAbort(dropped) => s.(abort := true, owner := Joining(dropped))
    case Joining(dropped) => s.(trace := s.trace + DropNotices(dropped), owner := Unregistering)
    case Unregistering => s.(callback := false, owner := Draining(true))
    case Closing => s.(owner := Done)
  }

  function CommandNext(s: Sys, c: Choice): (n: Sys)
    ensures n.queue.capacity == s.queue.capacity
    ensures n.queue.completed == s.queue.completed && n.worker == s.worker && n.bell == s.bell
    ensures s.owner.Commands? ==> n.owner.Commands? || n.owner.Notifying? || n.owner == Draining(false)
  {
    match c.command
    case Start =>
      var (capture, events) := StartedSession(s.capture, HasRoom(s.queue), c.opens);
      s.(capture := capture, trace := s.trace + events)
    case Stop =>
      var (capture, events, job) := StoppedRecording(s.capture, c.lost, c.samples);
      var stopped := s.(capture := capture, trace := s.trace + events);
      if job.None? then stopped
      else if HasRoom(s.queue) then Accept(stopped, job.value)
      else
        var (failed, more) := FailedBy(capture, QueuePart);
        stopped.(capture := failed, trace := stopped.trace + more)
    case CancelSession =>
      var (capture, events) := CancelledSession(s.capture, c.lost, c.samples);
      s.(capture := capture, trace := s.trace + events)
    case CancelJob(id) =>
      if id !in JobIds(s.queue.pending) then s
      else
        s.(queue := s.queue.(pending := Erased(s.queue.pending, id)), removed := s.removed + {id},
           trace := s.trace + [SessionCancelled(id)])
    case Query => s
    case NoMore => s.(owner := Draining(false))
  }

  function Accept(s: Sys, job: Job): Sys {
    s.(queue := Enqueued(s.queue, job), owner := Notifying(job.id, Outstanding(s.queue)),
       accepted := s.accepted + [job.id],
       tickets := s.tickets[job.id := Ticket(Delivered(s), Running(s.worker) + JobIds(s.queue.pending))])
  }

  // ----- Runs -----

  /** `acts` can be taken one after the other from `s`. */
  predicate CanExec(s: Sys, acts: seq<Action>)
    decreases acts
  {
    acts == [] || (Enabled(s, acts[0]) && CanExec(Next(s, acts[0]), acts[1..]))
  }

  function Exec(s: Sys, acts: seq<Action>): Sys
    requires CanExec(s, acts)
    decreases acts
  {
    if acts == [] then s else Exec(Next(s, acts[0]), acts[1..])
  }
}
