/** Control invariants of the protocol: who may touch the backend, who owes whom
    a wake-up, when the abort flag may change, and how full the queue can be. */
module ProtocolControl {
  import opened Core
  import opened TranscriptionQueues
  import opened Captures
  import opened Traces
  import opened Protocol

  /** The flags agree with the two program counters. */
  predicate FlagsAgree(s: Sys) {
    && (s.queue.busy <==> Holds(s.worker))
    && (s.queue.stopping <==> ShutDown(s.owner))
    && (s.queue.stopping ==> s.queue.pending == [])
    && (s.worker.Exited? ==> s.queue.stopping)
    && (Joined(s.owner) ==> s.worker.Exited?)
    && (s.owner.Joining? || Joined(s.owner) ==> s.abort)
    && (s.owner.Registering? ==> s.queue.pending == [] && (s.worker.Checking? || s.worker.Asleep?))
    && (s.callback <==> !s.owner.Registering? && (Joined(s.owner) ==> s.owner.Unregistering?))
  }

  /** The preview runs only while no transcription work exists. */
  predicate PreviewAlone(s: Sys) {
    s.owner.TickGo? || s.owner.Previewing? ==> Outstanding(s.queue) == 0
  }

  /** A sleeping worker with something to do is about to be notified. */
  predicate WorkerWillWake(s: Sys) {
    s.worker.Asleep? && (s.queue.stopping || s.queue.pending != []) ==>
      s.owner.Notifying? || s.owner.StopNotify?
  }

  /** Undrained notices and results either have their bell rung, or the worker is
      about to ring it, or the owner drains before it blocks again. */
  predicate OwnerWillWake(s: Sys) {
    && (s.queue.completed != [] ==>
          s.bell > 0 || AboutToRing(s.worker) || DrainsCompletedFirst(s.owner))
    && (s.queue.started != [] ==>
          s.bell > 0 || AboutToRing(s.worker) || DrainsCompletedFirst(s.owner) || s.owner.DrainingStarted?)
    && (Joined(s.owner) && !s.owner.Unregistering? && !s.owner.Draining? ==> s.queue.completed == [])
    && (s.owner.Closing? || s.owner.Done? ==> s.queue.started == [])
  }

  predicate DrainsCompletedFirst(o: Owner) {
    o.Commands? || o.Notifying? || o.Draining? || o.Unregistering?
  }

  /** Capacity: the room seen by start_session() is still there for stop_session(). */
  predicate RoomKept(s: Sys) {
    && |s.queue.pending| <= s.queue.capacity
    && (s.capture.state.Recording? && !s.owner.Notifying? && !s.queue.stopping ==>
          |s.queue.pending| < s.queue.capacity)
  }

  /** The capture holders are coupled between operations; inside stop_session the
      session is Processing and the microphone already released. Ids are fresh. */
  predicate CaptureOk(s: Sys) {
    && (forall id :: id in s.accepted ==> id < s.capture.nextId)
    && (!s.owner.Notifying? ==>
          && Coupled(s.capture)
          && (s.capture.active.Some? ==> s.capture.active.value.id !in s.accepted)
          && (s.capture.active.Some? ==> forall id :: id in s.accepted ==> id < s.capture.active.value.id))
    && (s.owner.Notifying? ==>
          && s.capture.state.Recording? && s.capture.recording.None?
          && s.capture.active == Some(SessionRecord(s.owner.id, SessionState.Processing))
          && s.owner.id < s.capture.nextId
          && s.accepted != [] && s.accepted[|s.accepted| - 1] == s.owner.id)
    && (s.owner.Registering? || ShutDown(s.owner) || s.owner.Stopping? ==> s.capture.state.Idle?)
  }

  predicate Control(s: Sys) {
    && FlagsAgree(s) && PreviewAlone(s) && WorkerWillWake(s) && OwnerWillWake(s) && RoomKept(s) && CaptureOk(s)
  }

  lemma ControlInit(capacity: nat)
    ensures Control(Init(capacity))
  {
  }

  lemma ControlWorkerChecks(s: Sys, outcome: Outcome)
    requires Control(s) && s.worker.Checking?
    ensures Control(WorkerNext(s, outcome))
  {
  }

  lemma ControlWorker(s: Sys, outcome: Outcome)
    requires Control(s) && Enabled(s, WorkerMoves(outcome))
    ensures Control(WorkerNext(s, outcome))
  {
    if s.worker.Checking? {
      ControlWorkerChecks(s, outcome);
    }
  }

  lemma ControlStart(s: Sys, c: Choice)
    requires Control(s) && s.owner.Commands? && c.command.Start?
    ensures Control(CommandNext(s, c))
  {
    CaptureStaysCoupled(s.capture, HasRoom(s.queue), c.opens, c.lost, c.samples);
  }

  lemma ControlStop(s: Sys, c: Choice)
    requires Control(s) && s.owner.Commands? && c.command.Stop?
    ensures Control(CommandNext(s, c))
  {
    CaptureStaysCoupled(s.capture, HasRoom(s.queue), c.opens, c.lost, c.samples);
    var (capture, events, job) := StoppedRecording(s.capture, c.lost, c.samples);
    if job.Some? {
      assert s.capture.active.Some? && !s.queue.stopping && HasRoom(s.queue);
      var n := CommandNext(s, c);
      assert n.accepted == s.accepted + [job.value.id] && n.owner.Notifying?;
      assert n.capture.active == Some(SessionRecord(job.value.id, SessionState.Processing));
      assert CaptureOk(n);
    }
  }

  lemma ControlCancelJob(s: Sys, c: Choice)
    requires Control(s) && s.owner.Commands? && c.command.CancelJob?
    ensures Control(CommandNext(s, c))
  {
    if c.command.id in JobIds(s.queue.pending) {
      var k := ErasedSplits(s.queue.pending, c.command.id);
    }
  }

  lemma ControlOtherCommand(s: Sys, c: Choice)
    requires Control(s) && s.owner.Commands?
    requires c.command.CancelSession? || c.command.Query? || c.command.NoMore?
    ensures Control(CommandNext(s, c))
  {
    CaptureStaysCoupled(s.capture, HasRoom(s.queue), c.opens, c.lost, c.samples);
  }

  lemma ControlLoop(s: Sys, c: Choice)
    requires Control(s) && InLoop(s.owner)
    ensures Control(LoopNext(s, c))
  {
  }

  lemma ControlHanding(s: Sys, c: Choice)
    requires Control(s) && Handing(s.owner)
    ensures Control(HandingNext(s, c))
  {
  }

  lemma ControlCancelling(s: Sys, c: Choice)
    requires Control(s) && s.owner.Cancelling?
    ensures Control(ShutdownNext(s, c))
  {
    CaptureStaysCoupled(s.capture, true, c.opens, c.lost, c.samples);
  }

  lemma ControlShutdown(s: Sys, c: Choice)
    requires Control(s) && Enabled(s, OwnerMoves(c))
    requires !s.owner.Commands? && !InLoop(s.owner) && !Handing(s.owner) && !s.owner.Cancelling?
    ensures Control(ShutdownNext(s, c))
  {
  }

  lemma ControlOwner(s: Sys, c: Choice)
    requires Control(s) && Enabled(s, OwnerMoves(c))
    ensures Control(OwnerNext(s, c))
  {
    if s.owner.Commands? {
      match c.command {
        case Start => ControlStart(s, c);
        case Stop => ControlStop(s, c);
        case CancelJob(_) => ControlCancelJob(s, c);
        case _ => ControlOtherCommand(s, c);
      }
    } else if InLoop(s.owner) {
      ControlLoop(s, c);
    } else if Handing(s.owner) {
      ControlHanding(s, c);
    } else if s.owner.Cancelling? {
      ControlCancelling(s, c);
    } else {
      ControlShutdown(s, c);
    }
  }

  lemma ControlStep(s: Sys, a: Action)
    requires Control(s) && Enabled(s, a)
    ensures Control(Next(s, a))
  {
    match a
    case WorkerMoves(outcome) => ControlWorker(s, outcome);
    case SpuriousWakeup =>
    case OwnerMoves(c) => ControlOwner(s, c);
  }

  lemma {:induction false} ControlRun(s: Sys, acts: seq<Action>)
    requires Control(s) && CanExec(s, acts)
    ensures Control(Exec(s, acts))
    decreases acts
  {
    if acts != [] {
      ControlStep(s, acts[0]);
      ControlRun(Next(s, acts[0]), acts[1..]);
    }
  }
}
