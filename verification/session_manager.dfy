/** The session manager (src/domains/session/session_manager.cpp): the object that
    ties capture, queue and event bus together. Its operations are proved equal to
    the functions that the interleaved protocol is built from. */
module SessionManagers {
  import opened Core
  import opened TranscriptionQueues
  import opened Captures
  import opened Traces

  datatype SessionStatus = SessionStatus(
    state: ServiceState,
    queued: nat,
    processing: bool,
    lastCompleted: Option<SessionId>,
    lastFailed: Option<SessionId>)

  /** The reported state: capture first, then transcription work. */
  function DerivedState(stored: ServiceState, q: QueueState): ServiceState {
    if !stored.Idle? then stored
    else if q.busy || |q.pending| > 0 then ServiceState.Processing
    else ServiceState.Idle
  }

  /** The last id in `results` that completed (or failed), if any. */
  function LastOf(results: seq<JobResult>, completed: bool, before: Option<SessionId>): Option<SessionId> {
    if results == [] then before
    else
      var r := results[|results| - 1];
      if r.outcome.Transcript? == completed then Some(r.id)
      else LastOf(results[..|results| - 1], completed, before)
  }

  class SessionManager {
    const bus: EventBus
    const recorder: RecordingManager
    const queue: TranscriptionQueue
    var state: ServiceState
    var active: Session?
    var nextId: nat
    var lastCompleted: Option<SessionId>
    var lastFailed: Option<SessionId>

    ghost predicate Valid()
      reads this
    {
      recorder.bus == bus && (active != null <==> !state.Idle?)
    }

    /** The capture side as one value. */
    ghost function View(): Capture
      reads this, active, recorder
    {
      Capture(state, if active == null then None else Some(active.Record()), recorder.active, nextId)
    }

    constructor (bus: EventBus, recorder: RecordingManager, queue: TranscriptionQueue)
      requires recorder.bus == bus
      ensures Valid() && this.bus == bus && this.recorder == recorder && this.queue == queue
      ensures state.Idle? && active == null && nextId == 1 && lastCompleted == None && lastFailed == None
    {
      this.bus, this.recorder, this.queue := bus, recorder, queue;
      state, active, nextId := ServiceState.Idle, null, 1;
      lastCompleted, lastFailed := None, None;
    }

    method Fail(component: Component, now: nat)
      requires Valid() && active != null
      modifies this`state, active, bus
      ensures Valid() && active == old(active)
      ensures var (c, events) := FailedBy(old(View()), component);
              View() == c && bus.trace == old(bus.trace) + events
    {
      var moved := active.TryTransition(SessionState.Failed, now);
      state := ServiceState.Error;
      bus.Publish(ErrorOccurred(Some(active.id), component));
    }

    method StartSession(opens: bool, early: seq<Sample>, now: nat) returns (ok: bool)
      requires Valid()
      modifies this, recorder, bus
      ensures Valid()
      ensures var (c, events) := StartedSession(old(View()), HasRoom(queue.State()), opens);
              View() == c && bus.trace == old(bus.trace) + events
      ensures ok <==> old(state).Idle? && state.Recording?
    {
      if !state.Idle? {
        return false;
      }
      var room := queue.HasCapacity();
      if !room {
        bus.Publish(ErrorOccurred(None, QueuePart));
        return false;
      }
      var id := nextId;
      nextId := nextId + 1;
      var begun := recorder.Start(id, opens, early);
      if !begun {
        bus.Publish(ErrorOccurred(None, AudioPart));
        return false;
      }
      active := new Session(id);
      var moved := active.TryTransition(SessionState.Recording, now);
      state := ServiceState.Recording;
      return true;
    }

    /** stop_session(): the position of the queued job, or nothing on any failure;
        `between` is the queue as the worker leaves it once it has been notified. */
    method StopSession(late: seq<Sample>, now: nat, between: QueueState) returns (position: Option<nat>)
      requires Valid()
      requires var job := StoppedRecording(View(), !recorder.running, recorder.samples + late).2;
               job.Some? && HasRoom(queue.State()) ==> WorkerEffect(Enqueued(queue.State(), job.value), between)
      modifies this, active, recorder, queue, bus
      ensures Valid()
      ensures var (c, events, job) :=
                StoppedRecording(old(View()), !old(recorder.running), old(recorder.samples) + late);
              var q := old(queue.State());
              if job.None? then
                View() == c && bus.trace == old(bus.trace) + events && queue.State() == q && position == None
              else if HasRoom(q) then
                && View() == HandedOver(c) && queue.State() == between
                && position == Some(Outstanding(q))
                && bus.trace == old(bus.trace) + events + [TranscriptionQueued(job.value.id, Outstanding(q))]
              else
                && View() == FailedBy(c, QueuePart).0 && queue.State() == q && position == None
                && bus.trace == old(bus.trace) + events + FailedBy(c, QueuePart).1
    {
      if !state.Recording? {
        return None;
      }
      var id := active.id;
      var recording := recorder.Stop(late);
      if recording.None? {
        Fail(AudioPart, now);
        return None;
      }
      var moved := active.TryTransition(SessionState.Processing, now);
      position := queue.TryEnqueue(Job(id, recording.value));
      if position.None? {
        Fail(QueuePart, now);
        return None;
      }
      queue.WorkerRuns(between);
      active := null;
      state := ServiceState.Idle;
      bus.Publish(TranscriptionQueued(id, position.value));
    }

    method CancelSession(late: seq<Sample>, now: nat) returns (ok: bool)
      requires Valid()
      modifies this, active, recorder, bus
      ensures Valid() && (ok <==> !old(state).Idle?)
      ensures var (c, events) :=
                CancelledSession(old(View()), !old(recorder.running), old(recorder.samples) + late);
              View() == c && bus.trace == old(bus.trace) + events
    {
      if state.Idle? {
        return false;
      }
      if state.Recording? {
        var recording := recorder.Stop(late);
      }
      var id := active.id;
      var moved := active.TryTransition(SessionState.Failed, now);
      active := null;
      state := ServiceState.Idle;
      bus.Publish(SessionCancelled(id));
      return true;
    }

    method CancelJob(id: SessionId) returns (ok: bool)
      modifies queue, bus
      ensures ok <==> id in JobIds(old(queue.pending))
      ensures queue.State() == old(queue.State()).(pending := Erased(old(queue.pending), id))
      ensures bus.trace == old(bus.trace) + if ok then [SessionCancelled(id)] else []
    {
      ok := queue.CancelPending(id);
      if ok {
        bus.Publish(SessionCancelled(id));
      }
    }

    /** poll_completed(): results are taken first and start notices second; `between`
        is the queue as the worker leaves it in the meantime. */
    method PollCompleted(between: QueueState, clipboardFails: set<SessionId>) returns (count: nat)
      requires WorkerEffect(queue.State().(completed := []), between)
      modifies this`lastCompleted, this`lastFailed, queue, bus
      ensures queue.State() == between.(started := [])
      ensures bus.trace == old(bus.trace) + StartNotices(between.started)
                           + ResultNotices(old(queue.completed), clipboardFails)
      ensures VerdictsIn(bus.trace) == old(VerdictsIn(bus.trace)) + VerdictsOf(old(queue.completed))
      ensures count == |old(queue.completed)|
      ensures lastCompleted == LastOf(old(queue.completed), true, old(lastCompleted))
      ensures lastFailed == LastOf(old(queue.completed), false, old(lastFailed))
    {
      var results := queue.DrainCompleted();
      queue.WorkerRuns(between);
      var started := queue.DrainStarted();
      PublishStarts(started);
      PublishResults(results, clipboardFails);
      AnnouncedVerdicts(old(bus.trace), started, results, clipboardFails);
      count := |results|;
    }

    method PublishStarts(started: seq<SessionId>)
      modifies bus
      ensures bus.trace == old(bus.trace) + StartNotices(started)
    {
      for i := 0 to |started|
        invariant bus.trace == old(bus.trace) + StartNotices(started[..i])
      {
        bus.Publish(TranscriptionStarted(started[i]));
        StartNoticesMore(started[..i], started[i]);
        assert started[..i + 1] == started[..i] + [started[i]];
      }
      assert started[..|started|] == started;
    }

    method PublishResults(results: seq<JobResult>, clipboardFails: set<SessionId>)
      modifies this`lastCompleted, this`lastFailed, bus
      ensures bus.trace == old(bus.trace) + ResultNotices(results, clipboardFails)
      ensures lastCompleted == LastOf(results, true, old(lastCompleted))
      ensures lastFailed == LastOf(results, false, old(lastFailed))
    {
      for i := 0 to |results|
        invariant bus.trace == old(bus.trace) + ResultNotices(results[..i], clipboardFails)
        invariant lastCompleted == LastOf(results[..i], true, old(lastCompleted))
        invariant lastFailed == LastOf(results[..i], false, old(lastFailed))
      {
        PublishResult(results[i], clipboardFails);
        assert results[..i + 1] == results[..i] + [results[i]];
        ResultNoticesMore(results[..i], results[i], clipboardFails);
      }
      assert results[..|results|] == results;
    }

    method PublishResult(r: JobResult, clipboardFails: set<SessionId>)
      modifies this`lastCompleted, this`lastFailed, bus
      ensures bus.trace == old(bus.trace)
                           + [match r.outcome
                              case Transcript(text) => TranscriptionCompleted(r.id, text)
                              case SpeechError(_) => ErrorOccurred(Some(r.id), SpeechPart)]
                           + if r.outcome.Transcript? && r.id in clipboardFails
                             then [ErrorOccurred(Some(r.id), ClipboardPart)] else []
      ensures lastCompleted == if r.outcome.Transcript? then Some(r.id) else old(lastCompleted)
      ensures lastFailed == if r.outcome.Transcript? then old(lastFailed) else Some(r.id)
    {
      if r.outcome.SpeechError? {
        lastFailed := Some(r.id);
        bus.Publish(ErrorOccurred(Some(r.id), SpeechPart));
        return;
      }
      lastCompleted := Some(r.id);
      bus.Publish(TranscriptionCompleted(r.id, r.outcome.text));
      if r.id in clipboardFails {
        bus.Publish(ErrorOccurred(Some(r.id), ClipboardPart));
      }
    }

    /** shutdown(): `joined` is the queue once the worker has been joined. */
    method Shutdown(joined: QueueState) returns (dropped: seq<SessionId>)
      requires WorkerEffect(Stopped(queue.State()), joined)
      modifies queue, bus
      ensures dropped == JobIds(old(queue.pending))
      ensures queue.State() == joined && joined.stopping && joined.pending == []
      ensures bus.trace == old(bus.trace) + DropNotices(dropped)
    {
      dropped := queue.Shutdown(joined);
      PublishDrops(dropped);
    }

    method PublishDrops(dropped: seq<SessionId>)
      modifies bus
      ensures bus.trace == old(bus.trace) + DropNotices(dropped)
    {
      for i := 0 to |dropped|
        invariant bus.trace == old(bus.trace) + DropNotices(dropped[..i])
      {
        bus.Publish(ErrorOccurred(Some(dropped[i]), QueuePart));
        DropNoticesMore(dropped[..i], dropped[i]);
        assert dropped[..i + 1] == dropped[..i] + [dropped[i]];
      }
      assert dropped[..|dropped|] == dropped;
    }

    /** status(): one snapshot, so the reply never contradicts itself. */
    method Status() returns (status: SessionStatus)
      ensures status.state.Idle? ==> status.queued == 0 && !status.processing
      ensures status.state.Processing? <==> state.Processing? || (state.Idle? && Outstanding(queue.State()) > 0)
      ensures !state.Idle? ==> status.state == state
      ensures status.queued + (if status.processing then 1 else 0) == Outstanding(queue.State())
      ensures status.lastCompleted == lastCompleted && status.lastFailed == lastFailed
    {
      var pending, busy := |queue.pending|, queue.busy;
      ghost var q := queue.State();
      var reported := if !state.Idle? then state
                      else if busy || pending > 0 then ServiceState.Processing else ServiceState.Idle;
      assert reported == DerivedState(state, q);
      status := SessionStatus(reported, pending, busy, lastCompleted, lastFailed);
    }
  }
}
