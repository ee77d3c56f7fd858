/** The capture side of the service: the two transition tables, the session
    record, the recording manager and what each session operation does to them
    (src/domains/session/service_state.cpp, session.cpp, session_manager.cpp and
    src/domains/audio/recording_manager.cpp). */
module Captures {
  import opened Core

  predicate ServiceCanMove(from: ServiceState, to: ServiceState) {
    match from
    case Idle => to.Recording?
    case Recording => to.Processing? || to.Idle? || to.Error?
    case Processing => to.Idle? || to.Error?
    case Error => to.Idle?
  }

  predicate SessionCanMove(from: SessionState, to: SessionState) {
    match from
    case Created => to.Recording?
    case Recording => to.Processing? || to.Failed?
    case Processing => to.Completed? || to.Failed?
    case Completed => false
    case Failed => false
  }

  /** The two tables, row by row as they are documented. */
  lemma TransitionTables(a: ServiceState, b: ServiceState, c: SessionState, d: SessionState)
    ensures ServiceCanMove(a, b) <==>
              (a, b) in {(ServiceState.Idle, ServiceState.Recording),
                         (ServiceState.Recording, ServiceState.Processing),
                         (ServiceState.Recording, ServiceState.Idle), (ServiceState.Recording, ServiceState.Error),
                         (ServiceState.Processing, ServiceState.Idle), (ServiceState.Processing, ServiceState.Error),
                         (ServiceState.Error, ServiceState.Idle)}
    ensures SessionCanMove(c, d) <==>
              (c, d) in {(Created, SessionState.Recording),
                         (SessionState.Recording, SessionState.Processing), (SessionState.Recording, Failed),
                         (SessionState.Processing, Completed), (SessionState.Processing, Failed)}
  {
  }

  /** A session as the manager sees it. */
  datatype SessionRecord = SessionRecord(id: SessionId, state: SessionState)

  function Moved(s: SessionRecord, next: SessionState): SessionRecord {
    if SessionCanMove(s.state, next) then s.(state := next) else s
  }

  /** The three holders that must stay in step: the stored service state, the
      active session and the recording manager's active id. */
  datatype Capture = Capture(
    state: ServiceState,
    active: Option<SessionRecord>,
    recording: Option<SessionId>,
    nextId: nat)

  /** The lifecycle coupling that holds between operations. */
  predicate Coupled(c: Capture) {
    && !c.state.Processing?
    && (c.active.Some? <==> !c.state.Idle?)
    && (c.state.Recording? ==> c.active.value.state.Recording? && c.recording == Some(c.active.value.id))
    && (c.state.Error? ==> c.active.value.state.Failed?)
    && (c.recording.Some? ==> c.state.Recording?)
    && (c.active.Some? ==> c.active.value.id < c.nextId)
  }

  /** fail(): the active session fails and the service enters Error. */
  function FailedBy(c: Capture, component: Component): (Capture, seq<Event>)
    requires c.active.Some?
  {
    (c.(state := ServiceState.Error, active := Some(Moved(c.active.value, SessionState.Failed))),
     [ErrorOccurred(Some(c.active.value.id), component)])
  }

  /** start_session(): `room` is has_capacity(), `opens` says whether the device opens. */
  function StartedSession(c: Capture, room: bool, opens: bool): (Capture, seq<Event>) {
    if !c.state.Idle? then (c, [])
    else if !room then (c, [ErrorOccurred(None, QueuePart)])
    else if c.recording.Some? || !opens then (c.(nextId := c.nextId + 1), [ErrorOccurred(None, AudioPart)])
    else
      (Capture(ServiceState.Recording,
               Some(Moved(SessionRecord(c.nextId, SessionState.Created), SessionState.Recording)),
               Some(c.nextId), c.nextId + 1),
       [RecordingStarted(c.nextId)])
  }

  /** stop_session() up to the finished recording, or to its failure.
      `lost` says that the device was gone when the stop arrived. While Recording
      there is an active session (see Coupled). */
  function StoppedRecording(c: Capture, lost: bool, samples: seq<Sample>): (r: (Capture, seq<Event>, Option<Job>))
    ensures r.2.Some? ==> r.0.active.Some?
  {
    if !c.state.Recording? || c.active.None? then (c, [], None)
    else if c.recording.None? || lost then
      var (failed, events) := FailedBy(c.(recording := None), AudioPart);
      (failed, events, None)
    else
      (c.(recording := None, active := Some(Moved(c.active.value, SessionState.Processing))),
       [RecordingFinished(c.recording.value, samples)],
       Some(Job(c.active.value.id, samples)))
  }

  /** The rest of stop_session() once the queue has accepted the job. */
  function HandedOver(c: Capture): Capture {
    c.(state := ServiceState.Idle, active := None)
  }

  function CancelledSession(c: Capture, lost: bool, samples: seq<Sample>): (Capture, seq<Event>) {
    if c.state.Idle? then (c, [])
    else
      (Capture(ServiceState.Idle, None, if c.state.Recording? then None else c.recording, c.nextId),
       (if c.state.Recording? && c.recording.Some? && !lost
        then [RecordingFinished(c.recording.value, samples)] else [])
       + if c.active.Some? then [SessionCancelled(c.active.value.id)] else [])
  }

  /** Every operation keeps the holders coupled and moves the stored state only
      along the transition table, whatever the device and the queue do. */
  lemma CaptureStaysCoupled(c: Capture, room: bool, opens: bool, lost: bool, samples: seq<Sample>)
    requires Coupled(c)
    ensures var n := StartedSession(c, room, opens).0;
            Coupled(n) && (n.state != c.state ==> ServiceCanMove(c.state, n.state))
    ensures var (n, _, job) := StoppedRecording(c, lost, samples);
            if job.None? then
              Coupled(n) && (n.state != c.state ==> ServiceCanMove(c.state, n.state))
            else
              && n.state == c.state && n.active.value.state.Processing? && n.recording.None?
              && job.value == Job(c.active.value.id, samples)
              && Coupled(HandedOver(n)) && ServiceCanMove(c.state, HandedOver(n).state)
              && Coupled(FailedBy(n, QueuePart).0) && ServiceCanMove(c.state, FailedBy(n, QueuePart).0.state)
    ensures var n := CancelledSession(c, lost, samples).0;
            Coupled(n) && n.state.Idle? && (n.state != c.state ==> ServiceCanMove(c.state, n.state))
  {
    var (n, _, job) := StoppedRecording(c, lost, samples);
    if job.Some? {
      assert FailedBy(n, QueuePart).0.active.value.state.Failed?;
    }
  }

  /** The event bus: publishing appends to the trace. */
  class EventBus {
    var trace: seq<Event>

    constructor ()
      ensures trace == []
    {
      trace := [];
    }

    method Publish(e: Event)
      modifies this
      ensures trace == old(trace) + [e]
    {
      trace := trace + [e];
    }
  }

  /** One dictation cycle. Time stamps are plain numbers. */
  class Session {
    const id: SessionId
    var state: SessionState
    var finishedAt: Option<nat>

    ghost function Record(): SessionRecord
      reads this
    {
      SessionRecord(id, state)
    }

    constructor (id: SessionId)
      ensures Record() == SessionRecord(id, SessionState.Created) && finishedAt == None
    {
      this.id, state, finishedAt := id, SessionState.Created, None;
    }

    method TryTransition(next: SessionState, now: nat) returns (ok: bool)
      modifies this
      ensures ok <==> SessionCanMove(old(state), next)
      ensures Record() == Moved(old(Record()), next)
      ensures finishedAt == if ok && (next.Completed? || next.Failed?) then Some(now) else old(finishedAt)
    {
      if !SessionCanMove(state, next) {
        return false;
      }
      state := next;
      if next.Completed? || next.Failed? {
        finishedAt := Some(now);
      }
      return true;
    }
  }

  /** Microphone capture for one recording at a time. `running` is the device's
      own flag: the device clears it when the hardware disappears. */
  class RecordingManager {
    const bus: EventBus
    var active: Option<SessionId>
    var samples: seq<Sample>
    var running: bool

    constructor (bus: EventBus)
      ensures this.bus == bus && active == None && samples == [] && !running
    {
      this.bus := bus;
      active, samples, running := None, [], false;
    }

    /** The capture thread delivers a batch. */
    method OnSamples(batch: seq<Sample>)
      modifies this
      ensures samples == old(samples) + batch && active == old(active) && running == old(running)
    {
      samples := samples + batch;
    }

    /** The hardware disappears. */
    method DeviceLost()
      modifies this
      ensures !running && active == old(active) && samples == old(samples)
    {
      running := false;
    }

    /** start(): `early` is what the capture thread delivers before this returns. */
    method Start(id: SessionId, opens: bool, early: seq<Sample>) returns (ok: bool)
      modifies this, bus
      ensures ok <==> old(active).None? && opens
      ensures ok ==> active == Some(id) && samples == early && running
                     && bus.trace == old(bus.trace) + [RecordingStarted(id)]
      ensures !ok ==> active == old(active) && bus.trace == old(bus.trace)
      ensures samples == if old(active).Some? then old(samples) else if opens then early else []
    {
      if active.Some? {
        return false;
      }
      samples := [];
      if !opens {
        return false;
      }
      running := true;
      OnSamples(early);
      active := Some(id);
      bus.Publish(RecordingStarted(id));
      return true;
    }

    /** stop(): `late` is what the capture thread delivers before the device has
        stopped. The recording is every sample delivered since the start. */
    method Stop(late: seq<Sample>) returns (recording: Option<seq<Sample>>)
      modifies this, bus
      ensures old(active).None? ==> recording == None && unchanged(this) && unchanged(bus)
      ensures old(active).Some? ==> active == None && samples == [] && !running
      ensures recording.Some? <==> old(active).Some? && old(running)
      ensures recording.Some? ==> recording.value == old(samples) + late
      ensures bus.trace == old(bus.trace)
                           + if recording.Some? then [RecordingFinished(old(active).value, recording.value)] else []
    {
      if active.None? {
        return None;
      }
      var deviceWasLost := !running;
      if running {
        OnSamples(late);
      }
      running := false;
      if deviceWasLost {
        active, samples := None, [];
        return None;
      }
      recording := Some(samples);
      samples := [];
      var id := active.value;
      active := None;
      bus.Publish(RecordingFinished(id, recording.value));
    }

    /** samples_snapshot(): everything captured from `start` onward. */
    method SamplesSnapshot(start: nat) returns (window: seq<Sample>)
      ensures start <= |samples| ==> samples[..start] + window == samples
      ensures start >= |samples| ==> window == []
    {
      if start >= |samples| {
        return [];
      }
      return samples[start..];
    }
  }
}
